/** The metadata as a finite map: edits leave one line per field, inside the window, and what
    parseTaskFile reads is the map they update. */
module MetadataLaws {
  import opened Wrappers
  import opened Text
  import opened Metadata
  import opened MetadataBlock

  function TaskOf(fm: Format, s: Sheet): Task { Task(Id(fm, s), s.title, MapOf(s.meta)) }

  // ---------------------------------------------------------------- what is read back

  lemma {:induction false} FieldInFieldLine(fields: seq<string>, f: string, v: string)
    requires f in fields && Clean(v) && forall g :: g in fields ==> PlainName(g)
    ensures FieldIn(fields, FieldLine(f, v)) == Some((f, v))
  {
    FieldOfFieldLine(f, fields[0], v);
    if fields[0] != f {
      FieldInFieldLine(fields[1..], f, v);
    }
  }

  lemma SeeFieldLine(fm: Format, f: string, v: string)
    requires Proper(fm) && f in fm.fields && Clean(v)
    ensures See(fm, FieldLine(f, v)) == FieldSeen(f, v)
  {
    var line := FieldLine(f, v);
    assert line[0] == '*' && line[|line| - 1] == if v == "" then ' ' else v[|v| - 1];
    FieldInFieldLine(fm.fields, f, v);
  }

  /** The line is neither like a title line nor like a field. */
  predicate Quiet(fm: Format, line: string) {
    HeaderOf(fm.prefix, TrimReturn(line)).NotHeader? && FieldIn(fm.fields, TrimReturn(line)).None?
  }

  lemma {:induction false} NoFieldWithoutStars(fields: seq<string>, line: string)
    requires !HasPrefix(StripDash(line), "**")
    ensures FieldIn(fields, line) == None
  {
    if fields != [] {
      NoFieldWithoutStars(fields[1..], line);
    }
  }

  lemma QuietWithoutMarks(fm: Format, line: string)
    requires !HasPrefix(StripDash(TrimReturn(line)), "**") && !HasPrefix(TrimReturn(line), "# ")
    ensures Quiet(fm, line)
  {
    NoFieldWithoutStars(fm.fields, TrimReturn(line));
  }

  lemma SeeTop(fm: Format, s: Sheet)
    requires Valid(fm, s)
    ensures See(fm, HeaderLine(Id(fm, s), s.title)) == TitleSeen(Id(fm, s), s.title) && See(fm, "") == Nothing
  {
    var line := HeaderLine(Id(fm, s), s.title);
    HeaderOfHeaderLine(fm.prefix, s.number, s.title);
    QuietWithoutMarks(fm, "");
    assert line[|line| - 1] == s.title[|s.title| - 1] != '\r';
  }

  function FieldsSeen(meta: seq<(string, string)>): (xs: seq<Seen>)
    ensures |xs| == |meta|
  {
    seq(|meta|, i requires 0 <= i < |meta| => FieldSeen(meta[i].0, meta[i].1))
  }

  lemma SeenConcat(fm: Format, a: seq<string>, b: seq<string>)
    ensures SeenIn(fm, a + b) == SeenIn(fm, a) + SeenIn(fm, b)
  {
  }

  lemma SeeBlock(fm: Format, meta: seq<(string, string)>)
    requires Proper(fm) && ValidMeta(fm, meta)
    ensures SeenIn(fm, MetaLines(meta)) == FieldsSeen(meta)
  {
    forall i | 0 <= i < |meta|
      ensures See(fm, MetaLines(meta)[i]) == FieldSeen(meta[i].0, meta[i].1)
    {
      SeeFieldLine(fm, meta[i].0, meta[i].1);
    }
  }

  lemma SheetIsSeen(fm: Format, s: Sheet)
    requires Valid(fm, s)
    ensures SeenIn(fm, Lines(fm, s))
            == [TitleSeen(Id(fm, s), s.title), Nothing] + FieldsSeen(s.meta) + SeenIn(fm, s.body)
  {
    var top := HeaderLine(Id(fm, s), s.title);
    SeeTop(fm, s);
    SeeTwo(fm, top, "", TitleSeen(Id(fm, s), s.title), Nothing);
    SeeBlock(fm, s.meta);
    SeeThree(fm, [top, ""], MetaLines(s.meta), s.body);
  }

  lemma SeeTwo(fm: Format, a: string, b: string, x: Seen, y: Seen)
    requires See(fm, a) == x && See(fm, b) == y
    ensures SeenIn(fm, [a, b]) == [x, y]
  {
  }

  lemma SeeThree(fm: Format, top: seq<string>, block: seq<string>, body: seq<string>)
    ensures SeenIn(fm, top + block + body) == SeenIn(fm, top) + SeenIn(fm, block) + SeenIn(fm, body)
  {
    SeenConcat(fm, top, block);
    SeenConcat(fm, top + block, body);
  }

  /** Taking lines in two parts. */
  lemma {:induction false} TakeBelow(p: Parse, above: seq<Seen>, xs: seq<Seen>, base: nat, k: nat)
    requires k <= |xs|
    ensures TakeAll(p, above + xs, base, |above| + k)
            == TakeAll(TakeAll(p, above, base, |above|), xs, base + |above|, k)
    decreases k
  {
    if k == 0 {
      TakeAbove(p, above, xs, base, |above|);
    } else {
      TakeBelow(p, above, xs, base, k - 1);
    }
  }

  lemma {:induction false} TakeAbove(p: Parse, above: seq<Seen>, xs: seq<Seen>, base: nat, k: nat)
    requires k <= |above|
    ensures TakeAll(p, above + xs, base, k) == TakeAll(p, above, base, k)
    decreases k
  {
    if k > 0 {
      TakeAbove(p, above, xs, base, k - 1);
    }
  }

  lemma TakeTop(id: string, title: string)
    ensures TakeAll(Unread(), [TitleSeen(id, title), Nothing], 0, 2) == Reading(Task(id, title, map[]), true)
  {
    var xs := [TitleSeen(id, title), Nothing];
    assert TakeAll(Unread(), xs, 0, 1) == Reading(Task(id, title, map[]), true);
  }

  lemma {:induction false} TakeBlock(t: Task, meta: seq<(string, string)>, k: nat)
    requires k <= |meta| && t.fields == map[]
    ensures TakeAll(Reading(t, true), FieldsSeen(meta), 2, k) == Reading(t.(fields := MapOf(meta[..k])), true)
    decreases k
  {
    if k > 0 {
      TakeBlock(t, meta, k - 1);
      MapOfMore(meta, k - 1);
    }
  }

  lemma MapOfMore(meta: seq<(string, string)>, k: nat)
    requires k < |meta|
    ensures MapOf(meta[..k + 1]) == MapOf(meta[..k])[meta[k].0 := meta[k].1]
  {
    assert meta[..k + 1][..k] == meta[..k];
  }

  // ---------------------------------------------------------------- the body below the block

  /** The first line among the first `k` that only looks like a title, or `k`. */
  function FirstBad(xs: seq<Seen>, k: nat): (j: nat)
    requires k <= |xs|
    ensures j <= k
  {
    if k == 0 then 0
    else
      var j := FirstBad(xs, k - 1);
      if j < k - 1 || xs[k - 1].BadTitle? then j else k
  }

  /** The last title among the first `k`. */
  function LastTitle(xs: seq<Seen>, k: nat): Option<(string, string)>
    requires k <= |xs|
  {
    if k == 0 then None
    else if xs[k - 1].TitleSeen? then Some((xs[k - 1].id, xs[k - 1].title))
    else LastTitle(xs, k - 1)
  }

  /** The fields once the first `k` lines have been read on top of them. */
  function Overlay(xs: seq<Seen>, m: map<string, string>, k: nat): map<string, string>
    requires k <= |xs|
  {
    if k == 0 then m
    else if xs[k - 1].FieldSeen? then Overlay(xs, m, k - 1)[xs[k - 1].field := xs[k - 1].value]
    else Overlay(xs, m, k - 1)
  }

  /** What the first `k` lines make of the task above them. */
  function Below(t: Task, xs: seq<Seen>, k: nat): Task
    requires k <= |xs|
  {
    var title := LastTitle(xs, k);
    Task(if title.Some? then title.value.0 else t.id, if title.Some? then title.value.1 else t.title,
         Overlay(xs, t.fields, k))
  }

  lemma {:induction false} TakeAllIs(t: Task, xs: seq<Seen>, base: nat, k: nat)
    requires k <= |xs|
    ensures var j := FirstBad(xs, k);
            TakeAll(Reading(t, true), xs, base, k)
            == if j < k then MalformedHeader(base + j + 1) else Reading(Below(t, xs, k), true)
    decreases k
  {
    if k > 0 {
      TakeAllIs(t, xs, base, k - 1);
    }
  }

  /** How many lines of the body parseTaskFile reads. */
  function Exposed(s: Sheet): (k: nat)
    ensures k <= |s.body|
  {
    var room := MAX_METADATA_LINES - 2 - |s.meta|;
    if room < 0 then 0 else if room < |s.body| then room else |s.body|
  }

  function Outcome(t: Task, xs: seq<Seen>, base: nat, k: nat): Parse
    requires k <= |xs|
  {
    var j := FirstBad(xs, k);
    if j < k then MalformedHeader(base + j + 1) else Parsed(Below(t, xs, k))
  }

  lemma OutcomeIs(t: Task, xs: seq<Seen>, base: nat, k: nat)
    requires k <= |xs|
    ensures Finish(TakeAll(Reading(t, true), xs, base, k)) == Outcome(t, xs, base, k)
  {
    TakeAllIs(t, xs, base, k);
  }

  lemma ExposedIsTheWindow(fm: Format, s: Sheet)
    requires Valid(fm, s)
    ensures Window(Lines(fm, s)) == 2 + |s.meta| + Exposed(s)
  {
    BlockFits(fm, s.meta);
  }

  /** All that the window shows: the block, and then the body. */
  lemma SheetIsTaken(fm: Format, s: Sheet)
    requires Valid(fm, s)
    ensures TakeAll(Unread(), SeenIn(fm, Lines(fm, s)), 0, Window(Lines(fm, s)))
            == TakeAll(Reading(TaskOf(fm, s), true), SeenIn(fm, s.body), 2 + |s.meta|, Exposed(s))
  {
    SheetIsSeen(fm, s);
    ExposedIsTheWindow(fm, s);
    PartsAreTaken(SeenIn(fm, Lines(fm, s)), Window(Lines(fm, s)), TaskOf(fm, s), s.meta, SeenIn(fm, s.body),
                  Exposed(s));
  }

  lemma PartsAreTaken(all: seq<Seen>, w: nat, t: Task, meta: seq<(string, string)>, xs: seq<Seen>, k: nat)
    requires t.fields == MapOf(meta) && k <= |xs| && w == 2 + |meta| + k
    requires all == [TitleSeen(t.id, t.title), Nothing] + FieldsSeen(meta) + xs
    ensures TakeAll(Unread(), all, 0, w) == TakeAll(Reading(t, true), xs, 2 + |meta|, k)
  {
    var top := [TitleSeen(t.id, t.title), Nothing];
    TakeBelow(Unread(), top + FieldsSeen(meta), xs, 0, k);
    TakeBelow(Unread(), top, FieldsSeen(meta), 0, |meta|);
    TakeTop(t.id, t.title);
    TakeBlock(t.(fields := map[]), meta, |meta|);
    assert meta[..|meta|] == meta;
  }

  /** For any body: a line in the window that only looks like a title is reported by its
      number; otherwise what is read is the block's map, overlaid with the field-like lines of
      the body that the window exposes, under the last title that it exposes. */
  lemma ParseOfSheet(fm: Format, s: Sheet)
    requires Valid(fm, s)
    ensures ParseTask(fm, Lines(fm, s)) == Outcome(TaskOf(fm, s), SeenIn(fm, s.body), 2 + |s.meta|, Exposed(s))
  {
    SheetIsTaken(fm, s);
    OutcomeIs(TaskOf(fm, s), SeenIn(fm, s.body), 2 + |s.meta|, Exposed(s));
  }

  /** The last value that the first `k` lines give to `f`. */
  function LastIn(xs: seq<Seen>, k: nat, f: string): Option<string>
    requires k <= |xs|
  {
    if k == 0 then None
    else if xs[k - 1].FieldSeen? && xs[k - 1].field == f then Some(xs[k - 1].value)
    else LastIn(xs, k - 1, f)
  }

  lemma {:induction false} OverlayLookup(xs: seq<Seen>, m: map<string, string>, k: nat, f: string)
    requires k <= |xs|
    ensures f in Overlay(xs, m, k) <==> f in m || LastIn(xs, k, f).Some?
    ensures f in Overlay(xs, m, k) ==>
              Overlay(xs, m, k)[f] == if LastIn(xs, k, f).Some? then LastIn(xs, k, f).value else m[f]
    decreases k
  {
    if k > 0 {
      OverlayLookup(xs, m, k - 1, f);
    }
  }

  /** The lines agree with the block: every field that one of the first `k` gives a value has,
      in the block, the last such value. */
  ghost predicate FieldsAgree(xs: seq<Seen>, m: map<string, string>, k: nat)
    requires k <= |xs|
  {
    forall f :: LastIn(xs, k, f).Some? ==> f in m && m[f] == LastIn(xs, k, f).value
  }

  /** None of the first `k` lines only looks like a title, and the last title line among them,
      if there is one, repeats the task's. */
  predicate TitlesAgree(xs: seq<Seen>, t: Task, k: nat)
    requires k <= |xs|
  {
    FirstBad(xs, k) == k && (LastTitle(xs, k).Some? ==> LastTitle(xs, k).value == (t.id, t.title))
  }

  /** For any body: the title and the block's map are what is read back if and only if the
      body's lines in the window agree with them. */
  lemma ReadsTheBlockIff(fm: Format, s: Sheet)
    requires Valid(fm, s)
    ensures var xs, t, k := SeenIn(fm, s.body), TaskOf(fm, s), Exposed(s);
            ParseTask(fm, Lines(fm, s)) == Parsed(t) <==> FieldsAgree(xs, t.fields, k) && TitlesAgree(xs, t, k)
  {
    ParseOfSheet(fm, s);
    OverlayAgrees(SeenIn(fm, s.body), MapOf(s.meta), Exposed(s));
  }

  lemma OverlayAgrees(xs: seq<Seen>, m: map<string, string>, k: nat)
    requires k <= |xs|
    ensures Overlay(xs, m, k) == m <==> FieldsAgree(xs, m, k)
  {
    forall f
      ensures f in Overlay(xs, m, k) <==> f in m || LastIn(xs, k, f).Some?
      ensures f in Overlay(xs, m, k) ==>
                Overlay(xs, m, k)[f] == if LastIn(xs, k, f).Some? then LastIn(xs, k, f).value else m[f]
    {
      OverlayLookup(xs, m, k, f);
    }
  }

  // ---------------------------------------------------------------- whole runs of edits

  datatype Op = Set(field: string, value: string) | Clear(field: string) | Title(title: string)

  predicate ValidOp(fm: Format, op: Op) {
    match op
    case Set(f, v) => f in fm.fields && Clean(v)
    case Clear(f) => f in fm.fields
    case Title(t) => Clean(t) && t != ""
  }

  function Edit(fm: Format, lines: seq<string>, op: Op): seq<string> {
    match op
    case Set(f, v) => SetLine(lines, f, v)
    case Clear(f) => ClearLine(lines, f)
    case Title(t) => var out := RetitledLines(fm, lines, t); if out.Some? then out.value else lines
  }

  function EditAll(fm: Format, lines: seq<string>, ops: seq<Op>): seq<string> {
    if ops == [] then lines else Edit(fm, EditAll(fm, lines, ops[..|ops| - 1]), ops[|ops| - 1])
  }

  function Update(t: Task, op: Op): Task {
    match op
    case Set(f, v) => t.(fields := t.fields[f := v])
    case Clear(f) => t.(fields := t.fields - {f})
    case Title(title) => t.(title := title)
  }

  function UpdateAll(t: Task, ops: seq<Op>): Task {
    if ops == [] then t else Update(UpdateAll(t, ops[..|ops| - 1]), ops[|ops| - 1])
  }

  function EditSheet(s: Sheet, op: Op): Sheet {
    match op
    case Set(f, v) => s.(meta := SetMeta(s.meta, f, v))
    case Clear(f) => s.(meta := ClearMeta(s.meta, f))
    case Title(t) => s.(title := t)
  }

  /** On any block, with a Branch line or without one; only when an edit takes away the last
      line above a blank one does the block lose its place. */
  lemma EditIsUpdate(fm: Format, s: Sheet, op: Op)
    requires Valid(fm, s) && ValidOp(fm, op) && PlainName("Branch") && Anchored(EditSheet(s, op))
    ensures Edit(fm, Lines(fm, s), op) == Lines(fm, EditSheet(s, op))
    ensures Valid(fm, EditSheet(s, op)) && TaskOf(fm, EditSheet(s, op)) == Update(TaskOf(fm, s), op)
  {
    match op
    case Set(f, v) =>
      SetIsOnTheBlock(fm, s, f, v);
      SetMetaIsUpdate(fm, s.meta, f, v);
    case Clear(f) =>
      ClearIsOnTheBlock(fm, s, f);
      ClearMetaIsRemoval(fm, s.meta, f);
    case Title(t) =>
      TitleIsOnTheHeader(fm, s, t);
  }

  function EditSheetAll(s: Sheet, ops: seq<Op>): Sheet {
    if ops == [] then s else EditSheet(EditSheetAll(s, ops[..|ops| - 1]), ops[|ops| - 1])
  }

  /** No edit leaves a block of no lines above a blank one. */
  predicate KeepsAnchored(s: Sheet, ops: seq<Op>) {
    forall i :: 0 <= i <= |ops| ==> Anchored(EditSheetAll(s, ops[..i]))
  }

  lemma KeepsAnchoredPrefix(s: Sheet, ops: seq<Op>)
    requires KeepsAnchored(s, ops) && ops != []
    ensures KeepsAnchored(s, ops[..|ops| - 1]) && Anchored(EditSheetAll(s, ops))
  {
    var n := |ops| - 1;
    assert ops[..n + 1] == ops;
    forall i | 0 <= i <= n
      ensures Anchored(EditSheetAll(s, ops[..n][..i]))
    {
      assert ops[..n][..i] == ops[..i];
    }
  }

  /** For instance when the block has a line for `f` that no edit clears. */
  lemma {:induction false} KeptLineAnchors(s: Sheet, ops: seq<Op>, f: string)
    requires Names(s.meta, f) && Clear(f) !in ops
    ensures KeepsAnchored(s, ops) && Names(EditSheetAll(s, ops).meta, f)
  {
    if ops != [] {
      var n := |ops| - 1;
      KeptLineAnchors(s, ops[..n], f);
      assert Names(EditSheetAll(s, ops[..n]).meta, f);
      NameStays(EditSheetAll(s, ops[..n]), ops[n], f);
      AnchoredUpTo(s, ops);
    }
  }

  lemma NameStays(s: Sheet, op: Op, f: string)
    requires Names(s.meta, f) && op != Clear(f)
    ensures Names(EditSheet(s, op).meta, f)
  {
    match op
    case Set(g, v) => NameStaysWhenSet(s.meta, f, g, v);
    case Clear(g) => NameStaysWhenCleared(s.meta, f, g);
    case Title(t) =>
  }

  lemma NameStaysWhenSet(meta: seq<(string, string)>, f: string, g: string, v: string)
    requires Names(meta, f)
    ensures Names(SetMeta(meta, g, v), f)
  {
    var k :| 0 <= k < |meta| && meta[k].0 == f;
    var i, b := IndexOf(meta, g), IndexOf(meta, "Branch");
    IndexOfIsFirst(meta, g);
    if i < |meta| {
      assert meta[i := (g, v)][k].0 == f;
    } else {
      assert (meta[..b] + [(g, v)] + meta[b..])[if b <= k then k + 1 else k].0 == f;
    }
  }

  lemma NameStaysWhenCleared(meta: seq<(string, string)>, f: string, g: string)
    requires Names(meta, f) && f != g
    ensures Names(ClearMeta(meta, g), f)
  {
    var k :| 0 <= k < |meta| && meta[k].0 == f;
    var i := IndexOf(meta, g);
    IndexOfIsFirst(meta, g);
    if i < |meta| {
      assert (meta[..i] + meta[i + 1..])[if i < k then k - 1 else k].0 == f;
    }
  }

  lemma AnchoredUpTo(s: Sheet, ops: seq<Op>)
    requires ops != [] && KeepsAnchored(s, ops[..|ops| - 1]) && Anchored(EditSheetAll(s, ops))
    ensures KeepsAnchored(s, ops)
  {
    var n := |ops| - 1;
    forall i | 0 <= i <= |ops|
      ensures Anchored(EditSheetAll(s, ops[..i]))
    {
      if i <= n {
        assert ops[..n][..i] == ops[..i];
      } else {
        assert ops[..i] == ops;
      }
    }
  }

  /** The last line above a blank one, cleared and set again, does not come back to its place. */
  lemma EmptiedBlockMoves(fm: Format, s: Sheet, f: string, v: string)
    requires Valid(fm, s) && s.meta == [(f, v)] && s.body != [] && TrimSpace(s.body[0]) == ""
    ensures SetLine(ClearLine(Lines(fm, s), f), f, v) != Lines(fm, s)
  {
    var empty := s.(meta := []);
    var lines := Lines(fm, empty);
    assert s.meta[0] == (f, v) && f in fm.fields;
    ClearIsOnTheBlock(fm, s, f);
    assert s.meta[..0] + s.meta[1..] == [];
    HeaderLineIsTrimmed(Id(fm, s), s.title);
    SkipsBlanks(lines);
    FieldLineIsInTheBlock(f, v);
    assert Lines(fm, s)[2] == FieldLine(f, v) && lines[2] == s.body[0];
    assert |Lines(fm, s)| == |lines| + 1;
    SetBelow(lines, f, v);
  }

  lemma SkipsBlanks(lines: seq<string>)
    requires |lines| > 2 && HasPrefix(TrimSpace(lines[0]), "# ")
    requires TrimSpace(lines[1]) == "" && TrimSpace(lines[2]) == ""
    ensures BlockStart(lines) >= 3
  {
    assert Window(lines) >= 3;
    assert FirstWhere(lines, 1, Window(lines), NotBlank) == FirstWhere(lines, 2, Window(lines), NotBlank);
  }

  /** setField leaves the lines above the block's start, and adds at most one. */
  lemma SetBelow(lines: seq<string>, f: string, v: string)
    requires BlockStart(lines) >= 3
    ensures var out := SetLine(lines, f, v); |out| == |lines| || (|out| > 2 && |lines| > 2 && out[2] == lines[2])
  {
  }

  /** After any run of edits the file is still one line per field, in a block that fits the
      window, above the same body, and the block's map is the map updated by the edits. */
  lemma {:induction false} EditsKeepTheLayout(fm: Format, s: Sheet, ops: seq<Op>)
    requires Valid(fm, s) && PlainName("Branch") && forall i :: 0 <= i < |ops| ==> ValidOp(fm, ops[i])
    requires KeepsAnchored(s, ops)
    ensures var s' := EditSheetAll(s, ops);
            && EditAll(fm, Lines(fm, s), ops) == Lines(fm, s') && Valid(fm, s') && s'.body == s.body
            && 2 + |s'.meta| <= MAX_METADATA_LINES
            && TaskOf(fm, s') == UpdateAll(TaskOf(fm, s), ops)
  {
    if ops == [] {
      BlockFits(fm, s.meta);
    } else {
      var n := |ops| - 1;
      KeepsAnchoredPrefix(s, ops);
      EditsKeepTheLayout(fm, s, ops[..n]);
      EditIsUpdate(fm, EditSheetAll(s, ops[..n]), ops[n]);
      BlockFits(fm, EditSheetAll(s, ops).meta);
    }
  }

  /** The body has no title-like or field-like line that the window could ever reach. */
  ghost predicate QuietBody(fm: Format, body: seq<string>) {
    forall i :: 0 <= i < |body| && i < MAX_METADATA_LINES - 2 ==> Quiet(fm, body[i])
  }

  lemma QuietIsNothing(fm: Format, line: string)
    ensures Quiet(fm, line) <==> See(fm, line) == Nothing
  {
  }

  lemma {:induction false} NothingBelow(t: Task, xs: seq<Seen>, k: nat)
    requires k <= |xs| && forall i :: 0 <= i < k ==> xs[i] == Nothing
    ensures Below(t, xs, k) == t && FirstBad(xs, k) == k
    decreases k
  {
    if k > 0 {
      NothingBelow(t, xs, k - 1);
    }
  }

  /** After any run of edits, above any body: what is read is the task updated by the edits as a
      map, if and only if the body's lines in the window agree with that. */
  lemma ParseAfterEditsIff(fm: Format, s: Sheet, ops: seq<Op>)
    requires Valid(fm, s) && PlainName("Branch") && forall i :: 0 <= i < |ops| ==> ValidOp(fm, ops[i])
    requires KeepsAnchored(s, ops)
    ensures var t, xs, k := UpdateAll(TaskOf(fm, s), ops), SeenIn(fm, s.body), Exposed(EditSheetAll(s, ops));
            && k <= |s.body|
            && (ParseTask(fm, EditAll(fm, Lines(fm, s), ops)) == Parsed(t)
                <==> FieldsAgree(xs, t.fields, k) && TitlesAgree(xs, t, k))
  {
    EditsKeepTheLayout(fm, s, ops);
    ReadsTheBlockIff(fm, EditSheetAll(s, ops));
  }

  /** In particular above a quiet body. */
  lemma ParseAfterEdits(fm: Format, s: Sheet, ops: seq<Op>)
    requires Valid(fm, s) && QuietBody(fm, s.body)
    requires PlainName("Branch") && KeepsAnchored(s, ops) && forall i :: 0 <= i < |ops| ==> ValidOp(fm, ops[i])
    ensures ParseTask(fm, EditAll(fm, Lines(fm, s), ops)) == Parsed(UpdateAll(TaskOf(fm, s), ops))
  {
    var s' := EditSheetAll(s, ops);
    EditsKeepTheLayout(fm, s, ops);
    ParseOfSheet(fm, s');
    forall i | 0 <= i < Exposed(s')
      ensures SeenIn(fm, s'.body)[i] == Nothing
    {
      QuietIsNothing(fm, s'.body[i]);
    }
    NothingBelow(TaskOf(fm, s'), SeenIn(fm, s'.body), Exposed(s'));
  }
}
