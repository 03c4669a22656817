/** The metadata block: where it lies in a task's lines, and what setField and clearField do
    to it, as a list of lines and as a finite map.

    A task file is a sheet: title line, blank line, the block with one line per field, and
    a body. The lemmas go from splices on the file's lines to splices on the block, and from
    there to updates of the map. */
module MetadataBlock {
  import opened Wrappers
  import opened Text
  import opened Metadata

  /** A task file's parts: `meta` holds the fields in the order of their lines. */
  datatype Sheet = Sheet(number: string, title: string, meta: seq<(string, string)>, body: seq<string>)

  function MetaLines(meta: seq<(string, string)>): seq<string> {
    seq(|meta|, i requires 0 <= i < |meta| => FieldLine(meta[i].0, meta[i].1))
  }

  function Id(fm: Format, s: Sheet): string { fm.prefix + "-" + s.number }

  function Top(id: string, title: string): seq<string> { [HeaderLine(id, title), ""] }

  function Lines(fm: Format, s: Sheet): seq<string> {
    Top(Id(fm, s), s.title) + MetaLines(s.meta) + s.body
  }

  lemma LineAt(fm: Format, s: Sheet, k: nat)
    ensures k < |s.meta| ==> Lines(fm, s)[2 + k] == FieldLine(s.meta[k].0, s.meta[k].1)
    ensures k < |s.body| ==> Lines(fm, s)[2 + |s.meta| + k] == s.body[k]
  {
  }

  predicate Names(meta: seq<(string, string)>, f: string) { exists i :: 0 <= i < |meta| && meta[i].0 == f }

  ghost predicate ValidMeta(fm: Format, meta: seq<(string, string)>) {
    && (forall i :: 0 <= i < |meta| ==> meta[i].0 in fm.fields && Clean(meta[i].1))
    && (forall i, j :: 0 <= i < j < |meta| ==> meta[i].0 != meta[j].0)
  }

  /** A block of no lines is found where it belongs only when no blank line follows. */
  predicate Anchored(s: Sheet) { s.meta != [] || s.body == [] || TrimSpace(s.body[0]) != "" }

  /** One line per field, and a body that the block ends at. */
  ghost predicate Valid(fm: Format, s: Sheet) {
    && Proper(fm) && IsNumber(s.number) && Clean(s.title) && s.title != ""
    && ValidMeta(fm, s.meta) && Anchored(s)
    && (s.body != [] ==> EndsMetadata(s.body[0]))
  }

  // ---------------------------------------------------------------- the block fits the window

  function NameSet(meta: seq<(string, string)>): set<string> { set i | 0 <= i < |meta| :: meta[i].0 }

  function Elements(fields: seq<string>): set<string> { set f | f in fields }

  lemma {:induction false} AsManyNames(meta: seq<(string, string)>)
    requires forall i, j :: 0 <= i < j < |meta| ==> meta[i].0 != meta[j].0
    ensures |NameSet(meta)| == |meta|
  {
    if meta != [] {
      var n := |meta| - 1;
      AsManyNames(meta[..n]);
      assert NameSet(meta) == NameSet(meta[..n]) + {meta[n].0};
    }
  }

  lemma {:induction false} AtMostAsManyElements(fields: seq<string>)
    ensures |Elements(fields)| <= |fields|
  {
    if fields != [] {
      var n := |fields| - 1;
      AtMostAsManyElements(fields[..n]);
      assert Elements(fields) == Elements(fields[..n]) + {fields[n]};
    }
  }

  lemma SubsetIsSmaller(a: set<string>, b: set<string>)
    requires a <= b
    ensures |a| <= |b|
  {
    assert b == a + (b - a);
  }

  /** The block never outgrows the window. */
  lemma BlockFits(fm: Format, meta: seq<(string, string)>)
    requires Proper(fm) && ValidMeta(fm, meta)
    ensures 2 + |meta| <= MAX_METADATA_LINES
  {
    AsManyNames(meta);
    AtMostAsManyElements(fm.fields);
    SubsetIsSmaller(NameSet(meta), Elements(fm.fields));
  }

  // ---------------------------------------------------------------- where the block is

  lemma HeaderLineIsTrimmed(id: string, title: string)
    requires Clean(title) && title != ""
    ensures TrimSpace(HeaderLine(id, title)) == HeaderLine(id, title)
  {
    var line := HeaderLine(id, title);
    assert line[0] == '#' && line[|line| - 1] == title[|title| - 1];
  }

  lemma {:induction false} TrimRightKeepsTheHead(s: string)
    requires s != "" && !IsSpace(s[0])
    ensures TrimRightSpace(s) != "" && TrimRightSpace(s)[0] == s[0]
  {
    if IsSpace(s[|s| - 1]) {
      TrimRightKeepsTheHead(s[..|s| - 1]);
    }
  }

  lemma FieldLineIsInTheBlock(f: string, v: string)
    ensures !EndsMetadata(FieldLine(f, v))
  {
    assert FieldLine(f, v)[0] == '*';
    TrimRightKeepsTheHead(FieldLine(f, v));
  }

  lemma {:induction false} FirstIs(lines: seq<string>, i: nat, r: nat, end: nat, stop: string -> bool)
    requires i <= r <= end <= |lines|
    requires forall k :: i <= k < r ==> !stop(lines[k])
    requires r < end ==> stop(lines[r])
    ensures FirstWhere(lines, i, end, stop) == r
    decreases r - i
  {
    if i < r {
      FirstIs(lines, i + 1, r, end, stop);
    }
  }

  lemma BlockOfSheet(fm: Format, s: Sheet)
    requires Valid(fm, s)
    ensures BlockStart(Lines(fm, s)) == 2 && BlockEnd(Lines(fm, s)) == 2 + |s.meta|
  {
    var lines := Lines(fm, s);
    BlockFits(fm, s.meta);
    HeaderLineIsTrimmed(Id(fm, s), s.title);
    forall k | 2 <= k < 2 + |s.meta|
      ensures !EndsMetadata(lines[k])
    {
      FieldLineIsInTheBlock(s.meta[k - 2].0, s.meta[k - 2].1);
    }
    FirstFieldLine(fm, s);
    assert 2 + |s.meta| < |lines| ==> lines[2 + |s.meta|] == s.body[0];
    FirstIs(lines, 2, 2 + |s.meta|, Window(lines), EndsMetadata);
  }

  lemma FirstFieldLine(fm: Format, s: Sheet)
    requires Valid(fm, s) && 2 + |s.meta| <= MAX_METADATA_LINES
    requires TrimSpace(Lines(fm, s)[0]) == Lines(fm, s)[0]
    ensures BlockStart(Lines(fm, s)) == 2
  {
    var lines := Lines(fm, s);
    assert lines[1] == "" && HasPrefix(lines[0], "# ");
    if s.meta != [] {
      assert lines[2] == FieldLine(s.meta[0].0, s.meta[0].1);
      FieldLineIsInTheBlock(s.meta[0].0, s.meta[0].1);
    } else {
      assert s.body != [] ==> lines[2] == s.body[0];
    }
    assert FirstWhere(lines, 2, Window(lines), NotBlank) == 2;
  }

  // ---------------------------------------------------------------- the edits, on the parts

  /** The index of the field's line in the block, or the number of lines. */
  function IndexOf(meta: seq<(string, string)>, f: string): (i: nat)
    ensures i <= |meta|
  {
    if meta == [] || meta[0].0 == f then 0 else IndexOf(meta[1..], f) + 1
  }

  lemma {:induction false} IndexOfIsFirst(meta: seq<(string, string)>, f: string)
    ensures var i := IndexOf(meta, f);
            (i < |meta| ==> meta[i].0 == f) && forall j :: 0 <= j < i ==> meta[j].0 != f
  {
    if meta != [] && meta[0].0 != f {
      IndexOfIsFirst(meta[1..], f);
      forall j | 0 <= j < IndexOf(meta, f)
        ensures meta[j].0 != f
      {
        assert j > 0 ==> meta[j] == meta[1..][j - 1];
      }
    }
  }

  function SetMeta(meta: seq<(string, string)>, f: string, v: string): seq<(string, string)> {
    var i, b := IndexOf(meta, f), IndexOf(meta, "Branch");
    if i < |meta| then meta[i := (f, v)] else meta[..b] + [(f, v)] + meta[b..]
  }

  function ClearMeta(meta: seq<(string, string)>, f: string): seq<(string, string)> {
    var i := IndexOf(meta, f);
    if i < |meta| then meta[..i] + meta[i + 1..] else meta
  }

  lemma LineHoldsItsField(fm: Format, s: Sheet, k: nat, f: string)
    requires ValidMeta(fm, s.meta) && Proper(fm) && PlainName(f) && k < |s.meta|
    ensures Holds(f)(Lines(fm, s)[2 + k]) <==> s.meta[k].0 == f
  {
    var line := FieldLine(s.meta[k].0, s.meta[k].1);
    assert HasField(line, f) <==> s.meta[k].0 == f by {
      FieldOfFieldLine(s.meta[k].0, f, s.meta[k].1);
    }
    LineAt(fm, s, k);
  }

  /** Line by line, `holds` says whether it is the line of `f`. */
  ghost predicate Marks(meta: seq<(string, string)>, lines: seq<string>, f: string, holds: string -> bool) {
    |lines| >= 2 + |meta| && forall k :: 0 <= k < |meta| ==> (holds(lines[2 + k]) <==> meta[k].0 == f)
  }

  lemma LinesAreMarked(fm: Format, s: Sheet, f: string)
    requires ValidMeta(fm, s.meta) && Proper(fm) && PlainName(f)
    ensures Marks(s.meta, Lines(fm, s), f, Holds(f))
  {
    var lines := Lines(fm, s);
    forall k | 0 <= k < |s.meta|
      ensures Holds(f)(lines[2 + k]) <==> s.meta[k].0 == f
    {
      LineHoldsItsField(fm, s, k, f);
    }
  }

  lemma LineOfField(fm: Format, s: Sheet, f: string)
    requires ValidMeta(fm, s.meta) && Proper(fm) && PlainName(f)
    ensures LineOf(Lines(fm, s), 2, 2 + |s.meta|, f) == 2 + IndexOf(s.meta, f)
  {
    LinesAreMarked(fm, s, f);
    FirstMarked(s.meta, Lines(fm, s), f, Holds(f));
  }

  lemma FirstMarked(meta: seq<(string, string)>, lines: seq<string>, f: string, holds: string -> bool)
    requires Marks(meta, lines, f, holds)
    ensures FirstWhere(lines, 2, 2 + |meta|, holds) == 2 + IndexOf(meta, f)
  {
    IndexOfIsFirst(meta, f);
    forall k | 2 <= k < 2 + |meta|
      ensures holds(lines[k]) <==> meta[k - 2].0 == f
    {
      assert lines[2 + (k - 2)] == lines[k];
    }
    FirstIs(lines, 2, 2 + IndexOf(meta, f), 2 + |meta|, holds);
  }

  lemma ReplaceInBlock(top: seq<string>, block: seq<string>, body: seq<string>, i: nat, x: string)
    requires i < |block|
    ensures (top + block + body)[|top| + i := x] == top + block[i := x] + body
  {
  }

  lemma InsertInBlock(top: seq<string>, block: seq<string>, body: seq<string>, i: nat, x: string)
    requires i <= |block|
    ensures InsertLine(top + block + body, |top| + i, x) == top + InsertLine(block, i, x) + body
  {
    assert (top + block + body)[..|top| + i] == top + block[..i];
    assert (top + block + body)[|top| + i..] == block[i..] + body;
  }

  lemma DeleteInBlock(top: seq<string>, block: seq<string>, body: seq<string>, i: nat)
    requires i < |block|
    ensures (top + block + body)[..|top| + i] + (top + block + body)[|top| + i + 1..]
            == top + (block[..i] + block[i + 1..]) + body
  {
    assert (top + block + body)[..|top| + i] == top + block[..i];
    assert (top + block + body)[|top| + i + 1..] == block[i + 1..] + body;
  }

  lemma LinesOfMeta(meta: seq<(string, string)>, i: nat, f: string, v: string)
    ensures i < |meta| ==> MetaLines(meta[i := (f, v)]) == MetaLines(meta)[i := FieldLine(f, v)]
    ensures i <= |meta| ==>
              MetaLines(meta[..i] + [(f, v)] + meta[i..]) == InsertLine(MetaLines(meta), i, FieldLine(f, v))
    ensures i < |meta| ==> MetaLines(meta[..i] + meta[i + 1..]) == MetaLines(meta)[..i] + MetaLines(meta)[i + 1..]
  {
  }

  /** The file's lines when those of its block are `block`. */
  function Around(fm: Format, s: Sheet, block: seq<string>): seq<string> { Top(Id(fm, s), s.title) + block + s.body }

  /** setField's splice on the lines is the map update on the block. */
  lemma SetIsOnTheBlock(fm: Format, s: Sheet, f: string, v: string)
    requires Valid(fm, s) && PlainName(f) && PlainName("Branch")
    ensures SetLine(Lines(fm, s), f, v) == Lines(fm, s.(meta := SetMeta(s.meta, f, v)))
  {
    var i, b, block := IndexOf(s.meta, f), IndexOf(s.meta, "Branch"), MetaLines(s.meta);
    BlockOfSheet(fm, s);
    LineOfField(fm, s, f);
    LineOfField(fm, s, "Branch");
    SpliceAround(Top(Id(fm, s), s.title), block, s.body, i, b, FieldLine(f, v));
    LinesOfMeta(s.meta, if i < |s.meta| then i else b, f, v);
    assert Lines(fm, s) == Around(fm, s, block);
    assert SetLine(Lines(fm, s), f, v)
        == Around(fm, s, if i < |block| then block[i := FieldLine(f, v)] else InsertLine(block, b, FieldLine(f, v)));
  }

  lemma SpliceAround(top: seq<string>, block: seq<string>, body: seq<string>, i: nat, b: nat, x: string)
    requires i <= |block| && b <= |block|
    ensures i < |block| ==> (top + block + body)[|top| + i := x] == top + block[i := x] + body
    ensures InsertLine(top + block + body, |top| + b, x) == top + InsertLine(block, b, x) + body
  {
    if i < |block| {
      ReplaceInBlock(top, block, body, i, x);
    }
    InsertInBlock(top, block, body, b, x);
  }

  lemma ClearIsOnTheBlock(fm: Format, s: Sheet, f: string)
    requires Valid(fm, s) && PlainName(f)
    ensures ClearLine(Lines(fm, s), f) == Lines(fm, s.(meta := ClearMeta(s.meta, f)))
  {
    SheetOfLines(fm, s);
    LineIsGone(fm, s, f, Lines(fm, s), IndexOf(s.meta, f));
    ClearedLine(fm, s, f, Lines(fm, s), IndexOf(s.meta, f), Lines(fm, s.(meta := ClearMeta(s.meta, f))));
  }

  lemma SheetOfLines(fm: Format, s: Sheet)
    ensures |Lines(fm, s)| == 2 + |s.meta| + |s.body|
  {
  }

  lemma ClearedLine(fm: Format, s: Sheet, f: string, lines: seq<string>, i: nat, out: seq<string>)
    requires Valid(fm, s) && PlainName(f) && lines == Lines(fm, s) && i == IndexOf(s.meta, f) && |lines| >= 2 + |s.meta|
    requires out == if i < |s.meta| then lines[..2 + i] + lines[2 + i + 1..] else lines
    ensures ClearLine(lines, f) == out
  {
    BlockOfSheet(fm, s);
    LineOfField(fm, s, f);
    ClearedAt(lines, f, 2, 2 + |s.meta|, 2 + i);
  }

  lemma ClearedAt(lines: seq<string>, f: string, start: nat, end: nat, i: nat)
    requires start == BlockStart(lines) && end == BlockEnd(lines) && i == LineOf(lines, start, end, f)
    ensures ClearLine(lines, f) == if i < end then lines[..i] + lines[i + 1..] else lines
  {
  }

  lemma LineIsGone(fm: Format, s: Sheet, f: string, lines: seq<string>, i: nat)
    requires lines == Lines(fm, s) && i == IndexOf(s.meta, f) && |lines| >= 2 + |s.meta|
    ensures (if i < |s.meta| then lines[..2 + i] + lines[2 + i + 1..] else lines)
            == Lines(fm, s.(meta := ClearMeta(s.meta, f)))
  {
    if i < |s.meta| {
      LinesOfMeta(s.meta, i, f, "");
      DeleteInBlock(Top(Id(fm, s), s.title), MetaLines(s.meta), s.body, i);
    } else {
      assert s.(meta := s.meta) == s;
    }
  }

  lemma TitleIsOnTheHeader(fm: Format, s: Sheet, t: string)
    requires Valid(fm, s)
    ensures RetitledLines(fm, Lines(fm, s), t) == Some(Lines(fm, s.(title := t)))
  {
    HeaderLineIsTrimmed(Id(fm, s), s.title);
    HeaderOfHeaderLine(fm.prefix, s.number, s.title);
    HasHeaderPrefix(fm, s.number, s.title);
    TitleOnTop(fm, Lines(fm, s), Id(fm, s), s.title, t, MetaLines(s.meta) + s.body);
    assert Top(Id(fm, s), s.title) + (MetaLines(s.meta) + s.body) == Lines(fm, s);
    assert Top(Id(fm, s), t) + (MetaLines(s.meta) + s.body) == Lines(fm, s.(title := t));
  }

  lemma HasHeaderPrefix(fm: Format, number: string, title: string)
    ensures HasPrefix(HeaderLine(fm.prefix + "-" + number, title), HeaderPrefix(fm.prefix))
  {
    assert HeaderLine(fm.prefix + "-" + number, title) == HeaderPrefix(fm.prefix) + (number + ": " + title);
  }

  lemma TitleOnTop(fm: Format, lines: seq<string>, id: string, title: string, t: string, rest: seq<string>)
    requires lines == Top(id, title) + rest
    requires TrimSpace(HeaderLine(id, title)) == HeaderLine(id, title)
    requires HasPrefix(HeaderLine(id, title), HeaderPrefix(fm.prefix))
    requires HeaderOf(fm.prefix, HeaderLine(id, title)) == Header(id, title)
    ensures RetitledLines(fm, lines, t) == Some(Top(id, t) + rest)
  {
    assert lines[0] == HeaderLine(id, title);
    assert TitleLine(fm, lines, 0) == 0;
    assert lines[0 := HeaderLine(id, t)] == Top(id, t) + rest;
  }

  // ---------------------------------------------------------------- the block as a map

  function MapOf(meta: seq<(string, string)>): map<string, string> {
    if meta == [] then map[] else MapOf(meta[..|meta| - 1])[meta[|meta| - 1].0 := meta[|meta| - 1].1]
  }

  lemma {:induction false} MapOfConcat(a: seq<(string, string)>, b: seq<(string, string)>)
    ensures MapOf(a + b) == MapOf(a) + MapOf(b)
  {
    if b == [] {
      assert a + b == a;
    } else {
      var n := |b| - 1;
      assert (a + b)[..|a| + n] == a + b[..n];
      MapOfConcat(a, b[..n]);
    }
  }

  lemma {:induction false} MapOfNames(meta: seq<(string, string)>, f: string)
    ensures f in MapOf(meta) <==> Names(meta, f)
  {
    if meta != [] {
      var n := |meta| - 1;
      MapOfNames(meta[..n], f);
      if Names(meta[..n], f) {
        var i :| 0 <= i < n && meta[..n][i].0 == f;
        assert meta[i].0 == f;
      }
      if Names(meta, f) && meta[n].0 != f {
        var i :| 0 <= i < |meta| && meta[i].0 == f;
        assert meta[..n][i].0 == f;
      }
    }
  }

  /** The maps of a block with and without a line for `f`. */
  lemma MapAround(a: seq<(string, string)>, f: string, v: string, b: seq<(string, string)>)
    requires !Names(a, f) && !Names(b, f)
    ensures MapOf(a + [(f, v)] + b) == MapOf(a + b)[f := v]
    ensures MapOf(a + b) == MapOf(a + [(f, v)] + b) - {f}
  {
    MapOfConcat(a, b);
    MapOfConcat(a + [(f, v)], b);
    assert (a + [(f, v)])[..|a|] == a;
    assert MapOf(a + [(f, v)]) == MapOf(a)[f := v];
    MapOfNames(a, f);
    MapOfNames(b, f);
    MergeAround(MapOf(a), MapOf(b), f, v);
  }

  lemma MergeAround(a: map<string, string>, b: map<string, string>, f: string, v: string)
    requires f !in a && f !in b
    ensures a[f := v] + b == (a + b)[f := v] && a + b == (a[f := v] + b) - {f}
  {
  }

  lemma InBlock(meta: seq<(string, string)>, f: string)
    ensures Names(meta, f) <==> IndexOf(meta, f) < |meta|
  {
    IndexOfIsFirst(meta, f);
    if Names(meta, f) {
      var i :| 0 <= i < |meta| && meta[i].0 == f;
    }
  }

  /** A valid block, cut at the line of `f`. */
  lemma CutAt(fm: Format, meta: seq<(string, string)>, i: nat)
    requires ValidMeta(fm, meta) && i < |meta|
    ensures meta == meta[..i] + [meta[i]] + meta[i + 1..]
    ensures !Names(meta[..i], meta[i].0) && !Names(meta[i + 1..], meta[i].0)
  {
  }

  lemma NamesConcat(a: seq<(string, string)>, b: seq<(string, string)>, f: string)
    ensures Names(a + b, f) <==> Names(a, f) || Names(b, f)
  {
    if Names(a, f) {
      var i :| 0 <= i < |a| && a[i].0 == f;
      assert (a + b)[i].0 == f;
    }
    if Names(b, f) {
      var i :| 0 <= i < |b| && b[i].0 == f;
      assert (a + b)[|a| + i].0 == f;
    }
  }

  lemma ValidAround(fm: Format, a: seq<(string, string)>, f: string, v: string, b: seq<(string, string)>)
    requires ValidMeta(fm, a + b) && !Names(a, f) && !Names(b, f) && f in fm.fields && Clean(v)
    ensures ValidMeta(fm, a + [(f, v)] + b)
  {
    var meta := a + [(f, v)] + b;
    NamesConcat(a, b, f);
    forall k | 0 <= k < |meta|
      ensures meta[k].0 in fm.fields && Clean(meta[k].1)
    {
      assert k != |a| ==> meta[k] == (a + b)[if k < |a| then k else k - 1];
    }
    forall i, j | 0 <= i < j < |meta|
      ensures meta[i].0 != meta[j].0
    {
      assert i != |a| ==> meta[i] == (a + b)[if i < |a| then i else i - 1];
      assert j != |a| ==> meta[j] == (a + b)[if j < |a| then j else j - 1];
    }
  }

  lemma ValidWithout(fm: Format, a: seq<(string, string)>, x: (string, string), b: seq<(string, string)>)
    requires ValidMeta(fm, a + [x] + b)
    ensures ValidMeta(fm, a + b)
  {
    var meta := a + [x] + b;
    assert forall k :: 0 <= k < |a + b| ==> (a + b)[k] == meta[if k < |a| then k else k + 1];
  }

  lemma SetMetaIsUpdate(fm: Format, meta: seq<(string, string)>, f: string, v: string)
    requires ValidMeta(fm, meta) && f in fm.fields && Clean(v)
    ensures ValidMeta(fm, SetMeta(meta, f, v)) && MapOf(SetMeta(meta, f, v)) == MapOf(meta)[f := v]
  {
    var i, b := IndexOf(meta, f), IndexOf(meta, "Branch");
    InBlock(meta, f);
    if Names(meta, f) {
      SetPresent(fm, meta, f, v, i);
    } else {
      SetAbsent(fm, meta, f, v, b);
    }
  }

  lemma SetPresent(fm: Format, meta: seq<(string, string)>, f: string, v: string, i: nat)
    requires ValidMeta(fm, meta) && f in fm.fields && Clean(v) && Names(meta, f) && i == IndexOf(meta, f)
    ensures i < |meta| && ValidMeta(fm, meta[i := (f, v)]) && MapOf(meta[i := (f, v)]) == MapOf(meta)[f := v]
  {
    IndexOfIsFirst(meta, f);
    CutAt(fm, meta, i);
    assert meta[i := (f, v)] == meta[..i] + [(f, v)] + meta[i + 1..];
    SetAround(fm, meta[..i], f, v, meta[i + 1..]);
    ValidWithout(fm, meta[..i], meta[i], meta[i + 1..]);
    MapAround(meta[..i], f, meta[i].1, meta[i + 1..]);
  }

  lemma SetAbsent(fm: Format, meta: seq<(string, string)>, f: string, v: string, b: nat)
    requires ValidMeta(fm, meta) && f in fm.fields && Clean(v) && !Names(meta, f) && b <= |meta|
    ensures var out := meta[..b] + [(f, v)] + meta[b..];
            ValidMeta(fm, out) && MapOf(out) == MapOf(meta)[f := v]
  {
    assert meta == meta[..b] + meta[b..];
    NamesConcat(meta[..b], meta[b..], f);
    SetAround(fm, meta[..b], f, v, meta[b..]);
  }

  lemma SetAround(fm: Format, a: seq<(string, string)>, f: string, v: string, b: seq<(string, string)>)
    requires !Names(a, f) && !Names(b, f) && f in fm.fields && Clean(v)
    ensures ValidMeta(fm, a + b) ==> ValidMeta(fm, a + [(f, v)] + b)
    ensures MapOf(a + [(f, v)] + b) == MapOf(a + b)[f := v]
  {
    if ValidMeta(fm, a + b) {
      ValidAround(fm, a, f, v, b);
    }
    MapAround(a, f, v, b);
  }

  lemma ClearMetaIsRemoval(fm: Format, meta: seq<(string, string)>, f: string)
    requires ValidMeta(fm, meta)
    ensures ValidMeta(fm, ClearMeta(meta, f)) && MapOf(ClearMeta(meta, f)) == MapOf(meta) - {f}
  {
    var i := IndexOf(meta, f);
    InBlock(meta, f);
    MapOfNames(meta, f);
    if Names(meta, f) {
      IndexOfIsFirst(meta, f);
      CutAt(fm, meta, i);
      ValidWithout(fm, meta[..i], meta[i], meta[i + 1..]);
      MapAround(meta[..i], f, meta[i].1, meta[i + 1..]);
    }
  }
}
