/** The metadata lines told by their text: their grammar, the window that is read, and where an
    edit writes (cli/task.go, cli/edit.go). */
module FieldLaws {
  import opened Wrappers
  import opened Text
  import opened Metadata

  // ---------------------------------------------------------------- a field's line

  /** A field's name is in bold, with the colon inside or behind; a list dash may stand in front. */
  predicate IsMark(mark: string, f: string) { mark == "**" + f + ":**" || mark == "**" + f + "**:" }

  predicate IsDash(dash: string) { dash == "" || dash == "- " }

  lemma StrippedDash(dash: string, x: string)
    requires IsDash(dash) && x != "" && x[0] != '-'
    ensures StripDash(dash + x) == x
  {
    if dash == "" {
      assert dash + x == x;
    } else {
      assert (dash + x)[2..] == x;
    }
  }

  lemma ExtractAfterMark(line: string, mark: string, f: string, rest: string)
    requires PlainName(f) && IsMark(mark, f) && line == mark + rest
    ensures Extract(line, f) == Some(TrimSpace(rest)) && line[0] == '*'
  {
    if mark == "**" + f + "**:" {
      assert line[2 + |f|] == '*' && ("**" + f + ":**")[2 + |f|] == ':';
    }
    assert line[|mark|..] == rest;
  }

  lemma FieldOfText(line: string, dash: string, x: string, f: string)
    requires IsDash(dash) && line == dash + x && x != "" && x[0] == '*'
    ensures FieldAt(line, f) == Extract(x, f)
  {
    StrippedDash(dash, x);
  }

  /** Each spelling of a field gives the text behind it, trimmed. */
  lemma FieldOfSpelling(f: string, dash: string, mark: string, rest: string)
    requires PlainName(f) && IsDash(dash) && IsMark(mark, f)
    ensures FieldAt(dash + (mark + rest), f) == Some(TrimSpace(rest))
  {
    var x := mark + rest;
    ExtractAfterMark(x, mark, f, rest);
    FieldOfText(dash + x, dash, x, f);
  }

  /** And nothing else is a line of the field. */
  lemma OnlySpellings(line: string, f: string) returns (dash: string, mark: string, rest: string)
    requires FieldAt(line, f).Some?
    ensures IsDash(dash) && IsMark(mark, f) && line == dash + (mark + rest)
  {
    dash := if "- " <= line then "- " else "";
    mark, rest := OnlyMarks(StripDash(line), f);
  }

  lemma OnlyMarks(x: string, f: string) returns (mark: string, rest: string)
    requires Extract(x, f).Some?
    ensures IsMark(mark, f) && x == mark + rest
  {
    mark := if "**" + f + ":**" <= x then "**" + f + ":**" else "**" + f + "**:";
    rest := x[|mark|..];
  }

  /** The editor looks for the same lines as the reader. */
  lemma HeldIff(line: string, f: string)
    ensures HasField(line, f) <==> FieldAt(line, f).Some?
  {
  }

  // ---------------------------------------------------------------- the title line

  /** A title line is "# ", the prefix, "-", digits, ":" and a title; without a title it is
      malformed. */
  lemma HeaderOfText(prefix: string, number: string, rest: string)
    requires IsNumber(number)
    ensures HeaderOf(prefix, "# " + prefix + "-" + number + ":" + rest)
            == if TrimSpace(rest) == "" then Malformed else Header(prefix + "-" + number, TrimSpace(rest))
  {
    var line, tail := "# " + prefix + "-" + number + ":" + rest, ":" + rest;
    AfterPrefix(prefix, line, number, tail);
    assert tail[1..] == rest;
  }

  lemma AfterPrefix(prefix: string, line: string, number: string, tail: string)
    requires (forall i :: 0 <= i < |number| ==> IsDigit(number[i])) && (tail == "" || !IsDigit(tail[0]))
    requires line == HeaderPrefix(prefix) + number + tail
    ensures HasPrefix(line, HeaderPrefix(prefix)) && line[|HeaderPrefix(prefix)|..] == number + tail
    ensures Digits(number + tail) == |number| && (number + tail)[|number|..] == tail
    ensures (number + tail)[..|number|] == number
  {
    assert line == HeaderPrefix(prefix) + (number + tail);
    DigitsOfNumber(number, tail);
  }

  /** Digits that no colon follows are malformed. */
  lemma HeaderWithoutColon(prefix: string, number: string, tail: string)
    requires IsNumber(number) && (tail == "" || (!IsDigit(tail[0]) && tail[0] != ':'))
    ensures HeaderOf(prefix, "# " + prefix + "-" + number + tail) == Malformed
  {
    AfterPrefix(prefix, "# " + prefix + "-" + number + tail, number, tail);
  }

  /** Any other line is no title line. */
  lemma NoHeader(prefix: string, line: string)
    requires var p := "# " + prefix + "-"; !(p <= line && |p| < |line| && IsDigit(line[|p|]))
    ensures HeaderOf(prefix, line) == NotHeader
  {
  }

  // ---------------------------------------------------------------- what is read

  /** What each line is as a title line. */
  function HeadersOf(fm: Format, lines: seq<string>): (hs: seq<Header>)
    ensures |hs| == |lines|
  {
    seq(|lines|, i requires 0 <= i < |lines| => HeaderOf(fm.prefix, TrimReturn(lines[i])))
  }

  /** The last title line among the first `k` lines. */
  predicate LastTitle(hs: seq<Header>, k: nat, id: string, title: string)
    requires k <= |hs|
  {
    exists i :: 0 <= i < k && hs[i] == Header(id, title) && forall j :: i < j < k ==> !hs[j].Header?
  }

  predicate NoTitle(hs: seq<Header>, k: nat)
    requires k <= |hs|
  {
    forall i :: 0 <= i < k ==> !hs[i].Header?
  }

  predicate NoneBad(hs: seq<Header>, k: nat)
    requires k <= |hs|
  {
    forall i :: 0 <= i < k ==> !hs[i].Malformed?
  }

  /** What each line gives as a field. */
  function ValuesOf(fm: Format, lines: seq<string>): (vs: seq<map<string, string>>)
    ensures |vs| == |lines|
  {
    seq(|lines|, i requires 0 <= i < |lines| => ValuesIn(fm, TrimReturn(lines[i])))
  }

  function ValuesIn(fm: Format, line: string): map<string, string> {
    map f | f in fm.fields && FieldAt(line, f).Some? :: FieldAt(line, f).value
  }

  /** The last line among the first `k` that gives the field gives that value. */
  predicate LastValue(vs: seq<map<string, string>>, k: nat, f: string, v: string)
    requires k <= |vs|
  {
    exists i :: 0 <= i < k && Stores(vs[i], f, v) && forall j :: i < j < k ==> f !in vs[j]
  }

  predicate Stores(fields: map<string, string>, f: string, v: string) { f in fields && fields[f] == v }

  /** The map of the last values in the first `k` lines. */
  ghost predicate LastValues(vs: seq<map<string, string>>, k: nat, fields: map<string, string>)
    requires k <= |vs|
  {
    forall f, v :: Stores(fields, f, v) <==> LastValue(vs, k, f, v)
  }

  /** The lines as title lines and as field lines. */
  datatype Page = Page(hs: seq<Header>, vs: seq<map<string, string>>)

  function PageOf(fm: Format, lines: seq<string>): Page { Page(HeadersOf(fm, lines), ValuesOf(fm, lines)) }

  /** What the reader has made of the first `k` lines. */
  ghost predicate ReadSoFar(page: Page, k: nat, p: Parse)
    requires k <= |page.hs| == |page.vs|
  {
    match p
    case Reading(t, found) =>
      && NoneBad(page.hs, k) && LastValues(page.vs, k, t.fields)
      && (if found then LastTitle(page.hs, k, t.id, t.title) else NoTitle(page.hs, k))
    case MalformedHeader(m) => 0 < m <= k && NoneBad(page.hs, m - 1) && page.hs[m - 1].Malformed?
    case _ => false
  }

  lemma FieldSeenIff(fm: Format, fields: seq<string>, line: string, f: string, v: string)
    requires forall g :: g in fields ==> PlainName(g)
    ensures FieldIn(fields, line) == Some((f, v)) <==> f in fields && FieldAt(line, f) == Some(v)
  {
    if fields != [] {
      FieldSeenIff(fm, fields[1..], line, f, v);
      assert fields == [fields[0]] + fields[1..];
      if FieldAt(line, fields[0]).Some? && f in fields && FieldAt(line, f).Some? {
        OneFieldPerLine(StripDash(line), f, fields[0]);
      }
    }
  }

  /** A title line holds no field. */
  lemma TitleHoldsNoField(prefix: string, line: string, f: string)
    requires "# " <= line
    ensures FieldAt(line, f) == None
  {
    assert line[0] == '#';
    StrippedDash("", line);
    assert "" + line == line;
  }

  /** What is seen in a line is its title line or else its one field. */
  predicate IsSeen(h: Header, m: map<string, string>, x: Seen) {
    match x
    case TitleSeen(id, title) => h == Header(id, title) && m == map[]
    case BadTitle => h == Malformed && m == map[]
    case FieldSeen(f, v) => h == NotHeader && m == map[f := v]
    case Nothing => h == NotHeader && m == map[]
  }

  lemma SeeIff(fm: Format, line: string, f: string, v: string)
    requires Proper(fm)
    ensures See(fm, line) == FieldSeen(f, v) <==> Stores(ValuesIn(fm, TrimReturn(line)), f, v)
  {
    var l := TrimReturn(line);
    FieldSeenIff(fm, fm.fields, l, f, v);
    if !HeaderOf(fm.prefix, l).NotHeader? {
      assert l[0] == '#' && l[1] == ' ';
      assert "# " <= l;
      TitleHoldsNoField(fm.prefix, l, f);
    }
  }

  lemma SeeTitle(fm: Format, line: string, h: Header)
    requires h == HeaderOf(fm.prefix, TrimReturn(line))
    ensures match See(fm, line)
            case TitleSeen(id, title) => h == Header(id, title)
            case BadTitle => h == Malformed
            case _ => h == NotHeader
  {
  }

  lemma OneOrNone(m: map<string, string>, x: Seen)
    requires forall f, v :: x == FieldSeen(f, v) <==> Stores(m, f, v)
    ensures m == match x case FieldSeen(f, v) => map[f := v] case _ => map[]
  {
    forall f | f in m
      ensures x == FieldSeen(f, m[f])
    {
      assert Stores(m, f, m[f]);
    }
    if x.FieldSeen? {
      assert Stores(m, x.field, x.value);
    }
  }

  lemma LineIsSeen(fm: Format, line: string, h: Header, m: map<string, string>, x: Seen)
    requires Proper(fm) && h == HeaderOf(fm.prefix, TrimReturn(line)) && m == ValuesIn(fm, TrimReturn(line))
    requires x == See(fm, line)
    ensures IsSeen(h, m, x)
  {
    forall f, v
      ensures x == FieldSeen(f, v) <==> Stores(m, f, v)
    {
      SeeIff(fm, line, f, v);
    }
    OneOrNone(m, x);
    SeeTitle(fm, line, h);
  }

  lemma OneMoreTitle(hs: seq<Header>, k: nat, id: string, title: string)
    requires k < |hs|
    ensures hs[k] == Header(id, title) ==> LastTitle(hs, k + 1, id, title)
    ensures !hs[k].Header? && LastTitle(hs, k, id, title) ==> LastTitle(hs, k + 1, id, title)
    ensures !hs[k].Header? && NoTitle(hs, k) ==> NoTitle(hs, k + 1)
  {
  }

  lemma OneMoreField(vs: seq<map<string, string>>, k: nat, was: map<string, string>, fields: map<string, string>)
    requires k < |vs| && LastValues(vs, k, was) && fields == was + vs[k]
    ensures LastValues(vs, k + 1, fields)
  {
    forall f, v
      ensures Stores(fields, f, v) <==> LastValue(vs, k + 1, f, v)
    {
      assert f in vs[k] ==> (LastValue(vs, k + 1, f, v) <==> Stores(vs[k], f, v));
      assert f !in vs[k] ==> (LastValue(vs, k + 1, f, v) <==> LastValue(vs, k, f, v));
    }
  }

  lemma OneMoreLine(page: Page, k: nat, p: Parse, x: Seen)
    requires k < |page.hs| == |page.vs| && ReadSoFar(page, k, p) && IsSeen(page.hs[k], page.vs[k], x)
    ensures ReadSoFar(page, k + 1, Take(p, x, k + 1))
  {
    if p.Reading? && !x.BadTitle? {
      var t := Take(p, x, k + 1).task;
      OneMoreField(page.vs, k, p.task.fields, t.fields);
      OneMoreTitle(page.hs, k, t.id, t.title);
    }
  }

  lemma OneMoreTaken(p: Parse, xs: seq<Seen>, k: nat)
    requires k < |xs|
    ensures TakeAll(p, xs, 0, k + 1) == Take(TakeAll(p, xs, 0, k), xs[k], k + 1)
  {
  }

  ghost predicate AllSeen(page: Page, xs: seq<Seen>) {
    |page.hs| == |page.vs| == |xs| && forall i :: 0 <= i < |xs| ==> IsSeen(page.hs[i], page.vs[i], xs[i])
  }

  lemma {:induction false} ReadUpTo(page: Page, xs: seq<Seen>, k: nat, p: Parse)
    requires AllSeen(page, xs) && k <= |xs| && p == TakeAll(Unread(), xs, 0, k)
    ensures ReadSoFar(page, k, p)
  {
    if k > 0 {
      var before := TakeAll(Unread(), xs, 0, k - 1);
      ReadUpTo(page, xs, k - 1, before);
      OneMoreTaken(Unread(), xs, k - 1);
      OneMoreLine(page, k - 1, before, xs[k - 1]);
    }
  }

  lemma LinesAreSeen(fm: Format, lines: seq<string>)
    requires Proper(fm)
    ensures AllSeen(PageOf(fm, lines), SeenIn(fm, lines))
  {
    var page, xs := PageOf(fm, lines), SeenIn(fm, lines);
    forall i | 0 <= i < |lines|
      ensures IsSeen(page.hs[i], page.vs[i], xs[i])
    {
      LineIsSeen(fm, lines[i], page.hs[i], page.vs[i], xs[i]);
    }
  }

  /** parseTaskFile looks at the first 28 lines only. It fails at the first malformed title line
      among them, and without a title line; otherwise the last title line counts, and for each
      field the last line that gives it. */
  lemma ReadsTheLastValues(fm: Format, lines: seq<string>, n: nat, page: Page)
    requires Proper(fm) && n == (if |lines| < 28 then |lines| else 28) && page == PageOf(fm, lines)
    ensures match ParseTask(fm, lines)
            case Parsed(t) =>
              NoneBad(page.hs, n) && LastTitle(page.hs, n, t.id, t.title) && LastValues(page.vs, n, t.fields)
            case MissingHeader => NoneBad(page.hs, n) && NoTitle(page.hs, n)
            case MalformedHeader(m) => 0 < m <= n && NoneBad(page.hs, m - 1) && page.hs[m - 1].Malformed?
            case Reading(_, _) => false
  {
    LinesAreSeen(fm, lines);
    ReadUpTo(page, SeenIn(fm, lines), n, TakeAll(Unread(), SeenIn(fm, lines), 0, n));
    Finished(fm, lines, n);
  }

  lemma Finished(fm: Format, lines: seq<string>, n: nat)
    requires n == if |lines| < 28 then |lines| else 28
    ensures ParseTask(fm, lines) == Finish(TakeAll(Unread(), SeenIn(fm, lines), 0, n))
  {
  }

  // ---------------------------------------------------------------- where an edit writes

  lemma {:induction false} FirstOf(lines: seq<string>, i: nat, end: nat, stop: string -> bool)
    requires i <= end <= |lines|
    ensures var r := FirstWhere(lines, i, end, stop);
            (r < end ==> stop(lines[r])) && forall k :: i <= k < r ==> !stop(lines[k])
    decreases end - i
  {
    if i < end && !stop(lines[i]) {
      FirstOf(lines, i + 1, end, stop);
    }
  }

  /** The block begins below a first line that is a heading, at the first line that is not blank,
      and ends at the first that is blank or a section's heading; only 28 lines are looked at. */
  lemma RangeIs(lines: seq<string>, n: nat, top: nat)
    requires n == if |lines| < 28 then |lines| else 28
    requires top == if lines != [] && "# " <= TrimSpace(lines[0]) then 1 else 0
    ensures top <= BlockStart(lines) <= BlockEnd(lines) <= n
    ensures forall k :: top <= k < BlockStart(lines) ==> TrimSpace(lines[k]) == ""
    ensures BlockStart(lines) < n ==> TrimSpace(lines[BlockStart(lines)]) != ""
    ensures forall k :: BlockStart(lines) <= k < BlockEnd(lines) ==>
              TrimSpace(lines[k]) != "" && !("## " <= TrimSpace(lines[k]))
    ensures BlockEnd(lines) < n ==>
              TrimSpace(lines[BlockEnd(lines)]) == "" || "## " <= TrimSpace(lines[BlockEnd(lines)])
  {
    FirstOf(lines, top, n, NotBlank);
    FirstOf(lines, BlockStart(lines), n, EndsMetadata);
  }

  /** No line from `i` on, before `end`, holds the field. */
  predicate Without(lines: seq<string>, i: nat, end: nat, f: string)
    requires i <= end <= |lines|
  {
    forall k :: i <= k < end ==> !HasField(lines[k], f)
  }

  lemma LineOfIs(lines: seq<string>, start: nat, i: nat, end: nat, f: string)
    requires start <= i <= end <= |lines| && Without(lines, start, i, f) && (i < end ==> HasField(lines[i], f))
    ensures LineOf(lines, start, end, f) == i
  {
    FirstOf(lines, start, end, Holds(f));
    var r := LineOf(lines, start, end, f);
    assert r < end ==> HasField(lines[r], f);
  }

  /** setField rewrites the first line of the block that holds the field; without one it writes a
      line in front of the first Branch line of the block, or at the block's end. */
  lemma SetLineIs(lines: seq<string>, f: string, v: string, start: nat, i: nat, end: nat)
    requires start == BlockStart(lines) <= i <= BlockEnd(lines) == end
    ensures i < end && HasField(lines[i], f) && Without(lines, start, i, f) ==>
              SetLine(lines, f, v) == lines[i := "**" + f + ":** " + v]
    ensures Without(lines, start, end, f) && Without(lines, start, i, "Branch")
            && (i < end ==> HasField(lines[i], "Branch")) ==>
              SetLine(lines, f, v) == lines[..i] + ["**" + f + ":** " + v] + lines[i..]
  {
    if i < end && HasField(lines[i], f) && Without(lines, start, i, f) {
      LineOfIs(lines, start, i, end, f);
    }
    if Without(lines, start, end, f)
      && Without(lines, start, i, "Branch") && (i < end ==> HasField(lines[i], "Branch")) {
      LineOfIs(lines, start, end, end, f);
      LineOfIs(lines, start, i, end, "Branch");
    }
  }

  /** clearField drops the first line of the block that holds the field, if there is one. */
  lemma ClearLineIs(lines: seq<string>, f: string, start: nat, i: nat, end: nat)
    requires start == BlockStart(lines) <= i <= BlockEnd(lines) == end
    requires Without(lines, start, i, f) && (i < end ==> HasField(lines[i], f))
    ensures ClearLine(lines, f) == if i < end then lines[..i] + lines[i + 1..] else lines
  {
    LineOfIs(lines, start, i, end, f);
    ClearedAt(lines, f, start, i, end);
  }

  lemma ClearedAt(lines: seq<string>, f: string, start: nat, i: nat, end: nat)
    requires start == BlockStart(lines) && end == BlockEnd(lines) && i == LineOf(lines, start, end, f)
    ensures ClearLine(lines, f) == if i < end then lines[..i] + lines[i + 1..] else lines
  {
  }

  /** replaceTaskTitle rewrites the first of the 28 lines that starts like a title line, keeping its
      ID; it fails when there is none or that one is no title line or is indented. */
  lemma RetitledIs(fm: Format, lines: seq<string>, title: string, i: nat, n: nat)
    requires n == (if |lines| < 28 then |lines| else 28) && i <= n
    requires forall k :: 0 <= k < i ==> !("# " + fm.prefix + "-" <= TrimSpace(lines[k]))
    requires i < n ==> "# " + fm.prefix + "-" <= TrimSpace(lines[i])
    ensures RetitledLines(fm, lines, title)
            == if i < n && HeaderOf(fm.prefix, lines[i]).Header?
               then Some(lines[i := "# " + HeaderOf(fm.prefix, lines[i]).id + ": " + title]) else None
  {
    FirstTitleLine(fm, lines, 0, i);
  }

  lemma {:induction false} FirstTitleLine(fm: Format, lines: seq<string>, k: nat, i: nat)
    requires k <= i <= Window(lines)
    requires forall j :: k <= j < i ==> !("# " + fm.prefix + "-" <= TrimSpace(lines[j]))
    requires i < Window(lines) ==> "# " + fm.prefix + "-" <= TrimSpace(lines[i])
    ensures TitleLine(fm, lines, k) == i
    decreases i - k
  {
    if k < i {
      FirstTitleLine(fm, lines, k + 1, i);
    }
  }
}
