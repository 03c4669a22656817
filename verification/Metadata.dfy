/** A task's metadata, `**Field:** value` lines between title and body: parseTaskFile
    (cli/task.go), and setField, clearField and replaceTaskTitle (cli/edit.go). */
module Metadata {
  import opened Wrappers
  import opened Text

  const MAX_METADATA_LINES := 28

  /** The board's ID prefix and the field names, in the order parseTaskFile tries them. */
  datatype Format = Format(prefix: string, fields: seq<string>)

  predicate PlainName(name: string) { ':' !in name && '*' !in name }

  ghost predicate Proper(fm: Format) {
    && (forall f :: f in fm.fields ==> PlainName(f))
    && 2 + |fm.fields| <= MAX_METADATA_LINES
  }

  /** A value as it is stored: one line, without surrounding white space. */
  predicate Clean(v: string) { '\n' !in v && (v == "" || (!IsSpace(v[0]) && !IsSpace(v[|v| - 1]))) }

  // ---------------------------------------------------------------- one line

  /** extractFieldAny: both "**Field:** value" and "**Field**: value". */
  function Extract(line: string, name: string): Option<string> {
    var inside, outside := "**" + name + ":**", "**" + name + "**:";
    if HasPrefix(line, inside) then Some(TrimSpace(line[|inside|..]))
    else if HasPrefix(line, outside) then Some(TrimSpace(line[|outside|..]))
    else None
  }

  function StripDash(line: string): string { if HasPrefix(line, "- ") then line[2..] else line }

  function FieldAt(line: string, name: string): Option<string> { Extract(StripDash(line), name) }

  /** The line holds the field, whatever its value. */
  predicate HasField(line: string, name: string) {
    HasPrefix(StripDash(line), "**" + name + ":**") || HasPrefix(StripDash(line), "**" + name + "**:")
  }

  function FieldLine(f: string, v: string): string { "**" + f + ":** " + v }

  lemma TrimOfClean(v: string)
    requires Clean(v)
    ensures TrimSpace(v) == v && TrimSpace(" " + v) == v
  {
    if v == "" {
      assert TrimRightSpace(" ") == TrimRightSpace("");
    } else {
      assert (" " + v)[1..] == v;
    }
  }

  lemma NameRuns(line: string, f: string)
    requires PlainName(f) && 2 + |f| <= |line| && line[2..2 + |f|] == f
    ensures forall k :: 2 <= k < 2 + |f| ==> line[k] !in {':', '*'}
  {
    forall k | 2 <= k < 2 + |f|
      ensures line[k] !in {':', '*'}
    {
      assert line[k] == f[k - 2];
    }
  }

  /** A line holds at most one field: the name runs up to the first ':' or '*'. */
  lemma OneFieldPerLine(line: string, f: string, g: string)
    requires PlainName(f) && PlainName(g) && Extract(line, f).Some? && Extract(line, g).Some?
    ensures f == g
  {
    assert line[2..2 + |f|] == f && line[2..2 + |g|] == g;
    NameRuns(line, f);
    NameRuns(line, g);
    assert line[2 + |f|] in {':', '*'} && line[2 + |g|] in {':', '*'};
  }

  lemma FieldOfFieldLine(f: string, g: string, v: string)
    requires PlainName(f) && PlainName(g) && Clean(v)
    ensures FieldAt(FieldLine(f, v), g) == if f == g then Some(v) else None
  {
    var line := FieldLine(f, v);
    assert line[0] == '*' && StripDash(line) == line;
    var inside := "**" + f + ":**";
    assert line == inside + (" " + v);
    TrimOfClean(v);
    assert line[|inside|..] == " " + v;
    assert Extract(line, f) == Some(v);
    if Extract(line, g).Some? {
      OneFieldPerLine(line, f, g);
    }
  }

  // ---------------------------------------------------------------- the header line

  datatype Header = NotHeader | Malformed | Header(id: string, title: string)

  predicate IsDigit(c: char) { '0' <= c <= '9' }

  /** How many digits `s` starts with. */
  function Digits(s: string): (n: nat)
    ensures n <= |s|
  {
    if s != "" && IsDigit(s[0]) then Digits(s[1..]) + 1 else 0
  }

  function HeaderPrefix(prefix: string): string { "# " + prefix + "-" }

  /** What parseTaskHeader makes of a line. */
  function HeaderOf(prefix: string, line: string): Header {
    if !HasPrefix(line, HeaderPrefix(prefix)) then NotHeader
    else
      var rest := line[|HeaderPrefix(prefix)|..];
      var n := Digits(rest);
      var tail := rest[n..];
      if n == 0 then NotHeader
      else if !HasPrefix(tail, ":") then Malformed
      else if TrimSpace(tail[1..]) == "" then Malformed
      else Header(prefix + "-" + rest[..n], TrimSpace(tail[1..]))
  }

  method ParseTaskHeader(prefix: string, line: string) returns (id: string, title: string, malformed: bool)
    ensures HeaderOf(prefix, line) == if malformed then Malformed else if id == "" then NotHeader else Header(id, title)
  {
    if !HasPrefix(line, HeaderPrefix(prefix)) {
      return "", "", false;
    }
    var rest := line[|HeaderPrefix(prefix)|..];
    var digitCount := 0;
    assert rest[0..] == rest;
    while digitCount < |rest| && IsDigit(rest[digitCount])
      invariant digitCount <= |rest| && Digits(rest) == digitCount + Digits(rest[digitCount..])
    {
      assert rest[digitCount..][1..] == rest[digitCount + 1..];
      digitCount := digitCount + 1;
    }
    if digitCount == 0 {
      return "", "", false;
    }
    id := prefix + "-" + rest[..digitCount];
    var tail := rest[digitCount..];
    if !HasPrefix(tail, ":") {
      return "", "", true;
    }
    title := TrimSpace(tail[1..]);
    if title == "" {
      return "", "", true;
    }
    malformed := false;
  }

  predicate IsNumber(s: string) { s != "" && forall i :: 0 <= i < |s| ==> IsDigit(s[i]) }

  function HeaderLine(id: string, title: string): string { "# " + id + ": " + title }

  lemma {:induction false} DigitsOfNumber(n: string, rest: string)
    requires (forall i :: 0 <= i < |n| ==> IsDigit(n[i])) && (rest == "" || !IsDigit(rest[0]))
    ensures Digits(n + rest) == |n|
  {
    if n == "" {
      assert n + rest == rest;
    } else {
      assert (n + rest)[1..] == n[1..] + rest;
      DigitsOfNumber(n[1..], rest);
    }
  }

  /** Title lines read back as they were written. */
  lemma HeaderOfHeaderLine(prefix: string, number: string, title: string)
    requires IsNumber(number) && Clean(title) && title != ""
    ensures HeaderOf(prefix, HeaderLine(prefix + "-" + number, title)) == Header(prefix + "-" + number, title)
  {
    var line, tail := HeaderLine(prefix + "-" + number, title), ": " + title;
    assert line == HeaderPrefix(prefix) + (number + tail);
    assert line[|HeaderPrefix(prefix)|..] == number + tail;
    DigitsOfNumber(number, tail);
    assert (number + tail)[|number|..] == tail && (number + tail)[..|number|] == number;
    assert tail[1..] == " " + title;
    TrimOfClean(title);
  }

  // ---------------------------------------------------------------- parseTaskFile

  datatype Task = Task(id: string, title: string, fields: map<string, string>)

  /** The result, or the parser's state between lines. */
  datatype Parse =
    | Reading(task: Task, foundHeader: bool)
    | Parsed(task: Task)
    | MalformedHeader(line: nat)
    | MissingHeader

  /** The first of `fields` that the line holds, with its value. */
  function FieldIn(fields: seq<string>, line: string): Option<(string, string)> {
    if fields == [] then None
    else
      var v := FieldAt(line, fields[0]);
      if v.Some? then Some((fields[0], v.value)) else FieldIn(fields[1..], line)
  }

  /** What parseTaskFile sees in a line: a title line, one that only looks like one, a field, or
      nothing. */
  datatype Seen = TitleSeen(id: string, title: string) | BadTitle | FieldSeen(field: string, value: string) | Nothing

  function See(fm: Format, line: string): Seen {
    match HeaderOf(fm.prefix, TrimReturn(line))
    case Malformed => BadTitle
    case Header(id, title) => TitleSeen(id, title)
    case NotHeader =>
      var f := FieldIn(fm.fields, TrimReturn(line));
      if f.Some? then FieldSeen(f.value.0, f.value.1) else Nothing
  }

  function SeenIn(fm: Format, lines: seq<string>): (xs: seq<Seen>)
    ensures |xs| == |lines|
  {
    seq(|lines|, i requires 0 <= i < |lines| => See(fm, lines[i]))
  }

  function Take(p: Parse, x: Seen, lineNum: nat): Parse {
    if !p.Reading? then p
    else
      match x
      case TitleSeen(id, title) => Reading(p.task.(id := id, title := title), true)
      case BadTitle => MalformedHeader(lineNum)
      case FieldSeen(f, v) => p.(task := p.task.(fields := p.task.fields[f := v]))
      case Nothing => p
  }

  /** The state after the first `k` lines below line `base`. */
  function TakeAll(p: Parse, xs: seq<Seen>, base: nat, k: nat): Parse
    requires k <= |xs|
  {
    if k == 0 then p else Take(TakeAll(p, xs, base, k - 1), xs[k - 1], base + k)
  }

  function Unread(): Parse { Reading(Task("", "", map[]), false) }

  function Window(lines: seq<string>): (n: nat)
    ensures n <= |lines|
  {
    if |lines| < MAX_METADATA_LINES then |lines| else MAX_METADATA_LINES
  }

  function Finish(p: Parse): Parse {
    if p.Reading? then if p.foundHeader then Parsed(p.task) else MissingHeader else p
  }

  function ParseTask(fm: Format, lines: seq<string>): Parse {
    Finish(TakeAll(Unread(), SeenIn(fm, lines), 0, Window(lines)))
  }

  lemma SeenTitle(fm: Format, raw: string, id: string, title: string)
    requires HeaderOf(fm.prefix, TrimReturn(raw)) == Header(id, title)
    ensures See(fm, raw) == TitleSeen(id, title)
  {
  }

  predicate Sees(fm: Format, lines: seq<string>, xs: seq<Seen>) {
    |xs| == |lines| && forall i {:trigger See(fm, lines[i])} :: 0 <= i < |lines| ==> xs[i] == See(fm, lines[i])
  }

  lemma WhatIsSeen(fm: Format, lines: seq<string>) returns (xs: seq<Seen>)
    ensures Sees(fm, lines, xs) && ParseTask(fm, lines) == Finish(TakeAll(Unread(), xs, 0, Window(lines)))
  {
    xs := SeenIn(fm, lines);
  }

  method SeeLine(fm: Format, lines: seq<string>, i: nat, ghost xs: seq<Seen>) returns (seen: Seen)
    requires i < |lines| && Sees(fm, lines, xs)
    ensures seen == xs[i]
  {
    var line := TrimReturn(lines[i]);
    assert xs[i] == See(fm, lines[i]);
    var id, title, malformed := ParseTaskHeader(fm.prefix, line);
    if malformed {
      return BadTitle;
    }
    if id != "" {
      return TitleSeen(id, title);
    }
    var field := FieldIn(fm.fields, line);
    seen := if field.Some? then FieldSeen(field.value.0, field.value.1) else Nothing;
  }

  method ParseTaskFile(fm: Format, lines: seq<string>) returns (result: Parse)
    ensures result == ParseTask(fm, lines)
  {
    ghost var xs := WhatIsSeen(fm, lines);
    result := ReadWindow(fm, lines, xs);
  }

  /** The scanner loop. */
  method ReadWindow(fm: Format, lines: seq<string>, ghost xs: seq<Seen>) returns (result: Parse)
    requires Sees(fm, lines, xs)
    ensures result == Finish(TakeAll(Unread(), xs, 0, Window(lines)))
  {
    var task := Task("", "", map[]);
    var foundHeader := false;
    var lineNum := 0;
    while lineNum < |lines| && lineNum < MAX_METADATA_LINES
      invariant lineNum <= Window(lines)
      invariant TakeAll(Unread(), xs, 0, lineNum) == Reading(task, foundHeader)
    {
      var seen := SeeLine(fm, lines, lineNum, xs);
      lineNum := lineNum + 1;
      match seen
      case BadTitle =>
        MalformedStays(Unread(), xs, lineNum, Window(lines));
        return MalformedHeader(lineNum);
      case TitleSeen(id, title) =>
        task := task.(id := id, title := title);
        foundHeader := true;
      case FieldSeen(field, value) =>
        task := task.(fields := task.fields[field := value]);
      case Nothing =>
    }
    if !foundHeader {
      return MissingHeader;
    }
    result := Parsed(task);
  }

  lemma {:induction false} MalformedStays(p: Parse, xs: seq<Seen>, m: nat, n: nat)
    requires m <= n <= |xs| && TakeAll(p, xs, 0, m).MalformedHeader?
    ensures TakeAll(p, xs, 0, n) == TakeAll(p, xs, 0, m)
    decreases n
  {
    if m < n {
      MalformedStays(p, xs, m, n - 1);
    }
  }

  // ---------------------------------------------------------------- setField, clearField, replaceTaskTitle

  /** The first line from `i` on, before `end`, that `stop` picks; `end` if it picks none. */
  function FirstWhere(lines: seq<string>, i: nat, end: nat, stop: string -> bool): (r: nat)
    requires i <= end <= |lines|
    ensures i <= r <= end
    decreases end - i
  {
    if i < end && !stop(lines[i]) then FirstWhere(lines, i + 1, end, stop) else i
  }

  predicate NotBlank(line: string) { TrimSpace(line) != "" }

  predicate EndsMetadata(line: string) { TrimSpace(line) == "" || HasPrefix(TrimSpace(line), "## ") }

  function BlockStart(lines: seq<string>): (r: nat)
    ensures r <= Window(lines)
  {
    var top := if 0 < Window(lines) && HasPrefix(TrimSpace(lines[0]), "# ") then 1 else 0;
    FirstWhere(lines, top, Window(lines), NotBlank)
  }

  function BlockEnd(lines: seq<string>): (r: nat)
    ensures BlockStart(lines) <= r <= |lines|
  {
    FirstWhere(lines, BlockStart(lines), Window(lines), EndsMetadata)
  }

  method MetadataRange(lines: seq<string>) returns (start: nat, end: nat)
    ensures start == BlockStart(lines) && end == BlockEnd(lines)
  {
    var limit: nat := |lines|;
    if limit > MAX_METADATA_LINES {
      limit := MAX_METADATA_LINES;
    }
    start := 0;
    if start < limit && HasPrefix(TrimSpace(lines[start]), "# ") {
      start := start + 1;
    }
    while start < limit && TrimSpace(lines[start]) == ""
      invariant start <= limit && FirstWhere(lines, start, limit, NotBlank) == BlockStart(lines)
    {
      start := start + 1;
    }
    end := start;
    while end < limit
      invariant start <= end <= limit && FirstWhere(lines, end, limit, EndsMetadata) == BlockEnd(lines)
    {
      var line := TrimSpace(lines[end]);
      if line == "" || HasPrefix(line, "## ") {
        break;
      }
      end := end + 1;
    }
  }

  function Holds(field: string): string -> bool { (line: string) => HasField(line, field) }

  /** The first line from `i` on, before `end`, that holds `field`; `end` if none does. */
  function LineOf(lines: seq<string>, i: nat, end: nat, field: string): (r: nat)
    requires i <= end <= |lines|
    ensures i <= r <= end
  {
    FirstWhere(lines, i, end, Holds(field))
  }

  function InsertLine(lines: seq<string>, idx: nat, line: string): seq<string>
    requires idx <= |lines|
  {
    lines[..idx] + [line] + lines[idx..]
  }

  function SetLine(lines: seq<string>, field: string, value: string): seq<string> {
    var start, end := BlockStart(lines), BlockEnd(lines);
    var i := LineOf(lines, start, end, field);
    if i < end then lines[i := FieldLine(field, value)]
    else InsertLine(lines, LineOf(lines, start, end, "Branch"), FieldLine(field, value))
  }

  /** The loop with which both edits look for a line. */
  method FindField(lines: seq<string>, start: nat, end: nat, field: string) returns (r: nat)
    requires start <= end <= |lines|
    ensures r == LineOf(lines, start, end, field)
  {
    for i := start to end
      invariant LineOf(lines, start, end, field) == LineOf(lines, i, end, field)
    {
      if HasField(lines[i], field) {
        return i;
      }
    }
    r := end;
  }

  method SetField(lines: seq<string>, field: string, value: string) returns (out: seq<string>)
    ensures out == SetLine(lines, field, value)
  {
    var start, end := MetadataRange(lines);
    var i := FindField(lines, start, end, field);
    if i < end {
      return lines[i := FieldLine(field, value)];
    }
    i := FindField(lines, start, end, "Branch");
    if i < end {
      return InsertLine(lines, i, FieldLine(field, value));
    }
    out := InsertLine(lines, end, FieldLine(field, value));
  }

  function ClearLine(lines: seq<string>, field: string): seq<string> {
    var i := LineOf(lines, BlockStart(lines), BlockEnd(lines), field);
    if i < BlockEnd(lines) then lines[..i] + lines[i + 1..] else lines
  }

  method ClearField(lines: seq<string>, field: string) returns (out: seq<string>)
    ensures out == ClearLine(lines, field)
  {
    var start, end := MetadataRange(lines);
    var i := FindField(lines, start, end, field);
    out := if i < end then lines[..i] + lines[i + 1..] else lines;
  }

  function TitleLine(fm: Format, lines: seq<string>, i: nat): (r: nat)
    requires i <= Window(lines)
    ensures i <= r <= Window(lines)
    decreases Window(lines) - i
  {
    if i < Window(lines) && !HasPrefix(TrimSpace(lines[i]), HeaderPrefix(fm.prefix)) then TitleLine(fm, lines, i + 1)
    else i
  }

  /** The new lines, or nothing when there is no title line or it is malformed. */
  function RetitledLines(fm: Format, lines: seq<string>, title: string): Option<seq<string>> {
    var i := TitleLine(fm, lines, 0);
    if i == Window(lines) then None
    else
      match HeaderOf(fm.prefix, lines[i])
      case Header(id, _) => Some(lines[i := HeaderLine(id, title)])
      case _ => None
  }

  method ReplaceTaskTitle(fm: Format, lines: seq<string>,
                          newTitle: string) returns (out: Option<seq<string>>, prev: string)
    ensures out == RetitledLines(fm, lines, newTitle)
    ensures out.Some? ==> HeaderOf(fm.prefix, lines[TitleLine(fm, lines, 0)]).title == prev
  {
    var headerIdx := 0;
    while headerIdx < |lines| && headerIdx < MAX_METADATA_LINES
      && !HasPrefix(TrimSpace(lines[headerIdx]), HeaderPrefix(fm.prefix))
      invariant headerIdx <= Window(lines) && TitleLine(fm, lines, headerIdx) == TitleLine(fm, lines, 0)
    {
      headerIdx := headerIdx + 1;
    }
    if headerIdx == |lines| || headerIdx == MAX_METADATA_LINES {
      return None, "";
    }
    var id, title, malformed := ParseTaskHeader(fm.prefix, lines[headerIdx]);
    if malformed || id == "" {
      return None, "";
    }
    out, prev := Some(lines[headerIdx := HeaderLine(id, newTitle)]), title;
  }
}
