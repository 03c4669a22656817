/** The section finder of cli/task_sections.go, whose fences must be closed by the marker
    that opened them and whose headings are any "## " lines, and appendLogEntry in
    cli/move.go, which uses it to write the task's log. */
module TaskSections {
  import opened Text
  import opened Outline

  /** taskSectionFenceMarker. */
  function Marker(line: string): string {
    if HasPrefix(line, "```") then "```" else if HasPrefix(line, "~~~") then "~~~" else ""
  }

  /** The state is the marker of the fence the line is in, or empty. */
  function NextMarker(open: string, line: string): string {
    var m := Marker(line);
    if m == "" then open
    else if open == "" then m
    else if m == open then ""
    else open
  }

  predicate HeadsSection(open: string, line: string) { Marker(line) == "" && open == "" && HasPrefix(line, "## ") }

  function TaskScanner(): Scanner<string> { Scanner("", NextMarker, HeadsSection) }

  lemma PrefixIgnoresLineEnd(l: string, p: string)
    requires p != "" && '\n' !in p && '\r' !in p
    ensures HasPrefix(l + "\n", p) == HasPrefix(l, p) == HasPrefix(TrimReturn(l), p)
  {
    assert p[|p| - 1] in p && (l + "\n")[..|l|] == l;
  }

  lemma LineEndIsIgnored(l: string)
    ensures Marker(l + "\n") == Marker(l) == Marker(TrimReturn(l))
    ensures HasPrefix(l + "\n", "## ") == HasPrefix(l, "## ") == HasPrefix(TrimReturn(l), "## ")
  {
    PrefixIgnoresLineEnd(l, "```");
    PrefixIgnoresLineEnd(l, "~~~");
    PrefixIgnoresLineEnd(l, "## ");
  }

  lemma TaskScannerIsSound()
    ensures Sound(TaskScanner())
  {
    forall st, l
      ensures IgnoresBlank(TaskScanner(), st, l) && IgnoresNewline(TaskScanner(), st, l)
      ensures StartsOutside(TaskScanner(), st, l)
    {
      LineEndIsIgnored(l);
    }
  }

  /** strings.TrimRight(line, " \t"). */
  function TrimBlanks(line: string): string {
    if line != "" && (line[|line| - 1] == ' ' || line[|line| - 1] == '\t') then TrimBlanks(line[..|line| - 1]) else line
  }

  /** A line without its newline. */
  function Bare(l: string): string { if l != "" && l[|l| - 1] == '\n' then l[..|l| - 1] else l }

  /** normalizeTaskSectionHeading of a line. */
  function TitleOf(l: string): string { TrimBlanks(TrimReturn(Bare(l))) }

  function Title(sec: string): string { if sec == "" then "" else TitleOf(FirstLine(sec)) }

  function Sectioned(content: string): Doc { Parse(TaskScanner(), "", content) }

  function IndexOfTitle(secs: seq<string>, wanted: set<string>): (i: nat)
    ensures i <= |secs|
  {
    if secs == [] || Title(secs[0]) in wanted then 0 else IndexOfTitle(secs[1..], wanted) + 1
  }

  // ---------------------------------------------------------------- findTaskSectionWhere

  datatype SectionRange = SectionRange(start: nat, bodyStart: nat, end: nat)

  /** The section's body begins after its heading line. */
  predicate BodyFollows(content: string, found: SectionRange) {
    found.start < |content| && found.bodyStart == found.start + |FirstLine(content[found.start..])|
  }

  method TaskSectionLineBounds(content: string, offset: nat) returns (lineEnd: nat, nextOffset: nat)
    requires offset < |content|
    ensures LineIn(content, offset, lineEnd, nextOffset)
  {
    var idx := IndexNewline(content[offset..]);
    FirstNewline(content[offset..]);
    if idx != -1 {
      lineEnd := offset + idx;
      nextOffset := lineEnd + 1;
      assert content[offset..][..idx + 1] == content[offset..nextOffset];
      assert content[offset..nextOffset][..idx] == content[offset..lineEnd];
      assert content[offset..][idx + 1..] == content[nextOffset..];
    } else {
      lineEnd, nextOffset := |content|, |content|;
      assert content[offset..][|content| - offset - 1] in content[offset..];
    }
  }

  /** Where the first section with a wanted title lies, for consecutive sections from `base`. */
  function WantedOf(secs: seq<string>, base: nat, wanted: set<string>): (nat, nat, bool) {
    if secs == [] then (0, 0, false)
    else if Title(secs[0]) in wanted then (base, base + |secs[0]|, true)
    else WantedOf(secs[1..], base + |secs[0]|, wanted)
  }

  function Wanted(d: Doc, base: nat, wanted: set<string>): (nat, nat, bool) { WantedOf(d.secs, base + |d.pre|, wanted) }

  lemma WantedPastALine(d: Doc, base: nat, l: string, wanted: set<string>)
    ensures Wanted(AddLine(d, l, false), base, wanted) == Wanted(d, base + |l|, wanted)
  {
  }

  lemma WantedPastAHeading(d: Doc, base: nat, l: string, wanted: set<string>)
    requires l != "" && FirstLine(l) == l && (d.pre != "" ==> Terminated(l))
    ensures Wanted(AddLine(d, l, true), base, wanted)
            == if TitleOf(l) in wanted then (base, base + |l| + |d.pre|, true) else Wanted(d, base + |l|, wanted)
  {
    TitleOfSection(l, d.pre);
    assert ([l + d.pre] + d.secs)[1..] == d.secs;
  }

  lemma TitleOfSection(l: string, body: string)
    requires l != "" && FirstLine(l) == l && (body != "" ==> Terminated(l))
    ensures Title(l + body) == TitleOf(l)
  {
    FirstOfLine(l, body);
  }

  /** A line of the text, as the finder reads it. */
  predicate LineIn(content: string, offset: nat, lineEnd: nat, nextOffset: nat) {
    && offset <= lineEnd <= nextOffset <= |content| && offset < |content|
    && FirstLine(content[offset..]) == content[offset..nextOffset]
    && Rest(content[offset..]) == content[nextOffset..]
    && content[offset..lineEnd] == Bare(content[offset..nextOffset])
  }

  lemma SameMarks(l: string, line: string, open: string)
    requires line == TrimReturn(Bare(l))
    ensures NextMarker(open, line) == NextMarker(open, l) && HeadsSection(open, line) == HeadsSection(open, l)
  {
    LineEndIsIgnored(Bare(l));
    assert l == Bare(l) || l == Bare(l) + "\n";
  }

  lemma PreOfParse(sc: Scanner<string>, st: string, s: string)
    ensures Parse(sc, st, s).pre != "" ==> s != ""
  {
  }

  /** What the finder is to return, given whether it has found the section's start. */
  function Goal(hasFound: bool, start: nat, d: Doc, offset: nat, wanted: set<string>): (nat, nat, bool) {
    if hasFound then (start, offset + |d.pre|, true) else Wanted(d, offset, wanted)
  }

  lemma GoalAtLine(sc: Scanner<string>, content: string, offset: nat, lineEnd: nat, nextOffset: nat, open: string,
                   hasFound: bool, start: nat, wanted: set<string>)
    requires sc == TaskScanner() && LineIn(content, offset, lineEnd, nextOffset)
    ensures var line := TrimReturn(content[offset..lineEnd]);
            var goal := Goal(hasFound, start, Parse(sc, open, content[offset..]), offset, wanted);
            var d' := Parse(sc, NextMarker(open, line), content[nextOffset..]);
            if HeadsSection(open, line) then
              if hasFound then goal == (start, offset, true)
              else goal == Goal(TrimBlanks(line) in wanted, offset, d', nextOffset, wanted)
            else goal == Goal(hasFound, start, d', nextOffset, wanted)
  {
    var l, line := content[offset..nextOffset], TrimReturn(content[offset..lineEnd]);
    var d' := Parse(sc, NextMarker(open, line), content[nextOffset..]);
    StepAt(sc, content, offset, lineEnd, nextOffset, open);
    GoalPastLine(d', offset, l, HeadsSection(open, line), hasFound, start, wanted);
  }

  lemma StepAt(sc: Scanner<string>, content: string, offset: nat, lineEnd: nat, nextOffset: nat, open: string)
    requires sc == TaskScanner() && LineIn(content, offset, lineEnd, nextOffset)
    ensures var l, line := content[offset..nextOffset], TrimReturn(content[offset..lineEnd]);
            var d' := Parse(sc, NextMarker(open, line), content[nextOffset..]);
            && Parse(sc, open, content[offset..]) == AddLine(d', l, HeadsSection(open, line))
            && l != "" && FirstLine(l) == l && (d'.pre != "" ==> Terminated(l))
  {
    var l, line := content[offset..nextOffset], TrimReturn(content[offset..lineEnd]);
    SameMarks(l, line, open);
    FirstLineIsWhole(content[offset..]);
    PreOfParse(sc, NextMarker(open, line), content[nextOffset..]);
  }

  lemma GoalPastLine(d: Doc, offset: nat, l: string, heads: bool, hasFound: bool, start: nat, wanted: set<string>)
    requires l != "" && FirstLine(l) == l && (d.pre != "" ==> Terminated(l))
    ensures var goal := Goal(hasFound, start, AddLine(d, l, heads), offset, wanted);
            if heads then
              if hasFound then goal == (start, offset, true)
              else goal == Goal(TitleOf(l) in wanted, offset, d, offset + |l|, wanted)
            else goal == Goal(hasFound, start, d, offset + |l|, wanted)
  {
    if heads {
      WantedPastAHeading(d, offset, l, wanted);
    } else {
      WantedPastALine(d, offset, l, wanted);
    }
  }

  method FindTaskSectionWhere(content: string, wanted: set<string>) returns (found: SectionRange, hasFound: bool)
    ensures hasFound == Wanted(Sectioned(content), 0, wanted).2
    ensures hasFound ==> Wanted(Sectioned(content), 0, wanted) == (found.start, found.end, true)
    ensures hasFound ==> BodyFollows(content, found)
  {
    ghost var sc := TaskScanner();
    ghost var goal := Wanted(Sectioned(content), 0, wanted);
    found := SectionRange(0, 0, 0);
    hasFound := false;
    var open := "";
    var offset := 0;
    assert content[0..] == content;
    while offset < |content|
      invariant offset <= |content|
      invariant Goal(hasFound, found.start, Parse(sc, open, content[offset..]), offset, wanted) == goal
      invariant hasFound ==> BodyFollows(content, found)
    {
      var lineEnd, nextOffset := TaskSectionLineBounds(content, offset);
      GoalAtLine(sc, content, offset, lineEnd, nextOffset, open, hasFound, found.start, wanted);
      var line := TrimReturn(content[offset..lineEnd]);
      var marker := Marker(line);
      if marker != "" {
        if open != "" {
          if marker == open {
            open := "";
          }
        } else {
          open := marker;
        }
      } else if open == "" && HasPrefix(line, "## ") {
        if hasFound {
          found := found.(end := offset);
          return;
        }
        if TrimBlanks(line) in wanted {
          found := SectionRange(offset, nextOffset, |content|);
          hasFound := true;
        }
      }
      offset := nextOffset;
    }
    assert Parse(sc, open, content[offset..]) == Doc("", []);
    if hasFound {
      found := found.(end := |content|);
    }
  }

  // ---------------------------------------------------------------- appendLogEntry

  /** The first wanted section lies behind those before it. */
  predicate LiesAt(secs: seq<string>, base: nat, wanted: set<string>, j: nat)
    requires j < |secs|
  {
    WantedOf(secs, base, wanted) == (base + |Concat(secs[..j])|, base + |Concat(secs[..j])| + |secs[j]|, true)
  }

  lemma ConcatHead(secs: seq<string>, j: nat)
    requires 0 < j <= |secs|
    ensures Concat(secs[..j]) == secs[0] + Concat(secs[1..][..j - 1])
  {
    assert secs[..j][1..] == secs[1..][..j - 1];
  }

  lemma {:induction false} WantedIsTheFirst(secs: seq<string>, base: nat, wanted: set<string>, j: nat)
    requires j == IndexOfTitle(secs, wanted)
    ensures j == |secs| ==> !WantedOf(secs, base, wanted).2
    ensures j < |secs| ==> LiesAt(secs, base, wanted, j)
  {
    if secs != [] && Title(secs[0]) !in wanted {
      WantedIsTheFirst(secs[1..], base + |secs[0]|, wanted, j - 1);
      if j < |secs| {
        WantedLater(secs, base, wanted, j);
      }
    }
  }

  lemma WantedLater(secs: seq<string>, base: nat, wanted: set<string>, j: nat)
    requires 0 < j < |secs| && Title(secs[0]) !in wanted && LiesAt(secs[1..], base + |secs[0]|, wanted, j - 1)
    ensures LiesAt(secs, base, wanted, j)
  {
    ConcatHead(secs, j);
  }

  function LogIndex(d: Doc, title: string): (j: nat)
    ensures j <= |d.secs|
  {
    IndexOfTitle(d.secs, {title})
  }

  lemma CutsAfterLog(d: Doc, content: string, j: nat, end: nat)
    requires content == Whole(d) && j < |d.secs| && end == |Before(d, j)| + |d.secs[j]|
    ensures end <= |content| && content[..end] == Before(d, j + 1) && content[end..] == Concat(d.secs[j + 1..])
  {
    BeforeNext(d, j);
    WholeSplits(d, j + 1);
  }

  function AtTheEnd(before: string, entry: string, after: string): string {
    TrimNewlines(before) + "\n" + entry + "\n" + after
  }

  /** The text of `d` with the entry at the end of section `j`. */
  function EntryIn(d: Doc, j: nat, entry: string): string
    requires j < |d.secs|
  {
    AtTheEnd(Before(d, j + 1), entry, Concat(d.secs[j + 1..]))
  }

  function WithNewLog(content: string, title: string, entry: string): string {
    content + "\n" + title + "\n\n" + entry
  }

  /** The text with the entry at the end of the first section headed `title`, or of a new one. */
  function Logged(content: string, title: string, entry: string): string {
    var d := Sectioned(content);
    var j := LogIndex(d, title);
    if j < |d.secs| then EntryIn(d, j, entry) else WithNewLog(content, title, entry)
  }

  lemma LoggedAt(content: string, title: string, entry: string, logSection: SectionRange, ok: bool)
    requires ok == Wanted(Sectioned(content), 0, {title}).2
    requires ok ==> Wanted(Sectioned(content), 0, {title}) == (logSection.start, logSection.end, true)
    ensures ok ==> logSection.end <= |content|
    ensures Logged(content, title, entry)
            == if ok then AtTheEnd(content[..logSection.end], entry, content[logSection.end..])
               else WithNewLog(content, title, entry)
  {
    var d := Sectioned(content);
    WholeOfParse(TaskScanner(), "", content);
    LogLies(d, title, LogIndex(d, title), logSection.start, logSection.end, ok);
    LoggedIs(content, title, entry, d);
    if ok {
      EntryAtTheCut(d, LogIndex(d, title), entry, content, logSection.end);
    }
  }

  lemma LoggedIs(content: string, title: string, entry: string, d: Doc)
    requires d == Sectioned(content)
    ensures Logged(content, title, entry)
            == if LogIndex(d, title) < |d.secs| then EntryIn(d, LogIndex(d, title), entry)
               else WithNewLog(content, title, entry)
  {
  }

  lemma EntryAtTheCut(d: Doc, j: nat, entry: string, content: string, end: nat)
    requires content == Whole(d) && j < |d.secs| && end == |Before(d, j)| + |d.secs[j]|
    ensures end <= |content| && EntryIn(d, j, entry) == AtTheEnd(content[..end], entry, content[end..])
  {
    CutsAfterLog(d, content, j, end);
  }

  lemma LogLies(d: Doc, title: string, j: nat, start: nat, end: nat, ok: bool)
    requires j == LogIndex(d, title) && ok == Wanted(d, 0, {title}).2
    requires ok ==> Wanted(d, 0, {title}) == (start, end, true)
    ensures ok <==> j < |d.secs|
    ensures ok ==> end == |Before(d, j)| + |d.secs[j]|
  {
    WantedIsTheFirst(d.secs, |d.pre|, {title}, j);
  }

  /** appendLogEntry; `entry` is what redaction left of the entry. */
  method AppendLogEntry(content: string, entry: string) returns (out: string)
    ensures out == Logged(content, "## Log", entry)
  {
    var logSection, ok := FindTaskSectionWhere(content, {"## Log"});
    LoggedAt(content, "## Log", entry, logSection, ok);
    if !ok {
      return content + "\n" + "## Log" + "\n\n" + entry;
    }
    var before := TrimNewlines(content[..logSection.end]);
    var after := content[logSection.end..];
    out := before + "\n" + entry + "\n" + after;
  }

  /** A log entry is one line, with or without its line end, and neither a heading nor a fence. */
  predicate IsEntry(entry: string) { IsEntryLine(Bare(entry)) }

  predicate IsEntryLine(l: string) { l != "" && '\n' !in l && Marker(l) == "" && !HasPrefix(l, "## ") }

  function WithEntry(log: string, entry: string): string { TrimNewlines(log) + "\n" + (entry + "\n") }

  lemma EntryLine(sc: Scanner<string>, st: string, l: string)
    requires sc == TaskScanner() && IsEntryLine(l)
    ensures Parse(sc, st, l + "\n") == Doc(l + "\n", []) && After(sc, st, l + "\n") == st
  {
    OneLine(l);
    LineEndIsIgnored(l);
    SingleLine(sc, st, l + "\n");
    assert l + "\n" + "" == l + "\n";
  }

  lemma BlankLine(sc: Scanner<string>, st: string)
    requires sc == TaskScanner()
    ensures Parse(sc, st, "\n") == Doc("\n", []) && After(sc, st, "\n") == st
  {
    LineEndIsIgnored("");
    OneLine("");
    SingleLine(sc, st, "\n");
    assert "" + "\n" == "\n";
  }

  lemma EntryLines(sc: Scanner<string>, st: string, entry: string)
    requires sc == TaskScanner() && Sound(sc) && IsEntry(entry)
    ensures Parse(sc, st, entry + "\n") == Doc(entry + "\n", []) && After(sc, st, entry + "\n") == st
  {
    var l := Bare(entry);
    EntryLine(sc, st, l);
    if entry != l {
      assert entry == l + "\n";
      BlankLine(sc, st);
      ParseConcat(sc, st, entry, "\n");
    }
  }

  lemma EntryKeepsTheSection(sc: Scanner<string>, log: string, entry: string)
    requires sc == TaskScanner() && Sound(sc) && IsEntry(entry) && OneSection(sc, log)
    ensures OneSection(sc, WithEntry(log, entry)) && After(sc, "", WithEntry(log, entry)) == After(sc, "", log)
    ensures Terminated(WithEntry(log, entry)) && TrimNewlines(log) != ""
  {
    SpacedSection(sc, log);
    TrimKeepsTheOutline(sc, log, "\n");
    var t := TrimNewlines(log) + "\n";
    EntryLines(sc, After(sc, "", t), entry);
    ParseConcat(sc, "", t, entry + "\n");
    GlueIsOneMore(t, entry + "\n");
  }

  lemma WholeWithEntry(d: Doc, j: nat, entry: string)
    requires j < |d.secs| && TrimNewlines(d.secs[j]) != ""
    ensures Whole(Replace(d, j, WithEntry(d.secs[j], entry)))
            == EntryIn(d, j, entry)
  {
    BeforeNext(d, j);
    TrimNewlinesOfConcat(Before(d, j), d.secs[j]);
    WholeOfReplace(d, j, WithEntry(d.secs[j], entry));
    Reassociate(Before(d, j), TrimNewlines(d.secs[j]), entry, Concat(d.secs[j + 1..]));
  }

  lemma Reassociate(a: string, t: string, entry: string, rest: string)
    ensures (a + t) + "\n" + entry + "\n" + rest == a + (t + "\n" + (entry + "\n")) + rest
  {
  }

  /** With a log section, the new text has the same outline, with that one entry more at the
      end of that one section. */
  lemma LogGetsOneEntry(content: string, title: string, entry: string, d: Doc, j: nat)
    requires IsEntry(entry) && d == Sectioned(content) && j == LogIndex(d, title) < |d.secs|
    ensures Sectioned(Logged(content, title, entry))
            == Doc(d.pre, d.secs[j := TrimNewlines(d.secs[j]) + "\n" + entry + "\n"])
  {
    TaskScannerIsSound();
    ParseIsWellFormed(TaskScanner(), content);
    EntryAdded(TaskScanner(), d, j, entry);
    WholeWithEntry(d, j, entry);
    assert Logged(content, title, entry) == EntryIn(d, j, entry);
    EntryText(d.secs[j], entry, d, j);
  }

  lemma EntryText(log: string, entry: string, d: Doc, j: nat)
    requires j < |d.secs|
    ensures Replace(d, j, WithEntry(log, entry)) == Doc(d.pre, d.secs[j := TrimNewlines(log) + "\n" + entry + "\n"])
  {
    assert TrimNewlines(log) + "\n" + entry + "\n" == WithEntry(log, entry);
  }

  lemma EntryAdded(sc: Scanner<string>, d: Doc, j: nat, entry: string)
    requires sc == TaskScanner() && Sound(sc) && WellFormed(sc, d) && IsEntry(entry) && j < |d.secs|
    ensures TrimNewlines(d.secs[j]) != ""
    ensures Parse(sc, "", Whole(Replace(d, j, WithEntry(d.secs[j], entry))))
            == Replace(d, j, WithEntry(d.secs[j], entry))
  {
    EntryKeepsTheSection(sc, d.secs[j], entry);
    ReplaceIsWellFormed(sc, d, j, WithEntry(d.secs[j], entry));
  }
}
