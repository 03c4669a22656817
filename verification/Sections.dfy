/** Section editing in cli/edit.go: the finders, which walk over byte offsets with a fence
    flag, as loops proved against the outline of the text.

    The outline is the text cut at its managed headings; a finder's offsets are the sums of
    the lengths of what lies before. */
module Sections {
  import opened Text
  import opened Outline

  predicate IsFence(line: string) { HasPrefix(line, "```") || HasPrefix(line, "~~~") }

  /** This scanner closes a fence with either marker, whichever opened it. */
  function NextFence(inFence: bool, l: string): bool { if IsFence(TrimSpace(l)) then !inFence else inFence }

  /** `hs` are the managed headings, taskMarkdownHeadings. */
  predicate Heads(hs: set<string>, inFence: bool, l: string) {
    !IsFence(TrimSpace(l)) && !inFence && TrimSpace(l) in hs
  }

  function EditScanner(hs: set<string>): Scanner<bool> {
    Scanner(false, NextFence, (inFence: bool, l: string) => Heads(hs, inFence, l))
  }

  lemma EditScannerIsSound(hs: set<string>)
    requires "" !in hs
    ensures Sound(EditScanner(hs))
  {
    forall st, l
      ensures IgnoresBlank(EditScanner(hs), st, l) && IgnoresNewline(EditScanner(hs), st, l)
      ensures StartsOutside(EditScanner(hs), st, l)
    {
      TrimIgnoresLineEnd(l);
      BlankLineIsNothing(hs, st, l);
    }
  }

  lemma BlankLineIsNothing(hs: set<string>, st: bool, l: string)
    requires "" !in hs
    ensures IgnoresBlank(EditScanner(hs), st, l)
  {
    var blank := "";
    TrimIgnoresLineEnd(blank);
    assert l == "\n" ==> l == blank + "\n";
  }

  function Cut(hs: set<string>, content: string): Doc { Parse(EditScanner(hs), false, content) }

  /** The heading a section starts with. */
  function Name(sec: string): string { if sec == "" then "" else TrimSpace(FirstLine(sec)) }

  // ---------------------------------------------------------------- the finders

  datatype Range = Range(start: nat, end: nat)

  /** The line at `offset` ends at `lineEnd`; the next one starts at `nextOffset`, which is
      past the end of the text when there is none. */
  predicate LineBounds(content: string, offset: nat, lineEnd: nat, nextOffset: nat) {
    && offset <= lineEnd <= |content| && nextOffset == lineEnd + 1
    && (offset == |content| ==> lineEnd == |content|)
    && (offset < |content| ==>
          && FirstLine(content[offset..]) == content[offset..lineEnd] + (if lineEnd < |content| then "\n" else "")
          && Rest(content[offset..]) == From(content, nextOffset))
  }

  /** The text from `offset` on; offsets one past the end occur. */
  function From(content: string, offset: nat): string { if offset <= |content| then content[offset..] else "" }

  method MarkdownLineBounds(content: string, offset: nat) returns (lineEnd: nat, nextOffset: nat)
    requires offset <= |content|
    ensures LineBounds(content, offset, lineEnd, nextOffset)
  {
    if offset >= |content| {
      return |content|, |content| + 1;
    }
    var idx := IndexNewline(content[offset..]);
    FirstNewline(content[offset..]);
    if idx != -1 {
      lineEnd := offset + idx;
      assert content[offset..][..idx + 1] == content[offset..lineEnd] + "\n";
      return lineEnd, lineEnd + 1;
    }
    return |content|, |content| + 1;
  }

  /** The part of the line the finders look at. */
  function LineText(content: string, offset: nat, lineEnd: nat): string
    requires offset <= lineEnd <= |content|
  {
    TrimSpace(TrimReturn(content[offset..lineEnd]))
  }

  /** One step of every finder: what is left of the text is a line and the rest after it. */
  lemma LineAt(hs: set<string>, content: string, offset: nat, lineEnd: nat, nextOffset: nat, st: bool)
    requires LineBounds(content, offset, lineEnd, nextOffset)
    ensures offset < |content| ==>
              var l := FirstLine(content[offset..]);
              && TrimSpace(l) == LineText(content, offset, lineEnd)
              && Parse(EditScanner(hs), st, content[offset..])
                 == AddLine(Parse(EditScanner(hs), NextFence(st, l), From(content, nextOffset)), l, Heads(hs, st, l))
              && (nextOffset <= |content| ==> |l| == nextOffset - offset)
              && (nextOffset > |content| ==> |l| == |content| - offset)
    ensures offset == |content| ==>
              LineText(content, offset, lineEnd) == "" == From(content, nextOffset) == content[offset..]
  {
    TrimIgnoresLineEnd(content[offset..lineEnd]);
    assert content[offset..lineEnd] + "" == content[offset..lineEnd];
  }

  /** The index of the first section whose heading is one of `hs`, or the number of sections. */
  function IndexOf(secs: seq<string>, hs: set<string>): (i: nat)
    ensures i <= |secs|
  {
    if secs == [] || Name(secs[0]) in hs then 0 else IndexOf(secs[1..], hs) + 1
  }

  lemma {:induction false} IndexOfIsFirst(secs: seq<string>, hs: set<string>)
    ensures var i := IndexOf(secs, hs);
            (i < |secs| ==> Name(secs[i]) in hs) && forall j :: 0 <= j < i ==> Name(secs[j]) !in hs
  {
    if secs != [] && Name(secs[0]) !in hs {
      IndexOfIsFirst(secs[1..], hs);
      var i := IndexOf(secs, hs);
      forall j | 0 <= j < i
        ensures Name(secs[j]) !in hs
      {
        if j > 0 {
          assert secs[j] == secs[1..][j - 1];
        }
      }
    }
  }

  /** The offset of the first heading of the outline `d` of the text at `offset`. */
  function FirstHeading(d: Doc, offset: nat): int { if d.secs == [] then -1 else offset + |d.pre| }

  method FindNextTaskMarkdownHeading(hs: set<string>, content: string, start: nat) returns (r: int)
    requires "" !in hs && start <= |content| + 1
    ensures r == FirstHeading(Cut(hs, From(content, start)), start)
  {
    var offset := start;
    var inFence := false;
    while offset <= |content|
      invariant start <= offset <= |content| + 1
      invariant FirstHeading(Parse(EditScanner(hs), inFence, From(content, offset)), offset)
              == FirstHeading(Cut(hs, From(content, start)), start)
    {
      var lineEnd, nextOffset := MarkdownLineBounds(content, offset);
      LineAt(hs, content, offset, lineEnd, nextOffset, inFence);
      var line := LineText(content, offset, lineEnd);
      if IsFence(line) {
        inFence := !inFence;
      } else if !inFence && line in hs {
        return offset;
      }
      offset := nextOffset;
    }
    r := -1;
  }

  function Headed(h: string): string -> bool { (sec: string) => Name(sec) == h }

  /** Where the sections that `hit` picks lie, for consecutive sections from offset `base` on. */
  function RangesWhere(secs: seq<string>, base: nat, hit: string -> bool): seq<Range> {
    if secs == [] then []
    else WithRange(hit(secs[0]), Range(base, base + |secs[0]|), RangesWhere(secs[1..], base + |secs[0]|, hit))
  }

  function RangesOf(secs: seq<string>, base: nat, h: string): seq<Range> { RangesWhere(secs, base, Headed(h)) }

  function WithRange(hit: bool, r: Range, rest: seq<Range>): seq<Range> { if hit then [r] + rest else rest }

  function RangesFrom(d: Doc, base: nat, h: string): seq<Range> { RangesOf(d.secs, base + |d.pre|, h) }

  lemma RangesPastALine(d: Doc, base: nat, l: string, h: string)
    ensures RangesFrom(AddLine(d, l, false), base, h) == RangesFrom(d, base + |l|, h)
  {
  }

  lemma RangesPastAHeading(d: Doc, base: nat, l: string, h: string)
    requires l != "" && FirstLine(l) == l && (d.pre != "" ==> Terminated(l))
    ensures RangesFrom(AddLine(d, l, true), base, h)
            == WithRange(TrimSpace(l) == h, Range(base, base + |l| + |d.pre|), RangesFrom(d, base + |l|, h))
  {
    NameOfSection(l, d.pre);
    assert ([l + d.pre] + d.secs)[1..] == d.secs;
  }

  lemma NameOfSection(l: string, body: string)
    requires l != "" && FirstLine(l) == l && (body != "" ==> Terminated(l))
    ensures Name(l + body) == TrimSpace(l)
  {
    FirstOfLine(l, body);
  }

  /** `d` may be the outline of `s`. */
  predicate Outlines(d: Doc, s: string) {
    && (s == "" ==> d == Doc("", []))
    && (d.secs == [] ==> d.pre == s)
    && (d.pre != "" ==> s != "")
  }

  lemma ParseOutlines(sc: Scanner<bool>, st: bool, s: string)
    ensures Outlines(Parse(sc, st, s), s)
  {
    WholeOfParse(sc, st, s);
  }

  /** What the section finder has still to find from `offset` on. */
  function Ahead(sc: Scanner<bool>, content: string, offset: nat, st: bool, h: string): seq<Range> {
    RangesFrom(Parse(sc, st, From(content, offset)), offset, h)
  }

  lemma RangesAtAHeading(content: string, offset: nat, nextOffset: nat, l: string, d: Doc, h: string)
    requires Outlines(d, From(content, nextOffset))
    requires l != "" && FirstLine(l) == l && (From(content, nextOffset) != "" ==> Terminated(l))
    requires offset + |l| == if nextOffset <= |content| then nextOffset else |content|
    ensures var next := FirstHeading(d, nextOffset);
            RangesFrom(AddLine(d, l, true), offset, h)
            == WithRange(TrimSpace(l) == h, Range(offset, if next == -1 then |content| else next),
                         RangesFrom(d, nextOffset, h))
  {
    RangesPastAHeading(d, offset, l, h);
    RangesAtEnd(content, nextOffset, offset + |l|, d, h);
    var next := FirstHeading(d, nextOffset);
    assert Range(offset, offset + |l| + |d.pre|) == Range(offset, if next == -1 then |content| else next);
  }

  lemma RangesAtEnd(content: string, nextOffset: nat, at: nat, d: Doc, h: string)
    requires Outlines(d, From(content, nextOffset)) && at == if nextOffset <= |content| then nextOffset else |content|
    ensures RangesFrom(d, at, h) == RangesFrom(d, nextOffset, h)
    ensures at + |d.pre| == if FirstHeading(d, nextOffset) == -1 then |content| else FirstHeading(d, nextOffset)
  {
  }

  lemma RangesAtALine(content: string, offset: nat, nextOffset: nat, l: string, d: Doc, h: string)
    requires Outlines(d, From(content, nextOffset))
    requires offset + |l| == if nextOffset <= |content| then nextOffset else |content|
    ensures RangesFrom(AddLine(d, l, false), offset, h) == RangesFrom(d, nextOffset, h)
  {
    RangesPastALine(d, offset, l, h);
  }

  lemma RangesAtLine(sc: Scanner<bool>, hs: set<string>, content: string, offset: nat, lineEnd: nat, nextOffset: nat,
                     st: bool, h: string)
    requires LineBounds(content, offset, lineEnd, nextOffset) && "" !in hs && h in hs && sc == EditScanner(hs)
    ensures var line := LineText(content, offset, lineEnd);
            var next := FirstHeading(Parse(sc, false, From(content, nextOffset)), nextOffset);
            Ahead(sc, content, offset, st, h)
            == WithRange(!IsFence(line) && !st && line == h, Range(offset, if next == -1 then |content| else next),
                         Ahead(sc, content, nextOffset, if IsFence(line) then !st else st, h))
  {
    LineAt(hs, content, offset, lineEnd, nextOffset, st);
    if offset < |content| {
      var l := FirstLine(content[offset..]);
      FirstLineIsWhole(content[offset..]);
      ParseOutlines(sc, NextFence(st, l), From(content, nextOffset));
      var d := Parse(sc, NextFence(st, l), From(content, nextOffset));
      if Heads(hs, st, l) {
        RangesAtAHeading(content, offset, nextOffset, l, d, h);
      } else {
        RangesAtALine(content, offset, nextOffset, l, d, h);
      }
    }
  }

  lemma WholeTextAhead(sc: Scanner<bool>, content: string, h: string)
    ensures Ahead(sc, content, 0, false, h) == RangesFrom(Parse(sc, false, content), 0, h)
    ensures Ahead(sc, content, |content| + 1, false, h) == Ahead(sc, content, |content| + 1, true, h) == []
  {
    assert From(content, 0) == content;
    assert Parse(sc, false, "") == Parse(sc, true, "") == Doc("", []);
  }

  lemma ConcatOneAssoc(a: seq<Range>, r: Range, b: seq<Range>)
    ensures a + ([r] + b) == a + [r] + b
  {
  }

  method FindMarkdownSections(hs: set<string>, content: string, heading: string) returns (ranges: seq<Range>)
    requires "" !in hs && heading in hs
    ensures ranges == RangesFrom(Cut(hs, content), 0, heading)
  {
    ghost var sc := EditScanner(hs);
    WholeTextAhead(sc, content, heading);
    ranges := [];
    var offset := 0;
    var inFence := false;
    while offset <= |content|
      invariant offset <= |content| + 1
      invariant ranges + Ahead(sc, content, offset, inFence, heading) == Ahead(sc, content, 0, false, heading)
    {
      var lineEnd, nextOffset := MarkdownLineBounds(content, offset);
      RangesAtLine(sc, hs, content, offset, lineEnd, nextOffset, inFence, heading);
      var line := LineText(content, offset, lineEnd);
      if IsFence(line) {
        inFence := !inFence;
      } else if !inFence && line == heading {
        var nextHeading := FindNextTaskMarkdownHeading(hs, content, nextOffset);
        if nextHeading == -1 {
          nextHeading := |content|;
        }
        ConcatOneAssoc(ranges, Range(offset, nextHeading), Ahead(sc, content, nextOffset, inFence, heading));
        ranges := ranges + [Range(offset, nextHeading)];
      }
      offset := nextOffset;
    }
  }

  /** The first section whose heading is one of `wanted`. */
  function FirstWanted(d: Doc, base: nat, wanted: set<string>): int {
    var j := IndexOf(d.secs, wanted);
    if j < |d.secs| then base + |Before(d, j)| else -1
  }

  lemma WantedPastALine(content: string, offset: nat, nextOffset: nat, l: string, d: Doc, wanted: set<string>)
    requires Outlines(d, From(content, nextOffset))
    requires offset + |l| == if nextOffset <= |content| then nextOffset else |content|
    ensures FirstWanted(AddLine(d, l, false), offset, wanted) == FirstWanted(d, nextOffset, wanted)
  {
  }

  lemma WantedPastAHeading(content: string, offset: nat, nextOffset: nat, l: string, d: Doc, wanted: set<string>)
    requires Outlines(d, From(content, nextOffset))
    requires l != "" && FirstLine(l) == l && (From(content, nextOffset) != "" ==> Terminated(l))
    requires offset + |l| == if nextOffset <= |content| then nextOffset else |content|
    ensures FirstWanted(AddLine(d, l, true), offset, wanted)
            == if TrimSpace(l) in wanted then offset else FirstWanted(d, nextOffset, wanted)
  {
    NameOfSection(l, d.pre);
    var secs := AddLine(d, l, true).secs;
    assert secs[1..] == d.secs;
    assert secs[..0] == [];
    var j := IndexOf(d.secs, wanted);
    assert secs[..j + 1] == [l + d.pre] + d.secs[..j];
    assert secs[..j + 1][1..] == d.secs[..j];
  }

  lemma WantedAtLine(sc: Scanner<bool>, hs: set<string>, content: string, offset: nat, lineEnd: nat, nextOffset: nat,
                     st: bool, wanted: set<string>)
    requires LineBounds(content, offset, lineEnd, nextOffset) && "" !in hs && wanted <= hs && sc == EditScanner(hs)
    ensures var line := LineText(content, offset, lineEnd);
            FirstWanted(Parse(sc, st, From(content, offset)), offset, wanted)
            == if !IsFence(line) && !st && line in wanted then offset
               else FirstWanted(Parse(sc, if IsFence(line) then !st else st, From(content, nextOffset)), nextOffset,
                                wanted)
  {
    LineAt(hs, content, offset, lineEnd, nextOffset, st);
    if offset < |content| {
      var l := FirstLine(content[offset..]);
      FirstLineIsWhole(content[offset..]);
      ParseOutlines(sc, NextFence(st, l), From(content, nextOffset));
      var d := Parse(sc, NextFence(st, l), From(content, nextOffset));
      if Heads(hs, st, l) {
        WantedPastAHeading(content, offset, nextOffset, l, d, wanted);
      } else {
        WantedPastALine(content, offset, nextOffset, l, d, wanted);
      }
    }
  }

  method FindFirstMarkdownHeading(hs: set<string>, content: string, headings: set<string>) returns (idx: nat, ok: bool)
    requires "" !in hs && headings <= hs
    ensures ok <==> FirstWanted(Cut(hs, content), 0, headings) >= 0
    ensures ok ==> idx == FirstWanted(Cut(hs, content), 0, headings)
  {
    ghost var sc := EditScanner(hs);
    var offset := 0;
    var inFence := false;
    assert From(content, 0) == content;
    while offset <= |content|
      invariant offset <= |content| + 1
      invariant FirstWanted(Parse(sc, inFence, From(content, offset)), offset, headings)
              == FirstWanted(Cut(hs, content), 0, headings)
    {
      var lineEnd, nextOffset := MarkdownLineBounds(content, offset);
      WantedAtLine(sc, hs, content, offset, lineEnd, nextOffset, inFence, headings);
      var line := LineText(content, offset, lineEnd);
      if IsFence(line) {
        inFence := !inFence;
      } else if !inFence && line in headings {
        return offset, true;
      }
      offset := nextOffset;
    }
    return 0, false;
  }
}
