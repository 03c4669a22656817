/** upsertTaskSection in cli/edit.go: replacing, coalescing, inserting or appending one
    section of a task, on byte offsets, and what that does to the task's outline.

    The offsets are those the finders return; the lemmas here turn each splice of the text at
    such an offset into an edit of the outline's list of sections. */
module Upsert {
  import opened Text
  import opened Outline
  import opened Sections

  /** The managed headings; for each, the headings it is put in front of when it is missing;
      and the headings of which duplicates are merged. */
  datatype Rules = Rules(headings: set<string>, anchors: string -> set<string>, coalesced: set<string>)

  predicate IsHeading(h: string) { h != "" && '\n' !in h && h[|h| - 1] != '\n' && TrimSpace(h) == h && !IsFence(h) }

  ghost predicate Proper(r: Rules) {
    && (forall h :: h in r.headings ==> IsHeading(h))
    && (forall h :: r.anchors(h) <= r.headings)
    && r.coalesced <= r.headings
  }

  function Block(h: string, body: string): string { h + "\n\n" + body + "\n\n" }

  // ---------------------------------------------------------------- the edited outline

  function Named(secs: seq<string>, h: string): seq<string> {
    if secs == [] then []
    else if Name(secs[0]) == h then [secs[0]] + Named(secs[1..], h)
    else Named(secs[1..], h)
  }

  function Except(secs: seq<string>, hit: string -> bool): seq<string> {
    if secs == [] then []
    else if hit(secs[0]) then Except(secs[1..], hit)
    else [secs[0]] + Except(secs[1..], hit)
  }

  function Without(secs: seq<string>, h: string): seq<string> { Except(secs, Headed(h)) }

  /** The outline once section `h` is written. */
  function Put(r: Rules, d: Doc, h: string, block: string): Doc {
    var i := IndexOf(d.secs, {h});
    var j := IndexOf(d.secs, r.anchors(h));
    if i < |d.secs| then
      if h in r.coalesced then Doc(d.pre, d.secs[..i] + [block] + Without(d.secs[i + 1..], h)) else Replace(d, i, block)
    else if j < |d.secs| then Insert(d, j, block)
    else Insert(d, |d.secs|, TrimNewlines(block) + "\n")
  }

  function Upserted(r: Rules, content: string, h: string, body: string): string {
    Whole(Put(r, Cut(r.headings, content), h, Block(h, body)))
  }

  // ---------------------------------------------------------------- ranges and sections

  /** Sections that are not picked contribute no range. */
  lemma {:induction false} SkipOthers(secs: seq<string>, base: nat, j: nat, hit: string -> bool)
    requires j <= |secs| && forall k :: 0 <= k < j ==> !hit(secs[k])
    ensures RangesWhere(secs, base, hit) == RangesWhere(secs[j..], base + |Concat(secs[..j])|, hit)
    decreases j
  {
    if j == 0 {
      SkipNone(secs);
    } else {
      SkipOthers(secs, base, j - 1, hit);
      SkipOne(secs, base, j - 1, hit);
    }
  }

  lemma SkipNone(secs: seq<string>)
    ensures secs[0..] == secs && Concat(secs[..0]) == ""
  {
  }

  lemma SkipOne(secs: seq<string>, base: nat, j: nat, hit: string -> bool)
    requires j < |secs| && !hit(secs[j])
    ensures RangesWhere(secs[j..], base + |Concat(secs[..j])|, hit)
            == RangesWhere(secs[j + 1..], base + |Concat(secs[..j + 1])|, hit)
  {
    ConcatNext(secs, j);
    RangesFromHere(secs, j, base + |Concat(secs[..j])|, hit);
  }

  lemma ConcatNext(secs: seq<string>, j: nat)
    requires j < |secs|
    ensures Concat(secs[..j + 1]) == Concat(secs[..j]) + secs[j]
  {
    assert secs[..j + 1] == secs[..j] + [secs[j]];
    ConcatOfConcat(secs[..j], [secs[j]]);
    ConcatOne(secs[j]);
  }

  lemma RangesFromHere(secs: seq<string>, i: nat, at: nat, hit: string -> bool)
    requires i < |secs|
    ensures RangesWhere(secs[i..], at, hit)
            == WithRange(hit(secs[i]), Range(at, at + |secs[i]|), RangesWhere(secs[i + 1..], at + |secs[i]|, hit))
  {
    assert secs[i..][0] == secs[i] && secs[i..][1..] == secs[i + 1..];
  }

  lemma NoRange(d: Doc, h: string)
    requires IndexOf(d.secs, {h}) == |d.secs|
    ensures RangesFrom(d, 0, h) == []
  {
    IndexOfIsFirst(d.secs, {h});
    SkipOthers(d.secs, |d.pre|, |d.secs|, Headed(h));
  }

  /** The first range is the first section headed `h`; the others are ranges of later ones. */
  lemma FirstRange(d: Doc, h: string, i: nat, at: nat)
    requires i == IndexOf(d.secs, {h}) < |d.secs| && at == |Before(d, i)|
    ensures RangesFrom(d, 0, h) == [Range(at, at + |d.secs[i]|)] + RangesOf(d.secs[i + 1..], at + |d.secs[i]|, h)
  {
    FirstRangeFrom(d.secs, |d.pre|, i, at, h);
  }

  lemma FirstRangeFrom(secs: seq<string>, base: nat, i: nat, at: nat, h: string)
    requires i == IndexOf(secs, {h}) < |secs| && at == base + |Concat(secs[..i])|
    ensures RangesOf(secs, base, h) == [Range(at, at + |secs[i]|)] + RangesOf(secs[i + 1..], at + |secs[i]|, h)
  {
    IndexOfIsFirst(secs, {h});
    FirstPicked(secs, base, i, at, Headed(h));
  }

  lemma FirstPicked(secs: seq<string>, base: nat, i: nat, at: nat, hit: string -> bool)
    requires i < |secs| && at == base + |Concat(secs[..i])| && hit(secs[i]) && forall k :: 0 <= k < i ==> !hit(secs[k])
    ensures RangesWhere(secs, base, hit)
            == [Range(at, at + |secs[i]|)] + RangesWhere(secs[i + 1..], at + |secs[i]|, hit)
  {
    SkipOthers(secs, base, i, hit);
    RangesFromHere(secs, i, at, hit);
  }

  // ---------------------------------------------------------------- replaceAndRemoveDuplicateSections

  predicate Ordered(content: string, ranges: seq<Range>, cursor: nat)
    decreases |ranges|
  {
    && cursor <= |content|
    && (ranges != [] ==>
          cursor <= ranges[0].start <= ranges[0].end <= |content| && Ordered(content, ranges[1..], ranges[0].end))
  }

  /** The text from `cursor` on, without the ranges. */
  function Kept(content: string, cursor: nat, ranges: seq<Range>): string
    requires Ordered(content, ranges, cursor)
    decreases |ranges|
  {
    if ranges == [] then content[cursor..]
    else content[cursor..ranges[0].start] + Kept(content, ranges[0].end, ranges[1..])
  }

  method ReplaceAndRemoveDuplicateSections(content: string, ranges: seq<Range>, block: string) returns (b: string)
    requires ranges != [] && Ordered(content, ranges, 0)
    ensures b == content[..ranges[0].start] + block + Kept(content, ranges[0].end, ranges[1..])
  {
    b := content[..ranges[0].start];
    b := b + block;
    var cursor: nat := ranges[0].end;
    ghost var all := b + Kept(content, cursor, ranges[1..]);
    for i := 1 to |ranges|
      invariant Ordered(content, ranges[i..], cursor)
      invariant b + Kept(content, cursor, ranges[i..]) == all
    {
      var r := ranges[i];
      assert ranges[i..][1..] == ranges[i + 1..];
      assert (b + content[cursor..r.start]) + Kept(content, r.end, ranges[i + 1..])
          == b + (content[cursor..r.start] + Kept(content, r.end, ranges[i + 1..]));
      b := b + content[cursor..r.start];
      cursor := r.end;
    }
    b := b + content[cursor..];
  }

  // ---------------------------------------------------------------- the bytes that stay

  lemma {:induction false} RangesAreOrdered(content: string, secs: seq<string>, cursor: nat, hit: string -> bool)
    requires cursor <= |content| && content[cursor..] == Concat(secs)
    ensures Ordered(content, RangesWhere(secs, cursor, hit), cursor)
    ensures Kept(content, cursor, RangesWhere(secs, cursor, hit)) == Concat(Except(secs, hit))
    decreases |secs|
  {
    if secs != [] {
      var s := secs[0];
      var end := cursor + |s|;
      DropFirst(content, cursor, s, Concat(secs[1..]));
      RangesAreOrdered(content, secs[1..], end, hit);
      OneMoreOrdered(content, s, cursor, RangesWhere(secs[1..], end, hit), Except(secs[1..], hit), hit(s));
    }
  }

  lemma OneMoreOrdered(content: string, s: string, cursor: nat, rest: seq<Range>, others: seq<string>, hit: bool)
    requires cursor + |s| <= |content| && content[cursor..cursor + |s|] == s
    requires Ordered(content, rest, cursor + |s|) && Kept(content, cursor + |s|, rest) == Concat(others)
    ensures var rs := WithRange(hit, Range(cursor, cursor + |s|), rest);
            Ordered(content, rs, cursor) && Kept(content, cursor, rs) == Concat(if hit then others else [s] + others)
  {
    if hit {
      KeptOne(content, cursor, Range(cursor, cursor + |s|), rest);
    } else {
      KeptAll(content, s, cursor, rest, others);
    }
  }

  lemma KeptAll(content: string, s: string, cursor: nat, rest: seq<Range>, others: seq<string>)
    requires cursor + |s| <= |content| && content[cursor..cursor + |s|] == s
    requires Ordered(content, rest, cursor + |s|) && Kept(content, cursor + |s|, rest) == Concat(others)
    ensures Ordered(content, rest, cursor) && Kept(content, cursor, rest) == Concat([s] + others)
  {
    KeptMore(content, cursor, cursor + |s|, rest);
    ConcatFirst(s, others);
  }

  lemma ConcatFirst(s: string, rest: seq<string>)
    ensures Concat([s] + rest) == s + Concat(rest)
  {
    assert ([s] + rest)[1..] == rest;
  }

  lemma DropFirst(content: string, cursor: nat, s: string, rest: string)
    requires cursor <= |content| && content[cursor..] == s + rest
    ensures cursor + |s| <= |content| && content[cursor..cursor + |s|] == s && content[cursor + |s|..] == rest
  {
    assert content[cursor..][..|s|] == content[cursor..cursor + |s|];
    assert content[cursor..][|s|..] == content[cursor + |s|..];
  }

  lemma KeptOne(content: string, cursor: nat, r: Range, rest: seq<Range>)
    requires r.start == cursor <= r.end && Ordered(content, rest, r.end)
    ensures Ordered(content, [r] + rest, cursor) && Kept(content, cursor, [r] + rest) == Kept(content, r.end, rest)
  {
    assert ([r] + rest)[1..] == rest;
  }

  lemma SliceSplits(content: string, a: nat, b: nat, c: nat)
    requires a <= b <= c <= |content|
    ensures content[a..c] == content[a..b] + content[b..c]
  {
  }

  lemma KeptMore(content: string, cursor: nat, cursor': nat, rest: seq<Range>)
    requires cursor <= cursor' && Ordered(content, rest, cursor')
    ensures Ordered(content, rest, cursor)
    ensures Kept(content, cursor, rest) == content[cursor..cursor'] + Kept(content, cursor', rest)
  {
    if rest == [] {
      SliceSplits(content, cursor, cursor', |content|);
    } else {
      var tail := Kept(content, rest[0].end, rest[1..]);
      SliceSplits(content, cursor, cursor', rest[0].start);
      assert content[cursor..cursor'] + content[cursor'..rest[0].start] + tail
          == content[cursor..cursor'] + (content[cursor'..rest[0].start] + tail);
    }
  }

  // ---------------------------------------------------------------- upsertTaskSection

  function InsertMarkdownSectionBefore(content: string, idx: nat, block: string): string
    requires idx <= |content|
  {
    var before := TrimNewlines(content[..idx]);
    var after := content[idx..];
    if before == "" then block + after else before + "\n\n" + block + after
  }

  function AppendMarkdownSection(content: string, block: string): string {
    var trimmed := TrimNewlines(content);
    if trimmed == "" then TrimNewlines(block) + "\n" else trimmed + "\n\n" + (TrimNewlines(block) + "\n")
  }

  lemma InsertsText(content: string, idx: nat, block: string)
    requires idx <= |content|
    ensures InsertMarkdownSectionBefore(content, idx, block) == InsertedText(content[..idx], block, content[idx..])
    ensures AppendMarkdownSection(content, block) == InsertedText(content, TrimNewlines(block) + "\n", "")
  {
    assert "\n" + "\n" == "\n\n";
    assert forall t: string :: t + "\n" + "\n" == t + "\n\n";
  }

  /** Cutting the text at section `i`. */
  lemma CutsAt(d: Doc, content: string, i: nat)
    requires content == Whole(d) && i <= |d.secs|
    ensures |Before(d, i)| <= |content| && content[..|Before(d, i)|] == Before(d, i)
    ensures content[|Before(d, i)|..] == Concat(d.secs[i..])
  {
    WholeSplits(d, i);
  }

  lemma CutsAround(d: Doc, content: string, i: nat)
    requires content == Whole(d) && i < |d.secs|
    ensures var start := |Before(d, i)|;
            var end := start + |d.secs[i]|;
            && end <= |content| && content[..start] == Before(d, i) && content[start..end] == d.secs[i]
            && content[end..] == Concat(d.secs[i + 1..])
  {
    CutsAt(d, content, i);
    DropFirst(content, |Before(d, i)|, d.secs[i], Concat(d.secs[i + 1..]));
    assert d.secs[i..][1..] == d.secs[i + 1..];
  }

  lemma CutIsWellFormed(r: Rules, content: string)
    requires Proper(r)
    ensures "" !in r.headings && Sound(EditScanner(r.headings))
    ensures WellFormed(EditScanner(r.headings), Cut(r.headings, content)) && Whole(Cut(r.headings, content)) == content
  {
    EditScannerIsSound(r.headings);
    ParseIsWellFormed(EditScanner(r.headings), content);
  }

  /** The first range found cuts out the first section headed `h`. */
  lemma FoundSection(d: Doc, content: string, h: string, i: nat)
    requires content == Whole(d) && i == IndexOf(d.secs, {h}) < |d.secs|
    ensures var rs := RangesFrom(d, 0, h);
            && rs != [] && rs[0].start <= rs[0].end <= |content|
            && content[..rs[0].start] == Before(d, i)
            && content[rs[0].start..rs[0].end] == d.secs[i]
            && content[rs[0].end..] == Concat(d.secs[i + 1..])
  {
    FirstRange(d, h, i, |Before(d, i)|);
    CutsAround(d, content, i);
  }

  lemma FoundDuplicates(d: Doc, content: string, h: string, i: nat)
    requires content == Whole(d) && i == IndexOf(d.secs, {h}) < |d.secs|
    ensures var rs := RangesFrom(d, 0, h);
            && rs != [] && Ordered(content, rs, 0)
            && Kept(content, rs[0].end, rs[1..]) == Concat(Without(d.secs[i + 1..], h))
  {
    var at := |Before(d, i)|;
    var end := at + |d.secs[i]|;
    FirstRange(d, h, i, at);
    LaterRanges(d, content, h, i, end);
    OneMoreRange(content, Range(at, end), RangesOf(d.secs[i + 1..], end, h));
  }

  lemma LaterRanges(d: Doc, content: string, h: string, i: nat, end: nat)
    requires content == Whole(d) && i < |d.secs| && end == |Before(d, i)| + |d.secs[i]|
    ensures var rest := RangesOf(d.secs[i + 1..], end, h);
            && Ordered(content, rest, end)
            && Kept(content, end, rest) == Concat(Without(d.secs[i + 1..], h))
  {
    CutsAround(d, content, i);
    RangesAreOrdered(content, d.secs[i + 1..], end, Headed(h));
  }

  lemma OneMoreRange(content: string, r: Range, rest: seq<Range>)
    requires r.start <= r.end && Ordered(content, rest, r.end)
    ensures var rs := [r] + rest;
            rs[1..] == rest && Ordered(content, rs, 0)
  {
    assert ([r] + rest)[1..] == rest;
  }

  lemma WholeOfCoalesced(d: Doc, i: nat, block: string, rest: seq<string>)
    requires i <= |d.secs|
    ensures Whole(Doc(d.pre, d.secs[..i] + [block] + rest)) == Before(d, i) + block + Concat(rest)
  {
    ConcatOfConcat(d.secs[..i] + [block], rest);
    ConcatOfConcat(d.secs[..i], [block]);
    ConcatOne(block);
  }

  lemma PutFound(r: Rules, d: Doc, h: string, block: string, i: nat)
    requires i == IndexOf(d.secs, {h}) < |d.secs|
    ensures Put(r, d, h, block)
            == if h in r.coalesced then Doc(d.pre, d.secs[..i] + [block] + Without(d.secs[i + 1..], h))
               else Replace(d, i, block)
  {
  }

  lemma WholeOfPut(r: Rules, d: Doc, h: string, block: string, i: nat)
    requires i == IndexOf(d.secs, {h}) < |d.secs|
    ensures var rest := if h in r.coalesced then Without(d.secs[i + 1..], h) else d.secs[i + 1..];
            Whole(Put(r, d, h, block)) == Before(d, i) + block + Concat(rest)
  {
    PutFound(r, d, h, block, i);
    if h in r.coalesced {
      var rest := Without(d.secs[i + 1..], h);
      WholeOfCoalesced(d, i, block, rest);
    } else {
      WholeOfReplace(d, i, block);
    }
  }

  /** What the two ways of replacing a section write. */
  lemma Replaced(r: Rules, d: Doc, content: string, h: string, block: string)
    requires content == Whole(d) && IndexOf(d.secs, {h}) < |d.secs|
    ensures var rs := RangesFrom(d, 0, h);
            && rs != [] && Ordered(content, rs, 0)
            && Whole(Put(r, d, h, block))
               == content[..rs[0].start] + block + if h in r.coalesced then Kept(content, rs[0].end, rs[1..])
                 else content[rs[0].end..]
  {
    var i := IndexOf(d.secs, {h});
    FoundSection(d, content, h, i);
    FoundDuplicates(d, content, h, i);
    WholeOfPut(r, d, h, block, i);
  }

  method ReplaceSection(r: Rules, content: string, ranges: seq<Range>, heading: string,
                        block: string) returns (out: string)
    requires Proper(r)
    requires ranges == RangesFrom(Cut(r.headings, content), 0, heading) && ranges != []
    ensures out == Whole(Put(r, Cut(r.headings, content), heading, block))
  {
    ghost var d := Cut(r.headings, content);
    CutIsWellFormed(r, content);
    if IndexOf(d.secs, {heading}) == |d.secs| {
      NoRange(d, heading);
    }
    Replaced(r, d, content, heading, block);
    if heading in r.coalesced {
      out := ReplaceAndRemoveDuplicateSections(content, ranges, block);
    } else {
      out := content[..ranges[0].start] + block + content[ranges[0].end..];
    }
  }

  lemma NewSection(r: Rules, d: Doc, content: string, h: string, block: string, j: nat)
    requires Proper(r) && d == Cut(r.headings, content) && IndexOf(d.secs, {h}) == |d.secs|
    requires j == IndexOf(d.secs, r.anchors(h))
    ensures |Before(d, j)| <= |content|
    ensures Whole(Put(r, d, h, block))
            == if j < |d.secs| then InsertMarkdownSectionBefore(content, |Before(d, j)|, block)
               else AppendMarkdownSection(content, block)
  {
    CutIsWellFormed(r, content);
    CutsAt(d, content, j);
    var block' := if j < |d.secs| then block else TrimNewlines(block) + "\n";
    WholeOfInsert(EditScanner(r.headings), d, j, block');
    InsertsText(content, |Before(d, j)|, block);
    if j == |d.secs| {
      assert d.secs[j..] == [] && content[|Before(d, j)|..] == "";
      assert content[..|Before(d, j)|] == content;
    }
  }

  method UpsertTaskSection(r: Rules, content: string, heading: string, body: string) returns (out: string)
    requires Proper(r) && heading in r.headings
    ensures out == Upserted(r, content, heading, body)
  {
    ghost var d := Cut(r.headings, content);
    CutIsWellFormed(r, content);
    var block := Block(heading, body);
    var ranges := FindMarkdownSections(r.headings, content, heading);
    if ranges != [] {
      out := ReplaceSection(r, content, ranges, heading, block);
      return;
    }
    if IndexOf(d.secs, {heading}) < |d.secs| {
      FoundSection(d, content, heading, IndexOf(d.secs, {heading}));
    }
    NewSection(r, d, content, heading, block, IndexOf(d.secs, r.anchors(heading)));
    var idx, ok := FindFirstMarkdownHeading(r.headings, content, r.anchors(heading));
    if ok {
      out := InsertMarkdownSectionBefore(content, idx, block);
    } else {
      out := AppendMarkdownSection(content, block);
    }
  }
}
