/** What findMarkdownSections finds: ordered, disjoint ranges, each exactly one section, that
    start and end outside code fences. */
module FinderLaws {
  import opened Outline
  import opened Sections
  import opened Upsert

  /** A range is one section headed `h`, and starts and ends outside code fences, except that
      the last section of the text may end inside one. */
  predicate CutsOutASection(sc: Scanner<bool>, content: string, x: Range, h: string) {
    && x.start <= x.end <= |content|
    && OneSection(sc, content[x.start..x.end]) && Name(content[x.start..x.end]) == h
    && Closed(sc, content[..x.start])
    && (x.end < |content| ==> Closed(sc, content[..x.end]))
  }

  lemma {:induction false} BeforeIsClosed(sc: Scanner<bool>, d: Doc, j: nat)
    requires WellFormed(sc, d) && j < |d.secs|
    ensures Closed(sc, Before(d, j))
    decreases j
  {
    if j == 0 {
      assert d.secs[..0] == [] && Before(d, 0) == d.pre;
    } else {
      BeforeIsClosed(sc, d, j - 1);
      ClosedNext(sc, d, j - 1);
    }
  }

  lemma ClosedNext(sc: Scanner<bool>, d: Doc, j: nat)
    requires j < |d.secs| && Closed(sc, Before(d, j)) && Closed(sc, d.secs[j])
    ensures Closed(sc, Before(d, j + 1))
  {
    BeforeNext(d, j);
    ClosedConcat(sc, Before(d, j), d.secs[j]);
  }

  lemma ClosedConcat(sc: Scanner<bool>, a: string, b: string)
    requires Closed(sc, a) && Closed(sc, b)
    ensures Closed(sc, a + b)
  {
    ParseConcat(sc, sc.start, a, b);
  }

  lemma BeforeIsCut(sc: Scanner<bool>, content: string, d: Doc, j: nat, at: nat)
    requires WellFormed(sc, d) && content == Whole(d) && j < |d.secs| && at == |Before(d, j)|
    ensures at <= |content| && Closed(sc, content[..at])
  {
    CutsAt(d, content, j);
    BeforeIsClosed(sc, d, j);
  }

  lemma SectionRangeIsGood(sc: Scanner<bool>, content: string, d: Doc, i: nat, x: Range, h: string)
    requires WellFormed(sc, d) && content == Whole(d) && i < |d.secs| && Name(d.secs[i]) == h
    requires x.start == |Before(d, i)| && x.end == x.start + |d.secs[i]|
    ensures CutsOutASection(sc, content, x, h)
  {
    CutsTheSection(sc, content, d, i, x.start, x.end, h);
    BeforeIsCut(sc, content, d, i, x.start);
    EndIsCut(sc, content, d, i, x.end);
  }

  lemma CutsTheSection(sc: Scanner<bool>, content: string, d: Doc, i: nat, start: nat, end: nat, h: string)
    requires WellFormed(sc, d) && content == Whole(d) && i < |d.secs| && Name(d.secs[i]) == h
    requires start == |Before(d, i)| && end == start + |d.secs[i]|
    ensures end <= |content| && OneSection(sc, content[start..end]) && Name(content[start..end]) == h
  {
    CutsAround(d, content, i);
    assert content[start..end] == d.secs[i];
  }

  lemma EndIsCut(sc: Scanner<bool>, content: string, d: Doc, i: nat, end: nat)
    requires WellFormed(sc, d) && content == Whole(d) && i < |d.secs| && end == |Before(d, i)| + |d.secs[i]|
    ensures end <= |content| && (end < |content| ==> Closed(sc, content[..end]))
  {
    if i + 1 < |d.secs| {
      BeforeNext(d, i);
      BeforeIsCut(sc, content, d, i + 1, end);
    } else {
      CutsLast(d, content, i);
    }
  }

  lemma CutsLast(d: Doc, content: string, i: nat)
    requires content == Whole(d) && i == |d.secs| - 1
    ensures |Before(d, i)| + |d.secs[i]| == |content|
  {
    BeforeNext(d, i);
    assert d.secs[..i + 1] == d.secs;
  }

  predicate AllCutOut(sc: Scanner<bool>, content: string, rs: seq<Range>, h: string) {
    forall x :: x in rs ==> CutsOutASection(sc, content, x, h)
  }

  function RangeAt(secs: seq<string>, base: nat, i: nat): Range
    requires i < |secs|
  {
    var at := base + |Concat(secs[..i])|;
    Range(at, at + |secs[i]|)
  }

  /** What holds of the range of every section that is picked holds of every range. */
  lemma {:induction false} AllRanges(secs: seq<string>, i: nat, base: nat, hit: string -> bool, good: Range -> bool)
    requires i <= |secs|
    requires forall k :: i <= k < |secs| && hit(secs[k]) ==> good(RangeAt(secs, base, k))
    ensures forall x :: x in RangesWhere(secs[i..], base + |Concat(secs[..i])|, hit) ==> good(x)
    decreases |secs| - i
  {
    if i < |secs| {
      AllRanges(secs, i + 1, base, hit, good);
      ConcatNext(secs, i);
      RangesFromHere(secs, i, base + |Concat(secs[..i])|, hit);
    }
  }

  function Cutting(sc: Scanner<bool>, content: string, h: string): Range -> bool {
    (x: Range) => CutsOutASection(sc, content, x, h)
  }

  lemma SectionIsCutOut(sc: Scanner<bool>, content: string, x: Range, h: string)
    requires CutsOutASection(sc, content, x, h)
    ensures Cutting(sc, content, h)(x)
  {
  }

  lemma AreCutOut(sc: Scanner<bool>, content: string, rs: seq<Range>, h: string)
    requires forall x :: x in rs ==> Cutting(sc, content, h)(x)
    ensures AllCutOut(sc, content, rs, h)
  {
    forall x | x in rs
      ensures CutsOutASection(sc, content, x, h)
    {
      assert Cutting(sc, content, h)(x);
    }
  }

  lemma RangesAreGood(sc: Scanner<bool>, content: string, d: Doc, h: string)
    requires WellFormed(sc, d) && content == Whole(d)
    ensures AllCutOut(sc, content, RangesFrom(d, 0, h), h)
  {
    forall i | 0 <= i < |d.secs| && Headed(h)(d.secs[i])
      ensures Cutting(sc, content, h)(RangeAt(d.secs, |d.pre|, i))
    {
      SectionRangeIsGood(sc, content, d, i, RangeAt(d.secs, |d.pre|, i), h);
      SectionIsCutOut(sc, content, RangeAt(d.secs, |d.pre|, i), h);
    }
    PickedRanges(d.secs, |d.pre|, Headed(h), Cutting(sc, content, h));
    AreCutOut(sc, content, RangesFrom(d, 0, h), h);
  }

  lemma PickedRanges(secs: seq<string>, base: nat, hit: string -> bool, good: Range -> bool)
    requires forall k :: 0 <= k < |secs| && hit(secs[k]) ==> good(RangeAt(secs, base, k))
    ensures forall x :: x in RangesWhere(secs, base, hit) ==> good(x)
  {
    SkipNone(secs);
    AllRanges(secs, 0, base, hit, good);
  }

  /** The finder's ranges are ordered and disjoint, and each is one whole section. */
  lemma FinderCutsOutSections(r: Rules, content: string, h: string)
    requires Proper(r)
    ensures Ordered(content, RangesFrom(Cut(r.headings, content), 0, h), 0)
    ensures AllCutOut(EditScanner(r.headings), content, RangesFrom(Cut(r.headings, content), 0, h), h)
  {
    var d := Cut(r.headings, content);
    CutIsWellFormed(r, content);
    RangesAreGood(EditScanner(r.headings), content, d, h);
    assert d.secs[..0] == [] && Before(d, 0) == d.pre && d.secs[0..] == d.secs;
    CutsAt(d, content, 0);
    RangesAreOrdered(content, d.secs, |d.pre|, Headed(h));
    OrderedFromEarlier(content, RangesOf(d.secs, |d.pre|, h), |d.pre|);
  }

  lemma OrderedFromEarlier(content: string, rs: seq<Range>, cursor: nat)
    requires Ordered(content, rs, cursor)
    ensures Ordered(content, rs, 0)
  {
  }
}
