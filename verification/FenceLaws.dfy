/** upsertTaskSection's laws, with texts that end inside an open code fence. */
module FenceLaws {
  import opened Text
  import opened Outline
  import opened Sections
  import opened Upsert
  import opened SectionLaws

  // What is appended inside a fence is not a section but more of the fenced text. The laws at
  // the end give the exact conditions, for every text.

  /** Every fence of the text is closed again. */
  predicate EndsOutside(r: Rules, content: string) { !After(EditScanner(r.headings), false, content) }

  /** The outline of the text with exactly one blank line at its end. */
  function SpacedEnd(d: Doc): Doc {
    if d.secs == [] then Doc(Spaced(d.pre), []) else Replace(d, |d.secs| - 1, Spaced(d.secs[|d.secs| - 1]))
  }

  lemma OpenIsNotBlank(sc: Scanner<bool>, s: string)
    requires Sound(sc) && After(sc, sc.start, s) != sc.start
    ensures TrimNewlines(s) != ""
  {
    if TrimNewlines(s) == "" {
      var n := TrimNewlinesSplits(s, "\n");
      assert IgnoresBlank(sc, sc.start, "\n");
      BlankLines(sc, sc.start, n, "\n");
      BlankText(s, n);
    }
  }

  lemma BlankText(s: string, n: nat)
    requires if n == 0 then s == "" else s == "\n" + Newlines(n - 1)
    ensures s == Newlines(n)
  {
  }

  lemma LastIsWhole(d: Doc)
    requires d.secs != []
    ensures Before(d, |d.secs|) == Whole(d) && Whole(d) == Before(d, |d.secs| - 1) + d.secs[|d.secs| - 1]
  {
    BeforeNext(d, |d.secs| - 1);
    assert d.secs[..|d.secs|] == d.secs;
  }

  lemma SpacedEndIsSpaced(d: Doc)
    requires d.secs != [] ==> TrimNewlines(d.secs[|d.secs| - 1]) != ""
    ensures Whole(SpacedEnd(d)) == Spaced(Whole(d))
  {
    var n := |d.secs|;
    if n > 0 {
      var last := Spaced(d.secs[n - 1]);
      SpacedBefore(d, n);
      LastIsWhole(d);
      WholeOfReplace(d, n - 1, last);
      NothingAfter(d, Before(d, n - 1) + last);
    } else {
      WholeOfPlain(d.pre);
      WholeOfPlain(Spaced(d.pre));
    }
  }

  lemma NothingAfter(d: Doc, s: string)
    ensures s + Concat(d.secs[|d.secs|..]) == s
  {
  }

  lemma SpacedEndIsParsed(sc: Scanner<bool>, d: Doc)
    requires Sound(sc) && WellFormed(sc, d)
    ensures Parse(sc, sc.start, Whole(SpacedEnd(d))) == SpacedEnd(d)
    ensures Whole(SpacedEnd(d)) == Spaced(Whole(d))
  {
    if d.secs == [] {
      SpacedKeepsTheOutline(sc, d.pre);
      WholeOfPlain(Spaced(d.pre));
      WholeOfPlain(d.pre);
    } else {
      var last := d.secs[|d.secs| - 1];
      SectionIsNotBlank(sc, d, |d.secs| - 1);
      SpacedSection(sc, last);
      SpacedLast(sc, d, Spaced(last));
      SpacedEndIsSpaced(d);
    }
  }

  lemma WholeOfPlain(s: string)
    ensures Whole(Doc(s, [])) == s
  {
  }

  lemma SpacedLast(sc: Scanner<bool>, d: Doc, last: string)
    requires WellFormed(sc, d) && d.secs != [] && OneSection(sc, last)
    ensures var d' := Replace(d, |d.secs| - 1, last); Parse(sc, sc.start, Whole(d')) == d'
  {
    ReplaceIsWellFormed(sc, d, |d.secs| - 1, last);
  }

  /** What is appended to a text that ends inside a fence goes on with its last part. */
  lemma AppendedOutline(sc: Scanner<bool>, d: Doc, content: string, x: string)
    requires Sound(sc) && WellFormed(sc, d) && content == Whole(d) && sc.start == false
    requires After(sc, false, content) == true
    ensures Parse(sc, false, Spaced(content) + x) == Glue(SpacedEnd(d), Parse(sc, true, x))
  {
    OpenIsNotBlank(sc, content);
    SpacedEndIsParsed(sc, d);
    SpacedKeepsTheOutline(sc, content);
    ParseConcat(sc, false, Spaced(content), x);
  }

  /** The parts of an outline that goes on with `b`. */
  lemma GluedParts(a: Doc, b: Doc)
    ensures var d, n := Glue(a, b), |a.secs|;
            && n <= |d.secs|
            && Before(d, n) == Whole(a) + b.pre
            && (n == 0 ==> d.pre == a.pre + b.pre)
            && (n > 0 ==> d.pre == a.pre && d.secs[n - 1] == a.secs[n - 1] + b.pre)
            && (forall k :: 0 <= k < n - 1 ==> d.secs[k] == a.secs[k])
  {
    var d, n, g := Glue(a, b), |a.secs|, Glue(a, Doc(b.pre, []));
    GlueTail(a, b.pre);
    assert d.secs[..n] == g.secs && d.pre == g.pre;
  }

  lemma {:induction false} BeforeGrows(d: Doc, i: nat, j: nat)
    requires i <= j <= |d.secs|
    ensures Before(d, i) <= Before(d, j)
  {
    if i < j {
      BeforeGrows(d, i, j - 1);
      BeforeNext(d, j - 1);
    }
  }

  /** The heading line at the front of what is appended starts no section inside a fence. */
  lemma HeadingIsSwallowed(sc: Scanner<bool>, hs: set<string>, h: string, rest: string)
    requires sc == EditScanner(hs) && IsHeading(h)
    ensures h <= Parse(sc, true, h + "\n" + rest).pre
  {
    OneLine(h);
    LineThen(sc, true, h + "\n", rest);
  }

  lemma AppendedStartsWith(h: string, body: string) returns (rest: string)
    requires IsHeading(h)
    ensures TrimNewlines(Block(h, body)) + "\n" == h + "\n" + rest
  {
    BlockSplits(h, body);
    rest := TrimmedAfter(h, "\n" + (body + "\n\n"), "\n");
  }

  lemma TrimmedAfter(h: string, tail: string, nl: string) returns (rest: string)
    requires IsHeading(h) && nl == "\n"
    ensures TrimNewlines(h + nl + tail) + nl == h + nl + rest
  {
    TrimNewlinesOfConcat(h + nl, tail);
    if TrimNewlines(tail) == "" {
      rest := "";
      assert (h + nl)[..|h|] == h;
      assert h + nl + "" == h + nl;
    } else {
      rest := TrimNewlines(tail) + nl;
      assert (h + nl + TrimNewlines(tail)) + nl == h + nl + (TrimNewlines(tail) + nl);
    }
  }

  // ---------------------------------------------------------------- what the second write finds

  lemma NoneBefore(d: Doc, d': Doc, hs: set<string>)
    requires IndexOf(d.secs, hs) == |d.secs| <= |d'.secs|
    requires forall k :: 0 <= k < |d.secs| ==> Name(d'.secs[k]) == Name(d.secs[k])
    ensures IndexOf(d'.secs, hs) >= |d.secs|
  {
    IndexOfIsFirst(d.secs, hs);
    IndexOfIsFirst(d'.secs, hs);
    var i := IndexOf(d'.secs, hs);
    if i < |d.secs| {
      assert Name(d'.secs[i]) == Name(d.secs[i]);
    }
  }

  /** What goes on with the text in `d` leaves its sections' headings. */
  lemma NamesStay(sc: Scanner<bool>, d: Doc, b: Doc, k: nat)
    requires Sound(sc) && WellFormed(sc, d) && k < |d.secs|
    ensures k < |Glue(SpacedEnd(d), b).secs| && Name(Glue(SpacedEnd(d), b).secs[k]) == Name(d.secs[k])
  {
    SectionIsNotBlank(sc, d, |d.secs| - 1);
    NameInPlace(d, b, k);
  }

  lemma NameInPlace(d: Doc, b: Doc, k: nat)
    requires k < |d.secs| && TrimNewlines(d.secs[|d.secs| - 1]) != ""
    ensures k < |Glue(SpacedEnd(d), b).secs| && Name(Glue(SpacedEnd(d), b).secs[k]) == Name(d.secs[k])
  {
    GluedParts(SpacedEnd(d), b);
    if k == |d.secs| - 1 {
      NameStays(d.secs[k], b.pre);
    }
  }

  lemma SectionIsNotBlank(sc: Scanner<bool>, d: Doc, k: nat)
    requires Sound(sc) && WellFormed(sc, d) && k < |d.secs|
    ensures TrimNewlines(d.secs[k]) != ""
  {
    SectionHasText(sc, d.secs[k]);
  }

  lemma SectionHasText(sc: Scanner<bool>, s: string)
    requires Sound(sc) && OneSection(sc, s)
    ensures TrimNewlines(s) != ""
  {
    SpacedSection(sc, s);
  }

  lemma NameStays(s: string, tail: string)
    requires TrimNewlines(s) != ""
    ensures Name(Spaced(s) + tail) == Name(s)
  {
    NameOfTrimmed(s, "\n" + tail);
    assert Spaced(s) + tail == TrimNewlines(s) + "\n" + ("\n" + tail);
  }

  /** The outline after an append inside a fence: all that was there is still there, up to a
      last part that has swallowed the new heading. */
  lemma Swallowed(r: Rules, content: string, h: string, body: string) returns (b: Doc, x: string)
    requires Proper(r) && h in r.headings && WellFormedBody(EditScanner(r.headings), body)
    requires !Placed(r, Cut(r.headings, content), h) && !EndsOutside(r, content)
    ensures x == TrimNewlines(Block(h, body)) + "\n" && |x| < |Block(h, body)| && h <= b.pre
    ensures Upserted(r, content, h, body) == Spaced(content) + x
    ensures Cut(r.headings, Spaced(content) + x) == Glue(SpacedEnd(Cut(r.headings, content)), b)
  {
    var sc, d := EditScanner(r.headings), Cut(r.headings, content);
    x := TrimNewlines(Block(h, body)) + "\n";
    b := Parse(sc, true, x);
    CutIsWellFormed(r, content);
    BlockEndsBlank(h, body);
    var rest := AppendedStartsWith(h, body);
    HeadingIsSwallowed(sc, r.headings, h, rest);
    AppendedOutline(sc, d, content, x);
    NewSection(r, d, content, h, Block(h, body), |d.secs|);
    InsertsText(content, |content|, Block(h, body));
    assert Spaced(content) + x + "" == Spaced(content) + x;
  }

  /** The sections that a second write looks for can only lie in what the first one appended. */
  lemma FoundInTheTail(r: Rules, content: string, b: Doc, hs: set<string>)
    requires Proper(r) && IndexOf(Cut(r.headings, content).secs, hs) == |Cut(r.headings, content).secs|
    ensures var d := Glue(SpacedEnd(Cut(r.headings, content)), b);
            Spaced(content) + b.pre <= Before(d, IndexOf(d.secs, hs))
  {
    var sc, d := EditScanner(r.headings), Cut(r.headings, content);
    var d' := Glue(SpacedEnd(d), b);
    CutIsWellFormed(r, content);
    forall k | 0 <= k < |d.secs|
      ensures k < |d'.secs| && Name(d'.secs[k]) == Name(d.secs[k])
    {
      NamesStay(sc, d, b, k);
    }
    SpacedEndIsParsed(sc, d);
    GluedParts(SpacedEnd(d), b);
    NoneBefore(d, d', hs);
    BeforeGrows(d', |d.secs|, IndexOf(d'.secs, hs));
  }

  // ---------------------------------------------------------------- the laws

  lemma LongerPut(r: Rules, d: Doc, h: string, block: string, a: string, x: string)
    requires a + h <= Before(d, IndexOf(d.secs, {h})) && a + h <= Before(d, IndexOf(d.secs, r.anchors(h)))
    requires Whole(d) == a + x && x == TrimNewlines(block) + "\n" && |x| < |block| && IsHeading(h)
    requires IndexOf(d.secs, {h}) == |d.secs| ==> Insertable(r, d, h, block)
    ensures |Whole(Put(r, d, h, block))| > |a + x|
  {
    var i, j := IndexOf(d.secs, {h}), IndexOf(d.secs, r.anchors(h));
    if i < |d.secs| {
      PutInstead(r, d, h, block);
    } else {
      SpacedIsNoShorter(a, h, Before(d, j));
    }
  }

  /** Where a missing section goes, as a text. */
  predicate Insertable(r: Rules, d: Doc, h: string, block: string) {
    var j := IndexOf(d.secs, r.anchors(h));
    var b := if j < |d.secs| then block else TrimNewlines(block) + "\n";
    |Whole(Put(r, d, h, block))| >= |Spaced(Before(d, j))| + |b|
  }

  lemma PutInstead(r: Rules, d: Doc, h: string, block: string)
    requires IndexOf(d.secs, {h}) < |d.secs|
    ensures |Whole(Put(r, d, h, block))| >= |Before(d, IndexOf(d.secs, {h}))| + |block|
  {
    var i := IndexOf(d.secs, {h});
    WholeOfReplace(d, i, block);
    WholeOfCoalesced(d, i, block, Without(d.secs[i + 1..], h));
  }

  lemma SpacedIsNoShorter(a: string, h: string, s: string)
    requires IsHeading(h) && a + h <= s
    ensures |Spaced(s)| >= |a + h| + 2
  {
    var t := s[|a + h|..];
    assert s == (a + h) + t;
    TrimNewlinesOfConcat(a + h, t);
    assert (a + h)[|a + h| - 1] == h[|h| - 1];
  }

  lemma IsInsertable(r: Rules, content: string, h: string, block: string)
    requires Proper(r) && IndexOf(Cut(r.headings, content).secs, {h}) == |Cut(r.headings, content).secs|
    ensures Insertable(r, Cut(r.headings, content), h, block)
  {
    var d := Cut(r.headings, content);
    var j := IndexOf(d.secs, r.anchors(h));
    CutIsWellFormed(r, content);
    WholeOfInsert(EditScanner(r.headings), d, j, if j < |d.secs| then block else TrimNewlines(block) + "\n");
  }

  /** A section that is appended inside a fence is not found there: the second write writes
      it once more. */
  lemma SwallowedTwice(r: Rules, content: string, h: string, body: string)
    requires Proper(r) && h in r.headings && WellFormedBody(EditScanner(r.headings), body)
    requires !Placed(r, Cut(r.headings, content), h) && !EndsOutside(r, content)
    ensures |Upserted(r, Upserted(r, content, h, body), h, body)| > |Upserted(r, content, h, body)|
  {
    var b, x := Swallowed(r, content, h, body);
    var a, text := Spaced(content), Spaced(content) + x;
    FoundInTheTail(r, content, b, {h});
    FoundInTheTail(r, content, b, r.anchors(h));
    CutIsWellFormed(r, text);
    if IndexOf(Cut(r.headings, text).secs, {h}) == |Cut(r.headings, text).secs| {
      IsInsertable(r, text, h, Block(h, body));
    }
    LongerPut(r, Cut(r.headings, text), h, Block(h, body), a, x);
  }

  /** A second call with the same body writes the same text exactly when the first one did
      not have to append the section. */
  lemma UpsertTwice(r: Rules, content: string, h: string, body: string)
    requires Proper(r) && h in r.headings && WellFormedBody(EditScanner(r.headings), body)
    ensures Upserted(r, Upserted(r, content, h, body), h, body) == Upserted(r, content, h, body)
            <==> Placed(r, Cut(r.headings, content), h)
  {
    if Placed(r, Cut(r.headings, content), h) || EndsOutside(r, content) {
      UpsertTwiceOutside(r, content, h, body);
    } else {
      SwallowedTwice(r, content, h, body);
    }
  }

  lemma LongerIsUnlike(s: string, h: string, tail: string)
    requires IsHeading(h) && h <= tail
    ensures !Alike(s, Spaced(s) + tail) && Spaced(s) + tail != Spaced(s)
  {
    SpacedIsNoShorter(Spaced(s), h, Spaced(s) + tail);
    assert Spaced(s) + h <= Spaced(s) + tail;
    var t := TrimNewlines(Spaced(s) + tail);
    assert |Spaced(Spaced(s) + tail)| <= |t| + 2;
    assert |TrimNewlines(s)| <= |Spaced(s)|;
  }

  lemma SwallowedParts(sc: Scanner<bool>, d: Doc, b: Doc, h: string)
    requires Sound(sc) && WellFormed(sc, d) && IsHeading(h) && h <= b.pre
    requires IndexOf(d.secs, {h}) == |d.secs|
    ensures !OthersAlike(d, Glue(SpacedEnd(d), b), h)
  {
    if d.secs == [] {
      GluedParts(SpacedEnd(d), b);
      LongerIsUnlike(d.pre, h, b.pre);
    } else {
      SectionIsNotBlank(sc, d, |d.secs| - 1);
      SwallowedSections(d, b, h);
    }
  }

  lemma SwallowedSections(d: Doc, b: Doc, h: string)
    requires d.secs != [] && TrimNewlines(d.secs[|d.secs| - 1]) != "" && IsHeading(h) && h <= b.pre
    requires IndexOf(d.secs, {h}) == |d.secs|
    ensures !OthersAlike(d, Glue(SpacedEnd(d), b), h)
  {
    var d', n := Glue(SpacedEnd(d), b), |d.secs|;
    GluedParts(SpacedEnd(d), b);
    LongerIsUnlike(d.secs[n - 1], h, b.pre);
    IndexOfIsFirst(d.secs, {h});
    forall k | 0 <= k < n
      ensures Name(d'.secs[k]) != h
    {
      NameInPlace(d, b, k);
    }
    LastIsKept(d.secs, d'.secs, h);
  }

  lemma LastIsKept(secs: seq<string>, secs': seq<string>, h: string)
    requires 0 < |secs| <= |secs'| && NoneNamed(secs, h) && NoneNamed(secs'[..|secs|], h)
    requires !Alike(secs[|secs| - 1], secs'[|secs| - 1])
    ensures !AllAlike(Without(secs, h), Without(secs', h))
  {
    var n := |secs|;
    NoneNamedStays(secs, h);
    WithoutPrefix(secs'[..n], secs'[n..], h);
    assert secs' == secs'[..n] + secs'[n..];
    assert Without(secs', h)[n - 1] == secs'[n - 1];
  }

  /** Every other section, and the text before the first one, is kept, in order, but for
      newlines at the splice, if and only if the section is placed or no fence is open at the
      end of the text; otherwise the last part goes on with the new text. When the section was
      there already, they are kept to the letter. */
  lemma OthersKeptIff(r: Rules, content: string, h: string, body: string)
    requires Proper(r) && h in r.headings && WellFormedBody(EditScanner(r.headings), body)
    ensures OthersAlike(Cut(r.headings, content), Cut(r.headings, Upserted(r, content, h, body)), h)
            <==> Placed(r, Cut(r.headings, content), h) || EndsOutside(r, content)
    ensures var d, d' := Cut(r.headings, content), Cut(r.headings, Upserted(r, content, h, body));
            IndexOf(d.secs, {h}) < |d.secs| ==> d.pre == d'.pre && Without(d.secs, h) == Without(d'.secs, h)
  {
    if Placed(r, Cut(r.headings, content), h) || EndsOutside(r, content) {
      OthersKept(r, content, h, body);
    } else {
      var b, x := Swallowed(r, content, h, body);
      CutIsWellFormed(r, content);
      SwallowedParts(EditScanner(r.headings), Cut(r.headings, content), b, h);
    }
  }

  /** Likewise, parsing the new text gives the edited outline exactly then. */
  lemma UpsertedOutlineIff(r: Rules, content: string, h: string, body: string)
    requires Proper(r) && h in r.headings && WellFormedBody(EditScanner(r.headings), body)
    ensures Cut(r.headings, Upserted(r, content, h, body)) == Put(r, Cut(r.headings, content), h, Block(h, body))
            <==> Placed(r, Cut(r.headings, content), h) || EndsOutside(r, content)
  {
    if Placed(r, Cut(r.headings, content), h) || EndsOutside(r, content) {
      UpsertedOutline(r, content, h, body);
    } else {
      var d := Cut(r.headings, content);
      var b, x := Swallowed(r, content, h, body);
      NotInserted(d, b, h, x);
    }
  }

  lemma NotInserted(d: Doc, b: Doc, h: string, x: string)
    requires IsHeading(h) && h <= b.pre
    ensures Glue(SpacedEnd(d), b) != Insert(d, |d.secs|, x)
  {
    var n := |d.secs|;
    GluedParts(SpacedEnd(d), b);
    LongerIsUnlike(if n == 0 then d.pre else d.secs[n - 1], h, b.pre);
    if n > 0 {
      assert Insert(d, n, x).secs[n - 1] == Spaced(d.secs[n - 1]);
    }
  }
}
