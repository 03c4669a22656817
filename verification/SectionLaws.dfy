/** What upsertTaskSection promises: what the finder returns afterwards, what has not changed,
    and when a second call changes nothing. */
module SectionLaws {
  import opened Text
  import opened Outline
  import opened Sections
  import opened Upsert

  /** The body starts no managed section of its own and closes its fences. */
  predicate WellFormedBody(sc: Scanner<bool>, body: string) {
    Plain(sc, body + "\n\n") && After(sc, sc.start, body + "\n\n") == sc.start
  }

  /** The text holds the section already, or one to put it in front of. */
  predicate Placed(r: Rules, d: Doc, h: string) {
    IndexOf(d.secs, {h}) < |d.secs| || IndexOf(d.secs, r.anchors(h)) < |d.secs|
  }

  // ---------------------------------------------------------------- the block

  lemma HeadingThen(sc: Scanner<bool>, hs: set<string>, h: string, rest: string)
    requires sc == EditScanner(hs) && IsHeading(h) && h in hs && Plain(sc, rest)
    ensures OneSection(sc, h + "\n" + rest) && Name(h + "\n" + rest) == h
    ensures After(sc, false, h + "\n" + rest) == After(sc, false, rest)
  {
    var l := h + "\n";
    OneLine(h);
    TrimIgnoresLineEnd(h);
    LineThen(sc, false, l, rest);
    NameOfSection(l, rest);
  }

  lemma BlankThen(sc: Scanner<bool>, rest: string, nl: string)
    requires IgnoresBlank(sc, sc.start, nl) && nl == "\n" && Plain(sc, rest)
    ensures Plain(sc, nl + rest) && After(sc, sc.start, nl + rest) == After(sc, sc.start, rest)
  {
    assert FirstLine(nl) == nl;
    LineThen(sc, sc.start, nl, rest);
  }

  lemma BlockSplits(h: string, body: string)
    ensures Block(h, body) == h + "\n" + ("\n" + (body + "\n\n"))
  {
    assert h + "\n\n" == h + "\n" + "\n";
  }

  lemma BlockIsOneSection(r: Rules, sc: Scanner<bool>, h: string, body: string)
    requires Proper(r) && sc == EditScanner(r.headings) && h in r.headings && WellFormedBody(sc, body)
    ensures OneSection(sc, Block(h, body)) && Closed(sc, Block(h, body)) && Name(Block(h, body)) == h
  {
    BlockSplits(h, body);
    BlockFrom(r, sc, h, body + "\n\n", "\n");
  }

  lemma BlockFrom(r: Rules, sc: Scanner<bool>, h: string, rest: string, nl: string)
    requires Proper(r) && sc == EditScanner(r.headings) && h in r.headings && nl == "\n"
    requires Plain(sc, rest) && Closed(sc, rest)
    ensures var b := h + nl + (nl + rest);
            OneSection(sc, b) && Closed(sc, b) && Name(b) == h
  {
    EditScannerIsSound(r.headings);
    assert IgnoresBlank(sc, sc.start, nl);
    BlankThen(sc, rest, nl);
    HeadingThen(sc, r.headings, h, nl + rest);
  }

  /** A section's heading is the same whatever newlines end it. */
  lemma NameOfTrimmed(s: string, tail: string)
    requires TrimNewlines(s) != ""
    ensures Name(TrimNewlines(s) + "\n" + tail) == Name(s)
  {
    var t := TrimNewlines(s);
    var n := TrimNewlinesSplits(s, "\n");
    if IndexNewline(t) >= 0 {
      SameFirstLine(t, s[|t|..]);
      SameFirstLine(t, "\n" + tail);
      assert s == t + s[|t|..] && t + "\n" + tail == t + ("\n" + tail);
    } else {
      FirstNewline(t);
      OneLine(t);
      TrimIgnoresLineEnd(t);
      FirstOfLine(t + "\n", tail);
      if n > 0 {
        FirstOfLine(t + "\n", Newlines(n - 1));
      }
    }
  }

  /** What is appended when there is nothing to put the section in front of. */
  lemma AppendedIsOneSection(r: Rules, sc: Scanner<bool>, h: string, body: string)
    requires Proper(r) && sc == EditScanner(r.headings) && h in r.headings && WellFormedBody(sc, body)
    ensures var t := TrimNewlines(Block(h, body)) + "\n";
            OneSection(sc, t) && Name(t) == h && |t| < |Block(h, body)|
  {
    var b := Block(h, body);
    EditScannerIsSound(r.headings);
    BlockIsOneSection(r, sc, h, body);
    SpacedSection(sc, b);
    TrimKeepsTheOutline(sc, b, "\n");
    NameOfTrimmed(b, "");
    assert TrimNewlines(b) + "\n" + "" == TrimNewlines(b) + "\n";
    BlockEndsBlank(h, body);
  }

  lemma BlockEndsBlank(h: string, body: string)
    ensures |TrimNewlines(Block(h, body))| + 2 <= |Block(h, body)|
  {
    var b := Block(h, body);
    assert b[|b| - 1] == '\n' && b[..|b| - 1][|b| - 2] == '\n';
  }

  // ---------------------------------------------------------------- the edited outline is what is parsed

  lemma {:induction false} WithoutIsWellFormed(sc: Scanner<bool>, secs: seq<string>, h: string)
    requires WellFormed(sc, Doc("", secs))
    ensures WellFormed(sc, Doc("", Without(secs, h)))
  {
    if secs != [] {
      assert WellFormed(sc, Doc("", secs[1..]));
      WithoutIsWellFormed(sc, secs[1..], h);
      if Name(secs[0]) != h {
        OneMoreSection(sc, secs[0], Without(secs[1..], h));
      }
    }
  }

  lemma CoalescedIsWellFormed(sc: Scanner<bool>, d: Doc, i: nat, block: string, rest: seq<string>)
    requires WellFormed(sc, d) && i < |d.secs| && OneSection(sc, block) && Closed(sc, block)
    requires WellFormed(sc, Doc("", rest))
    ensures WellFormed(sc, Doc(d.pre, d.secs[..i] + [block] + rest))
  {
    var secs := d.secs[..i] + [block] + rest;
    forall k | 0 <= k < |secs|
      ensures OneSection(sc, secs[k]) && (k < |secs| - 1 ==> Closed(sc, secs[k]))
    {
      assert secs[k] == if k < i then d.secs[k] else if k == i then block else rest[k - i - 1];
    }
  }

  lemma TailIsWellFormed(sc: Scanner<bool>, d: Doc, i: nat)
    requires WellFormed(sc, d) && i <= |d.secs|
    ensures WellFormed(sc, Doc("", d.secs[i..]))
  {
  }

  lemma FoundIsWellFormed(r: Rules, sc: Scanner<bool>, d: Doc, h: string, block: string)
    requires WellFormed(sc, d) && OneSection(sc, block) && Closed(sc, block) && IndexOf(d.secs, {h}) < |d.secs|
    ensures WellFormed(sc, Put(r, d, h, block))
  {
    var i := IndexOf(d.secs, {h});
    PutFound(r, d, h, block, i);
    if h in r.coalesced {
      TailIsWellFormed(sc, d, i + 1);
      WithoutIsWellFormed(sc, d.secs[i + 1..], h);
      CoalescedIsWellFormed(sc, d, i, block, Without(d.secs[i + 1..], h));
    } else {
      ReplaceIsWellFormed(sc, d, i, block);
    }
  }

  lemma PutIsWellFormed(r: Rules, sc: Scanner<bool>, d: Doc, h: string, body: string)
    requires Proper(r) && sc == EditScanner(r.headings) && h in r.headings && WellFormedBody(sc, body)
    requires WellFormed(sc, d) && (!Placed(r, d, h) ==> After(sc, false, Whole(d)) == false)
    ensures WellFormed(sc, Put(r, d, h, Block(h, body)))
  {
    EditScannerIsSound(r.headings);
    BlockIsOneSection(r, sc, h, body);
    if IndexOf(d.secs, {h}) < |d.secs| {
      FoundIsWellFormed(r, sc, d, h, Block(h, body));
    } else if Placed(r, d, h) {
      InsertIsWellFormed(sc, d, IndexOf(d.secs, r.anchors(h)), Block(h, body));
    } else {
      AppendedIsOneSection(r, sc, h, body);
      InsertIsWellFormed(sc, d, |d.secs|, TrimNewlines(Block(h, body)) + "\n");
    }
  }

  /** Parsing the new text gives the edited outline. */
  lemma UpsertedOutline(r: Rules, content: string, h: string, body: string)
    requires Proper(r) && h in r.headings && WellFormedBody(EditScanner(r.headings), body)
    requires !Placed(r, Cut(r.headings, content), h) ==> After(EditScanner(r.headings), false, content) == false
    ensures Cut(r.headings, Upserted(r, content, h, body)) == Put(r, Cut(r.headings, content), h, Block(h, body))
  {
    var d := Cut(r.headings, content);
    CutIsWellFormed(r, content);
    PutIsWellFormed(r, EditScanner(r.headings), d, h, body);
    ParseOfWhole(EditScanner(r.headings), Put(r, d, h, Block(h, body)));
  }

  // ---------------------------------------------------------------- the shape of the edited outline

  function Left(r: Rules, d: Doc, h: string): seq<string> {
    var i, j := IndexOf(d.secs, {h}), IndexOf(d.secs, r.anchors(h));
    if i < |d.secs| then d.secs[..i]
    else if j == 0 then []
    else d.secs[..j - 1] + [Spaced(d.secs[j - 1])]
  }

  function Right(r: Rules, d: Doc, h: string): seq<string> {
    var i, j := IndexOf(d.secs, {h}), IndexOf(d.secs, r.anchors(h));
    if i == |d.secs| then d.secs[j..]
    else if h in r.coalesced then Without(d.secs[i + 1..], h)
    else d.secs[i + 1..]
  }

  function Written(r: Rules, d: Doc, h: string, block: string): string {
    if Placed(r, d, h) then block else TrimNewlines(block) + "\n"
  }

  function PutPre(r: Rules, d: Doc, h: string): string {
    if IndexOf(d.secs, {h}) == |d.secs| && IndexOf(d.secs, r.anchors(h)) == 0 then Spaced(d.pre) else d.pre
  }

  lemma PutIs(r: Rules, d: Doc, h: string, block: string)
    ensures Put(r, d, h, block) == Doc(PutPre(r, d, h), Left(r, d, h) + [Written(r, d, h, block)] + Right(r, d, h))
  {
    var i := IndexOf(d.secs, {h});
    if i < |d.secs| {
      PutFound(r, d, h, block, i);
      assert d.secs[i := block] == d.secs[..i] + [block] + d.secs[i + 1..];
    } else {
      PutMissing(r, d, h, block, IndexOf(d.secs, r.anchors(h)), Written(r, d, h, block));
    }
  }

  lemma PutMissing(r: Rules, d: Doc, h: string, block: string, j: nat, x: string)
    requires IndexOf(d.secs, {h}) == |d.secs| && j == IndexOf(d.secs, r.anchors(h)) && x == Written(r, d, h, block)
    ensures Put(r, d, h, block) == Doc(PutPre(r, d, h), Left(r, d, h) + [x] + Right(r, d, h))
  {
    assert Put(r, d, h, block) == Insert(d, j, x);
    if j > 0 {
      TwoInARow(d.secs[..j - 1], Spaced(d.secs[j - 1]), x, d.secs[j..]);
    }
  }

  lemma TwoInARow(a: seq<string>, x: string, y: string, b: seq<string>)
    ensures a + [x, y] + b == a + [x] + [y] + b
  {
    assert [x, y] == [x] + [y];
  }

  predicate NoneNamed(secs: seq<string>, h: string) { forall k :: 0 <= k < |secs| ==> Name(secs[k]) != h }

  lemma {:induction false} NoneNamedStays(secs: seq<string>, h: string)
    requires NoneNamed(secs, h)
    ensures Named(secs, h) == [] && Without(secs, h) == secs && IndexOf(secs, {h}) == |secs|
  {
    if secs != [] {
      assert NoneNamed(secs[1..], h);
      NoneNamedStays(secs[1..], h);
    }
  }

  lemma {:induction false} WithoutNamesNone(secs: seq<string>, h: string)
    ensures NoneNamed(Without(secs, h), h)
  {
    if secs != [] {
      WithoutNamesNone(secs[1..], h);
    }
  }

  lemma LeftNamesNone(r: Rules, sc: Scanner<bool>, d: Doc, h: string)
    requires Sound(sc) && WellFormed(sc, d)
    ensures NoneNamed(Left(r, d, h), h)
  {
    var j := IndexOf(d.secs, r.anchors(h));
    IndexOfIsFirst(d.secs, {h});
    if IndexOf(d.secs, {h}) == |d.secs| && j > 0 {
      SpacedSection(sc, d.secs[j - 1]);
      NameOfTrimmed(d.secs[j - 1], "\n");
    }
  }

  lemma RightStays(r: Rules, d: Doc, h: string)
    requires h in r.coalesced || IndexOf(d.secs, {h}) == |d.secs|
    ensures NoneNamed(Right(r, d, h), h)
  {
    var i := IndexOf(d.secs, {h});
    IndexOfIsFirst(d.secs, {h});
    if i < |d.secs| {
      WithoutNamesNone(d.secs[i + 1..], h);
    }
  }

  lemma {:induction false} IndexOfAfter(a: seq<string>, x: string, b: seq<string>, h: string)
    requires NoneNamed(a, h) && Name(x) == h
    ensures IndexOf(a + [x] + b, {h}) == |a|
  {
    if a != [] {
      assert (a + [x] + b)[1..] == a[1..] + [x] + b;
      IndexOfAfter(a[1..], x, b, h);
    }
  }

  lemma {:induction false} NamedAround(a: seq<string>, x: string, b: seq<string>, h: string)
    requires NoneNamed(a, h) && Name(x) == h
    ensures Named(a + [x] + b, h) == [x] + Named(b, h)
  {
    if a == [] {
      assert a + [x] + b == [x] + b && ([x] + b)[1..] == b;
    } else {
      assert (a + [x] + b)[1..] == a[1..] + [x] + b;
      NamedAround(a[1..], x, b, h);
    }
  }

  lemma WithoutHead(s: string, rest: seq<string>, h: string)
    ensures Without([s] + rest, h) == if Name(s) == h then Without(rest, h) else [s] + Without(rest, h)
  {
    assert ([s] + rest)[1..] == rest;
  }

  lemma {:induction false} WithoutPrefix(a: seq<string>, z: seq<string>, h: string)
    requires NoneNamed(a, h)
    ensures Without(a + z, h) == a + Without(z, h)
  {
    if a == [] {
      assert a + z == z;
    } else {
      WithoutPrefix(a[1..], z, h);
      WithoutHead(a[0], a[1..] + z, h);
      HeadAndTail(a, z);
      HeadAndTail(a, Without(z, h));
    }
  }

  lemma HeadAndTail(a: seq<string>, z: seq<string>)
    requires a != []
    ensures a + z == [a[0]] + (a[1..] + z)
  {
  }

  lemma WithoutAround(a: seq<string>, x: string, b: seq<string>, h: string)
    requires NoneNamed(a, h) && Name(x) == h
    ensures Without(a + [x] + b, h) == a + Without(b, h)
  {
    assert a + [x] + b == a + ([x] + b);
    WithoutPrefix(a, [x] + b, h);
    WithoutHead(x, b, h);
  }

  /** Sections of which the one between `a` and `b` is the first headed `h`. */
  lemma Around(a: seq<string>, x: string, b: seq<string>, h: string)
    requires NoneNamed(a, h) && Name(x) == h
    ensures Named(a + [x] + b, h) == [x] + Named(b, h)
    ensures Without(a + [x] + b, h) == a + Without(b, h)
    ensures IndexOf(a + [x] + b, {h}) == |a|
  {
    NamedAround(a, x, b, h);
    WithoutAround(a, x, b, h);
    IndexOfAfter(a, x, b, h);
  }

  /** The edited outline holds the written section first among those of its heading. */
  lemma PutFinds(r: Rules, sc: Scanner<bool>, d: Doc, h: string, block: string)
    requires Sound(sc) && WellFormed(sc, d) && Name(Written(r, d, h, block)) == h
    ensures var d', at := Put(r, d, h, block), |Left(r, d, h)|;
            && IndexOf(d'.secs, {h}) == at < |d'.secs|
            && d'.secs[at] == Written(r, d, h, block)
            && Named(d'.secs, h) == [Written(r, d, h, block)] + Named(Right(r, d, h), h)
            && Without(d'.secs, h) == Left(r, d, h) + Without(Right(r, d, h), h)
  {
    PutIs(r, d, h, block);
    LeftNamesNone(r, sc, d, h);
    Around(Left(r, d, h), Written(r, d, h, block), Right(r, d, h), h);
  }

  /** Writing the section once more writes `block` in the place where it was found. */
  lemma PutAgain(r: Rules, sc: Scanner<bool>, d: Doc, h: string, block: string)
    requires Sound(sc) && WellFormed(sc, d) && Name(Written(r, d, h, block)) == h
    ensures Put(r, Put(r, d, h, block), h, block) == Doc(PutPre(r, d, h), Left(r, d, h) + [block] + Right(r, d, h))
  {
    var a, x, b := Left(r, d, h), Written(r, d, h, block), Right(r, d, h);
    PutIs(r, d, h, block);
    PutFinds(r, sc, d, h, block);
    if h in r.coalesced {
      RightStays(r, d, h);
      NoneNamedStays(b, h);
    }
    PutInPlace(r, PutPre(r, d, h), a, x, b, h, block);
  }

  lemma PutInPlace(r: Rules, pre: string, a: seq<string>, x: string, b: seq<string>, h: string, block: string)
    requires IndexOf(a + [x] + b, {h}) == |a| && (h in r.coalesced ==> Without(b, h) == b)
    ensures Put(r, Doc(pre, a + [x] + b), h, block) == Doc(pre, a + [block] + b)
  {
    var secs := a + [x] + b;
    assert secs[..|a|] == a && secs[|a| + 1..] == b;
    assert secs[|a| := block] == a + [block] + b;
  }

  // ---------------------------------------------------------------- the laws

  lemma {:induction false} AsManyRanges(secs: seq<string>, base: nat, h: string)
    ensures |RangesOf(secs, base, h)| == |Named(secs, h)|
  {
    if secs != [] {
      AsManyRanges(secs[1..], base + |secs[0]|, h);
    }
  }

  /** When the section is placed, the finder's first range in the new text is exactly the
      new block; it is the only one when the section was new or is one that is coalesced. */
  lemma FinderReturnsTheBlock(r: Rules, content: string, h: string, body: string)
    requires Proper(r) && h in r.headings && WellFormedBody(EditScanner(r.headings), body)
    requires Placed(r, Cut(r.headings, content), h)
    ensures var text := Upserted(r, content, h, body);
            var rs := RangesFrom(Cut(r.headings, text), 0, h);
            && rs != [] && rs[0].start <= rs[0].end <= |text|
            && text[rs[0].start..rs[0].end] == Block(h, body)
            && (h in r.coalesced || IndexOf(Cut(r.headings, content).secs, {h}) == |Cut(r.headings, content).secs| ==>
                |rs| == 1)
  {
    var sc, d, block := EditScanner(r.headings), Cut(r.headings, content), Block(h, body);
    var d' := Put(r, d, h, block);
    CutIsWellFormed(r, content);
    UpsertedOutline(r, content, h, body);
    BlockIsOneSection(r, sc, h, body);
    PutFinds(r, sc, d, h, block);
    FoundSection(d', Upserted(r, content, h, body), h, |Left(r, d, h)|);
    AsManyRanges(d'.secs, |d'.pre|, h);
    if h in r.coalesced || IndexOf(d.secs, {h}) == |d.secs| {
      RightStays(r, d, h);
      NoneNamedStays(Right(r, d, h), h);
    }
  }

  /** The same text but for the newlines that end it. */
  predicate Alike(a: string, b: string) { TrimNewlines(a) == TrimNewlines(b) }

  predicate AllAlike(a: seq<string>, b: seq<string>) {
    |a| == |b| && forall i :: 0 <= i < |a| ==> Alike(a[i], b[i])
  }

  lemma SpacedIsAlike(s: string)
    ensures Alike(Spaced(s), s)
  {
    var t := TrimNewlines(s);
    if t != "" {
      assert (t + "\n" + "\n")[..|t| + 1] == t + "\n" && (t + "\n")[..|t|] == t;
      assert TrimNewlines(t) == t;
    }
  }

  /** Every other section, and the text before the first one, is kept, in order, but for
      newlines at the splice. */
  predicate OthersAlike(d: Doc, d': Doc, h: string) {
    Alike(d.pre, d'.pre) && AllAlike(Without(d.secs, h), Without(d'.secs, h))
  }

  /** The other sections are kept; exactly, when the section was there already. */
  lemma OthersKept(r: Rules, content: string, h: string, body: string)
    requires Proper(r) && h in r.headings && WellFormedBody(EditScanner(r.headings), body)
    requires !Placed(r, Cut(r.headings, content), h) ==> After(EditScanner(r.headings), false, content) == false
    ensures var d, d' := Cut(r.headings, content), Cut(r.headings, Upserted(r, content, h, body));
            && OthersAlike(d, d', h)
            && (IndexOf(d.secs, {h}) < |d.secs| ==> d.pre == d'.pre && Without(d.secs, h) == Without(d'.secs, h))
  {
    var sc, d, block := EditScanner(r.headings), Cut(r.headings, content), Block(h, body);
    CutIsWellFormed(r, content);
    UpsertedOutline(r, content, h, body);
    WrittenName(r, d, h, body);
    PutIs(r, d, h, block);
    PutFinds(r, sc, d, h, block);
    SpacedIsAlike(d.pre);
    KeptSections(r, d, h);
  }

  lemma WrittenName(r: Rules, d: Doc, h: string, body: string)
    requires Proper(r) && h in r.headings && WellFormedBody(EditScanner(r.headings), body)
    ensures Name(Written(r, d, h, Block(h, body))) == h
  {
    BlockIsOneSection(r, EditScanner(r.headings), h, body);
    AppendedIsOneSection(r, EditScanner(r.headings), h, body);
  }

  lemma KeptSections(r: Rules, d: Doc, h: string)
    ensures AllAlike(Without(d.secs, h), Left(r, d, h) + Without(Right(r, d, h), h))
    ensures IndexOf(d.secs, {h}) < |d.secs| ==> Without(d.secs, h) == Left(r, d, h) + Without(Right(r, d, h), h)
  {
    var i := IndexOf(d.secs, {h});
    if i < |d.secs| {
      KeptAroundFound(d.secs, i, h);
      SectionsAround(r, d, h, i);
    } else {
      IndexOfIsFirst(d.secs, {h});
      KeptAroundInsertion(r, d, h);
    }
  }

  lemma SectionsAround(r: Rules, d: Doc, h: string, i: nat)
    requires i == IndexOf(d.secs, {h}) < |d.secs|
    ensures Left(r, d, h) == d.secs[..i]
    ensures Right(r, d, h) == if h in r.coalesced then Without(d.secs[i + 1..], h) else d.secs[i + 1..]
  {
  }

  lemma KeptAroundFound(secs: seq<string>, i: nat, h: string)
    requires i == IndexOf(secs, {h}) < |secs|
    ensures Without(secs, h) == secs[..i] + Without(secs[i + 1..], h)
    ensures Without(Without(secs[i + 1..], h), h) == Without(secs[i + 1..], h)
  {
    IndexOfIsFirst(secs, {h});
    WithoutAround(secs[..i], secs[i], secs[i + 1..], h);
    assert secs == secs[..i] + [secs[i]] + secs[i + 1..];
    WithoutNamesNone(secs[i + 1..], h);
    NoneNamedStays(Without(secs[i + 1..], h), h);
  }

  lemma KeptAroundInsertion(r: Rules, d: Doc, h: string)
    requires NoneNamed(d.secs, h) && IndexOf(d.secs, {h}) == |d.secs|
    ensures AllAlike(Without(d.secs, h), Left(r, d, h) + Without(Right(r, d, h), h))
  {
    var j := IndexOf(d.secs, r.anchors(h));
    NoneNamedStays(d.secs, h);
    NoneNamedStays(d.secs[j..], h);
    AlikeSplice(d.secs, j);
  }

  lemma AlikeSplice(secs: seq<string>, j: nat)
    requires j <= |secs|
    ensures j == 0 ==> AllAlike(secs, [] + secs[j..])
    ensures j > 0 ==> AllAlike(secs, secs[..j - 1] + [Spaced(secs[j - 1])] + secs[j..])
  {
    if j > 0 {
      SpacedIsAlike(secs[j - 1]);
      assert secs == secs[..j - 1] + [secs[j - 1]] + secs[j..];
    }
  }

  /** Outside fences, a second call with the same body writes the same text exactly when the
      first one did not have to append the section. */
  lemma UpsertTwiceOutside(r: Rules, content: string, h: string, body: string)
    requires Proper(r) && h in r.headings && WellFormedBody(EditScanner(r.headings), body)
    requires !Placed(r, Cut(r.headings, content), h) ==> After(EditScanner(r.headings), false, content) == false
    ensures Upserted(r, Upserted(r, content, h, body), h, body) == Upserted(r, content, h, body)
            <==> Placed(r, Cut(r.headings, content), h)
  {
    var sc, d, block := EditScanner(r.headings), Cut(r.headings, content), Block(h, body);
    CutIsWellFormed(r, content);
    UpsertedOutline(r, content, h, body);
    WrittenName(r, d, h, body);
    PutIs(r, d, h, block);
    PutAgain(r, sc, d, h, block);
    AppendedIsOneSection(r, sc, h, body);
    LongerSection(PutPre(r, d, h), Left(r, d, h), Written(r, d, h, block), block, Right(r, d, h));
  }

  lemma LongerSection(pre: string, a: seq<string>, x: string, y: string, b: seq<string>)
    ensures |x| < |y| ==> |Whole(Doc(pre, a + [x] + b))| < |Whole(Doc(pre, a + [y] + b))|
  {
    ConcatOfConcat(a + [x], b);
    ConcatOfConcat(a, [x]);
    ConcatOne(x);
    ConcatOfConcat(a + [y], b);
    ConcatOfConcat(a, [y]);
    ConcatOne(y);
  }
}
