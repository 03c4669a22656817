/** Where cli/edit.go puts a section that is missing, told from one order of all sections. */
module SectionPlacement {
  import opened Text
  import opened Outline
  import opened Sections
  import opened Upsert
  import opened SectionLaws
  import opened FenceLaws
  import opened TaskHeadings

  /** The sections of a task from top to bottom. */
  function SectionOrder(): seq<string> {
    ["## Goal", "## Context", "## Constraints", "## Acceptance Criteria", "## User Attention", "## Review Target",
     "## Reviewer Notes", "## Review Findings", "## Related Tasks", "## Attachments", "## Log"]
  }

  /** A heading's index in the order; subtasks have no place in it. */
  function Rank(h: string): nat {
    match h
    case "## Goal" => 0
    case "## Context" => 1
    case "## Constraints" => 2
    case "## Acceptance Criteria" => 3
    case "## User Attention" => 4
    case "## Review Target" => 5
    case "## Reviewer Notes" => 6
    case "## Review Findings" => 7
    case "## Related Tasks" => 8
    case "## Attachments" => 9
    case "## Log" => 10
    case _ => 11
  }

  lemma RankIsTheIndex(k: nat, h: string)
    ensures k < 11 ==> Rank(SectionOrder()[k]) == k
    ensures Rank(h) < 11 ==> SectionOrder()[Rank(h)] == h
    ensures Rank(h) <= 11
  {
  }

  predicate Follows(x: string, h: string) { Rank(h) < Rank(x) < 11 }

  /** Related tasks, subtasks and the log are always appended. */
  predicate HasPlace(h: string) { Rank(h) < 8 || Rank(h) == 9 }

  /** The three review sections, which a goal and acceptance criteria pass over. */
  predicate PassedOver(x: string, h: string) { 5 <= Rank(x) <= 7 && (Rank(h) == 0 || Rank(h) == 3) }

  /** The managed headings are those of the order, and the subtasks. */
  lemma ManagedAreRanked(h: string)
    ensures h in TaskRules().headings <==> Rank(h) < 11 || h == "## Subtasks"
  {
  }

  /** What a missing section is put in front of: the sections that follow it in the order, but
      for those passed over. */
  lemma AnchorsFollow(h: string, x: string)
    ensures x in TaskRules().anchors(h) <==> HasPlace(h) && Follows(x, h) && !PassedOver(x, h)
  {
  }

  predicate GoesBefore(h: string, x: string) { HasPlace(h) && Follows(x, h) && !PassedOver(x, h) }

  /** Section `k` is the first that a section headed `h` goes in front of; all of them are none. */
  predicate FirstFollower(secs: seq<string>, h: string, k: nat) {
    && k <= |secs| && (k < |secs| ==> GoesBefore(h, Name(secs[k])))
    && forall i :: 0 <= i < k ==> !GoesBefore(h, Name(secs[i]))
  }

  predicate Missing(d: Doc, h: string) { forall i :: 0 <= i < |d.secs| ==> Name(d.secs[i]) != h }

  function SectionsOf(content: string): Doc { Cut(TaskRules().headings, content) }

  function Written(content: string, h: string, body: string): string { Upserted(TaskRules(), content, h, body) }

  lemma PlaceIsFound(secs: seq<string>, h: string, k: nat)
    requires FirstFollower(secs, h, k)
    ensures IndexOf(secs, TaskRules().anchors(h)) == k
  {
    var j := IndexOf(secs, TaskRules().anchors(h));
    IndexOfIsFirst(secs, TaskRules().anchors(h));
    if j < k {
      AnchorsFollow(h, Name(secs[j]));
    } else if k < j {
      AnchorsFollow(h, Name(secs[k]));
    }
  }

  lemma MissingIsNotFound(d: Doc, h: string)
    requires Missing(d, h)
    ensures IndexOf(d.secs, {h}) == |d.secs|
  {
    IndexOfIsFirst(d.secs, {h});
  }

  // ---------------------------------------------------------------- a missing section

  /** The text: one blank line, the heading, one blank line, the body, one blank line, and what
      was there from the follower on. */
  lemma MissingSectionText(content: string, h: string, body: string, k: nat)
    requires Missing(SectionsOf(content), h) && FirstFollower(SectionsOf(content).secs, h, k)
    requires k < |SectionsOf(content).secs|
    ensures var off := |Before(SectionsOf(content), k)|;
            && off <= |content|
            && var above := TrimNewlines(content[..off]);
               Written(content, h, body)
               == (if above == "" then "" else above + "\n\n") + (h + "\n\n" + body + "\n\n") + content[off..]
  {
    var d := SectionsOf(content);
    TaskRulesAreProper();
    MissingIsNotFound(d, h);
    PlaceIsFound(d.secs, h, k);
    NewSection(TaskRules(), d, content, h, Block(h, body), k);
    InsertedBytes(content, |Before(d, k)|, h, body);
  }

  lemma InsertedBytes(content: string, off: nat, h: string, body: string)
    requires off <= |content|
    ensures var above := TrimNewlines(content[..off]);
            InsertMarkdownSectionBefore(content, off, Block(h, body))
            == (if above == "" then "" else above + "\n\n") + (h + "\n\n" + body + "\n\n") + content[off..]
  {
    var block := h + "\n\n" + body + "\n\n";
    assert "" + block == block;
  }

  /** `d2` is `d` with `block` in front of section `k`: before it the same sections but for the
      newlines that end them, after it the same sections. */
  ghost predicate InFrontOf(d: Doc, d2: Doc, k: nat, block: string) {
    && k <= |d.secs| && |d2.secs| == |d.secs| + 1 && d2.secs[k] == block && d2.secs[k + 1..] == d.secs[k..]
    && Alike(d.pre, d2.pre)
    && forall i :: 0 <= i < k ==> Alike(d.secs[i], d2.secs[i]) && Name(d2.secs[i]) == Name(d.secs[i])
  }

  lemma SpliceInFront(secs: seq<string>, k: nat, last: string, block: string)
    requires 0 < k <= |secs|
    ensures var secs2 := secs[..k - 1] + [last, block] + secs[k..];
            && |secs2| == |secs| + 1 && secs2[k] == block && secs2[k + 1..] == secs[k..] && secs2[k - 1] == last
            && forall i :: 0 <= i < k - 1 ==> secs2[i] == secs[i]
  {
  }

  lemma InsertIsInFront(d: Doc, k: nat, block: string)
    requires k <= |d.secs| && (k > 0 ==> TrimNewlines(d.secs[k - 1]) != "")
    ensures InFrontOf(d, Insert(d, k, block), k, block)
  {
    if k == 0 {
      SpacedIsAlike(d.pre);
      assert ([block] + d.secs)[1..] == d.secs;
      assert d.secs[0..] == d.secs;
    } else {
      var last := d.secs[k - 1];
      SpliceInFront(d.secs, k, Spaced(last), block);
      SpacedIsAlike(last);
      SpacedName(last);
    }
  }

  lemma SpacedName(s: string)
    requires TrimNewlines(s) != ""
    ensures Name(Spaced(s)) == Name(s)
  {
    NameStays(s, "");
    assert Spaced(s) + "" == Spaced(s);
  }

  lemma PutIsInFront(d: Doc, h: string, block: string, k: nat)
    requires Missing(d, h) && FirstFollower(d.secs, h, k) && (k > 0 ==> TrimNewlines(d.secs[k - 1]) != "")
    ensures InFrontOf(d, Put(TaskRules(), d, h, block), k,
                      if k < |d.secs| then block else TrimNewlines(block) + "\n")
  {
    MissingIsNotFound(d, h);
    PlaceIsFound(d.secs, h, k);
    InsertIsInFront(d, k, if k < |d.secs| then block else TrimNewlines(block) + "\n");
  }

  /** What is written when the outline is the edited one. */
  lemma WrittenInFront(content: string, h: string, body: string, k: nat)
    requires h in TaskRules().headings && WellFormedBody(EditScanner(TaskRules().headings), body)
    requires Missing(SectionsOf(content), h) && FirstFollower(SectionsOf(content).secs, h, k)
    requires k < |SectionsOf(content).secs| || EndsOutside(TaskRules(), content)
    ensures InFrontOf(SectionsOf(content), SectionsOf(Written(content, h, body)), k,
                      if k < |SectionsOf(content).secs| then Block(h, body) else TrimNewlines(Block(h, body)) + "\n")
  {
    OutlineIsPut(content, h, body, k);
    SectionsAreNotBlank(content, k);
    PutIsInFront(SectionsOf(content), h, Block(h, body), k);
  }

  lemma SectionsAreNotBlank(content: string, k: nat)
    requires k <= |SectionsOf(content).secs|
    ensures k > 0 ==> TrimNewlines(SectionsOf(content).secs[k - 1]) != ""
  {
    TaskRulesAreProper();
    CutIsWellFormed(TaskRules(), content);
    NoneIsBlank(EditScanner(TaskRules().headings), SectionsOf(content), k);
  }

  lemma NoneIsBlank(sc: Scanner<bool>, d: Doc, k: nat)
    requires Sound(sc) && WellFormed(sc, d) && k <= |d.secs|
    ensures k > 0 ==> TrimNewlines(d.secs[k - 1]) != ""
  {
    if k > 0 {
      SectionIsNotBlank(sc, d, k - 1);
    }
  }

  lemma OutlineIsPut(content: string, h: string, body: string, k: nat)
    requires h in TaskRules().headings && WellFormedBody(EditScanner(TaskRules().headings), body)
    requires Missing(SectionsOf(content), h) && FirstFollower(SectionsOf(content).secs, h, k)
    requires k < |SectionsOf(content).secs| || EndsOutside(TaskRules(), content)
    ensures SectionsOf(Written(content, h, body)) == Put(TaskRules(), SectionsOf(content), h, Block(h, body))
  {
    TaskRulesAreProper();
    MissingIsNotFound(SectionsOf(content), h);
    PlaceIsFound(SectionsOf(content).secs, h, k);
    UpsertedOutline(TaskRules(), content, h, body);
  }

  /** The outline of the new text: a section that is missing and has a follower stands in front
      of the first of them. */
  lemma MissingSectionIsPlaced(content: string, h: string, body: string, k: nat)
    requires h in TaskRules().headings && WellFormedBody(EditScanner(TaskRules().headings), body)
    requires Missing(SectionsOf(content), h) && FirstFollower(SectionsOf(content).secs, h, k)
    requires k < |SectionsOf(content).secs|
    ensures InFrontOf(SectionsOf(content), SectionsOf(Written(content, h, body)), k, h + "\n\n" + body + "\n\n")
  {
    WrittenInFront(content, h, body, k);
  }

  /** Without a follower it is appended: outside code fences, as the last section. */
  lemma MissingSectionIsAppended(content: string, h: string, body: string)
    requires h in TaskRules().headings && WellFormedBody(EditScanner(TaskRules().headings), body)
    requires Missing(SectionsOf(content), h) && FirstFollower(SectionsOf(content).secs, h, |SectionsOf(content).secs|)
    requires EndsOutside(TaskRules(), content)
    ensures InFrontOf(SectionsOf(content), SectionsOf(Written(content, h, body)), |SectionsOf(content).secs|,
                      TrimNewlines(h + "\n\n" + body + "\n\n") + "\n")
  {
    WrittenInFront(content, h, body, |SectionsOf(content).secs|);
  }

  // ---------------------------------------------------------------- the order of the sections

  /** No section of the order stands behind one that follows it. */
  predicate InOrder(secs: seq<string>) {
    forall i, j :: 0 <= i < j < |secs| ==> !Follows(Name(secs[i]), Name(secs[j]))
  }

  /** A review section stands above section `k`, and sections headed `h` pass over those. */
  predicate ReviewAbove(secs: seq<string>, h: string, k: nat) {
    exists i :: 0 <= i < k <= |secs| && PassedOver(Name(secs[i]), h)
  }

  /** The new section stands in front of every section that follows it in the order if and only
      if it did not pass over a review section. */
  lemma InFrontOfAllFollowersIff(d: Doc, d2: Doc, h: string, k: nat, block: string)
    requires FirstFollower(d.secs, h, k) && HasPlace(h) && InFrontOf(d, d2, k, block) && Name(block) == h
    ensures (forall i :: 0 <= i < k ==> !Follows(Name(d2.secs[i]), h)) <==> !ReviewAbove(d.secs, h, k)
  {
    if forall i :: 0 <= i < k ==> !Follows(Name(d2.secs[i]), h) {
      forall i | 0 <= i < k
        ensures !PassedOver(Name(d.secs[i]), h)
      {
        assert Name(d2.secs[i]) == Name(d.secs[i]);
      }
    }
  }

  lemma NamesAfter(d: Doc, d2: Doc, k: nat, block: string, i: nat)
    requires InFrontOf(d, d2, k, block) && i < |d.secs|
    ensures i < k ==> Name(d2.secs[i]) == Name(d.secs[i])
    ensures i >= k ==> d2.secs[i + 1] == d.secs[i]
  {
    if i >= k {
      assert d2.secs[k + 1..][i - k] == d.secs[k..][i - k];
    }
  }

  /** So writing a section keeps a task's sections in order, but for a goal or acceptance
      criteria written into a task with review sections and no section between. */
  lemma OrderIsKeptIff(d: Doc, d2: Doc, h: string, k: nat, block: string)
    requires FirstFollower(d.secs, h, k) && HasPlace(h) && InFrontOf(d, d2, k, block) && Name(block) == h
    requires InOrder(d.secs) && k < |d.secs|
    ensures InOrder(d2.secs) <==> !ReviewAbove(d.secs, h, k)
  {
    if InOrder(d2.secs) {
      forall i | 0 <= i < k
        ensures !PassedOver(Name(d.secs[i]), h)
      {
        NamesAfter(d, d2, k, block, i);
        assert !Follows(Name(d2.secs[i]), Name(d2.secs[k]));
      }
    }
    if !ReviewAbove(d.secs, h, k) {
      forall i, j | 0 <= i < j < |d2.secs|
        ensures !Follows(Name(d2.secs[i]), Name(d2.secs[j]))
      {
        PairInOrder(d, d2, h, k, block, i, j);
      }
    }
  }

  lemma PairInOrder(d: Doc, d2: Doc, h: string, k: nat, block: string, i: nat, j: nat)
    requires FirstFollower(d.secs, h, k) && HasPlace(h) && InFrontOf(d, d2, k, block) && Name(block) == h
    requires InOrder(d.secs) && k < |d.secs| && !ReviewAbove(d.secs, h, k) && i < j < |d2.secs|
    ensures !Follows(Name(d2.secs[i]), Name(d2.secs[j]))
  {
    if i != k {
      NamesAfter(d, d2, k, block, if i < k then i else i - 1);
    }
    if j != k {
      NamesAfter(d, d2, k, block, if j < k then j else j - 1);
    }
    if i == k {
      assert j - 1 > k ==> !Follows(Name(d.secs[k]), Name(d.secs[j - 1]));
    } else if j == k {
      assert !PassedOver(Name(d.secs[i]), h);
    } else {
      assert !Follows(Name(d.secs[if i < k then i else i - 1]), Name(d.secs[if j < k then j else j - 1]));
    }
  }

  lemma WritingKeepsTheOrderIff(content: string, h: string, body: string, k: nat)
    requires h in TaskRules().headings && WellFormedBody(EditScanner(TaskRules().headings), body) && HasPlace(h)
    requires Missing(SectionsOf(content), h) && FirstFollower(SectionsOf(content).secs, h, k)
    requires k < |SectionsOf(content).secs| && InOrder(SectionsOf(content).secs)
    ensures InOrder(SectionsOf(Written(content, h, body)).secs) <==> !ReviewAbove(SectionsOf(content).secs, h, k)
  {
    TaskRulesAreProper();
    BlockIsOneSection(TaskRules(), EditScanner(TaskRules().headings), h, body);
    WrittenInFront(content, h, body, k);
    OrderIsKeptIff(SectionsOf(content), SectionsOf(Written(content, h, body)), h, k, Block(h, body));
  }

  // ---------------------------------------------------------------- a section that is there

  lemma {:induction false} NamedOfWithout(secs: seq<string>, h: string)
    ensures Named(Without(secs, h), h) == []
  {
    WithoutNamesNone(secs, h);
    NoneNamedStays(Without(secs, h), h);
  }

  lemma NamedCoalesced(a: seq<string>, block: string, b: seq<string>, h: string)
    requires NoneNamed(a, h) && Name(block) == h
    ensures Named(a + [block] + Without(b, h), h) == [block]
  {
    NamedAround(a, block, Without(b, h), h);
    NamedOfWithout(b, h);
  }

  lemma NamedReplaced(a: seq<string>, x: string, block: string, b: seq<string>, h: string)
    requires NoneNamed(a, h) && Name(x) == h && Name(block) == h
    ensures |Named(a + [block] + b, h)| == |Named(a + [x] + b, h)|
  {
    NamedAround(a, x, b, h);
    NamedAround(a, block, b, h);
  }

  lemma FirstIsNamed(secs: seq<string>, h: string, i: nat)
    requires i == IndexOf(secs, {h}) < |secs|
    ensures NoneNamed(secs[..i], h) && Name(secs[i]) == h
  {
    IndexOfIsFirst(secs, {h});
  }

  lemma AroundSection(secs: seq<string>, i: nat, block: string)
    requires i < |secs|
    ensures secs == secs[..i] + [secs[i]] + secs[i + 1..] && secs[i := block] == secs[..i] + [block] + secs[i + 1..]
  {
  }

  lemma NamedOfPut(d: Doc, h: string, block: string, i: nat)
    requires i == IndexOf(d.secs, {h}) < |d.secs| && Name(block) == h
    ensures |Named(Put(TaskRules(), d, h, block).secs, h)|
            == if h == "## Context" || h == "## Constraints" then 1 else |Named(d.secs, h)|
  {
    FirstIsNamed(d.secs, h, i);
    AroundSection(d.secs, i, block);
    PutFound(TaskRules(), d, h, block, i);
    NamedCoalesced(d.secs[..i], block, d.secs[i + 1..], h);
    NamedReplaced(d.secs[..i], d.secs[i], block, d.secs[i + 1..], h);
  }

  /** Of a section that is there more than once, context and constraints alone are merged. */
  lemma DuplicatesAreMergedIff(content: string, h: string, body: string)
    requires h in TaskRules().headings && WellFormedBody(EditScanner(TaskRules().headings), body)
    requires !Missing(SectionsOf(content), h)
    ensures |Named(SectionsOf(Written(content, h, body)).secs, h)|
            == if h == "## Context" || h == "## Constraints" then 1 else |Named(SectionsOf(content).secs, h)|
  {
    var d := SectionsOf(content);
    TaskRulesAreProper();
    BlockIsOneSection(TaskRules(), EditScanner(TaskRules().headings), h, body);
    FoundIsThere(d, h);
    UpsertedOutline(TaskRules(), content, h, body);
    NamedOfPut(d, h, Block(h, body), IndexOf(d.secs, {h}));
  }

  lemma FoundIsThere(d: Doc, h: string)
    requires !Missing(d, h)
    ensures IndexOf(d.secs, {h}) < |d.secs|
  {
    IndexOfIsFirst(d.secs, {h});
  }

  /** The text, when the section is there once: its heading, a blank line, the body and a blank
      line in its place, and every other character as it was. */
  lemma FoundSectionText(content: string, h: string, body: string, i: nat)
    requires i < |SectionsOf(content).secs| && i == IndexOf(SectionsOf(content).secs, {h})
    requires h in TaskRules().coalesced ==> NoneNamed(SectionsOf(content).secs[i + 1..], h)
    ensures var d := SectionsOf(content);
            var start, end := |Before(d, i)|, |Before(d, i)| + |d.secs[i]|;
            && end <= |content| && content[start..end] == d.secs[i]
            && Written(content, h, body) == content[..start] + (h + "\n\n" + body + "\n\n") + content[end..]
  {
    WholeOfSections(content);
    WrittenIsPut(content, h, body);
    PutText(SectionsOf(content), content, h, h + "\n\n" + body + "\n\n", i, Written(content, h, body));
  }

  lemma WrittenIsPut(content: string, h: string, body: string)
    ensures Written(content, h, body) == Whole(Put(TaskRules(), SectionsOf(content), h, h + "\n\n" + body + "\n\n"))
  {
  }

  lemma WholeOfSections(content: string)
    ensures Whole(SectionsOf(content)) == content
  {
    TaskRulesAreProper();
    CutIsWellFormed(TaskRules(), content);
  }

  lemma PutText(d: Doc, content: string, h: string, block: string, i: nat, out: string)
    requires out == Whole(Put(TaskRules(), d, h, block))
    requires content == Whole(d) && i == IndexOf(d.secs, {h}) < |d.secs|
    requires h in TaskRules().coalesced ==> NoneNamed(d.secs[i + 1..], h)
    ensures var start, end := |Before(d, i)|, |Before(d, i)| + |d.secs[i]|;
            && end <= |content| && content[start..end] == d.secs[i]
            && out == content[..start] + block + content[end..]
  {
    CutsAround(d, content, i);
    WholeOfPut(TaskRules(), d, h, block, i);
    if h in TaskRules().coalesced {
      NoneNamedStays(d.secs[i + 1..], h);
    }
  }
}
