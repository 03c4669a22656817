/** Which lines start a section, told by the lines in front of them (cli/edit.go and
    cli/task_sections.go). */
module ScannerLaws {
  import opened Text
  import opened Outline
  import opened Sections
  import opened TaskSections

  /** A section of the outline starts at that offset of the text. */
  predicate StartsAt(d: Doc, at: nat) { exists j :: 0 <= j < |d.secs| && |Before(d, j)| == at }

  /** One line, with or without its newline, and a text around it. */
  predicate IsLine(a: string, l: string, b: string) {
    Terminated(a) && l != "" && FirstLine(l) == l && (b != "" ==> Terminated(l))
  }

  lemma BeforeALine(d: Doc, l: string, heads: bool, j: nat)
    requires j < |d.secs|
    ensures var i := if heads then j + 1 else j;
            i < |AddLine(d, l, heads).secs| && |Before(AddLine(d, l, heads), i)| == |l| + |Before(d, j)|
  {
    if heads {
      assert ([l + d.pre] + d.secs)[..j + 1][1..] == d.secs[..j];
    }
  }

  lemma StartsPastALine(d: Doc, l: string, heads: bool, at: nat)
    requires l != ""
    ensures StartsAt(AddLine(d, l, heads), |l| + at) <==> StartsAt(d, at)
    ensures StartsAt(AddLine(d, l, heads), 0) <==> heads
  {
    var e := AddLine(d, l, heads);
    forall j | 0 <= j < |d.secs|
      ensures |Before(e, if heads then j + 1 else j)| == |l| + |Before(d, j)|
    {
      BeforeALine(d, l, heads, j);
    }
    assert heads ==> Before(e, 0) == "";
    assert StartsAt(d, at) ==> exists j :: 0 <= j < |e.secs| && |Before(e, j)| == |l| + at by {
      if StartsAt(d, at) {
        var j :| 0 <= j < |d.secs| && |Before(d, j)| == at;
        BeforeALine(d, l, heads, j);
      }
    }
    forall i | 0 <= i < |e.secs| && (i > 0 || !heads)
      ensures |Before(e, i)| == |l| + |Before(d, if heads then i - 1 else i)|
    {
      BeforeALine(d, l, heads, if heads then i - 1 else i);
    }
  }

  /** A line starts a section exactly when it is a heading in the state that the text before it
      leaves. */
  lemma {:induction false} StartsIff<S>(sc: Scanner<S>, st: S, a: string, l: string, b: string)
    requires IsLine(a, l, b)
    ensures StartsAt(Parse(sc, st, a + (l + b)), |a|) <==> sc.heads(After(sc, st, a), l)
    decreases |a|
  {
    if a == "" {
      assert a + (l + b) == l + b;
      LineThen(sc, st, l, b);
      StartsPastALine(Parse(sc, sc.next(st, l), b), l, sc.heads(st, l), 0);
    } else {
      FirstLineOfConcat(a, l + b);
      FirstLineIsWhole(a);
      var k := FirstLine(a);
      StartsIff(sc, sc.next(st, k), Rest(a), l, b);
      StartsPastALine(Parse(sc, sc.next(st, k), Rest(a) + (l + b)), k, sc.heads(st, k), |Rest(a)|);
    }
  }

  // ---------------------------------------------------------------- cli/edit.go

  /** The line is a fence, whatever white space surrounds it. */
  predicate FenceLine(l: string) { "```" <= TrimSpace(l) || "~~~" <= TrimSpace(l) }

  function FenceLines(s: string): nat
    decreases |s|
  {
    if s == "" then 0 else (if FenceLine(FirstLine(s)) then 1 else 0) + FenceLines(Rest(s))
  }

  lemma {:induction false} InsideIffOdd(hs: set<string>, st: bool, s: string)
    ensures After(EditScanner(hs), st, s) <==> (st <==> FenceLines(s) % 2 == 0)
    decreases |s|
  {
    if s != "" {
      InsideIffOdd(hs, NextFence(st, FirstLine(s)), Rest(s));
    }
  }

  /** In the section editor's outline a line starts a section exactly when it is one of the
      headings but for white space, is no fence, and stands below an even number of fences. */
  lemma EditSectionStartsIff(hs: set<string>, a: string, l: string, b: string)
    requires IsLine(a, l, b)
    ensures StartsAt(Cut(hs, a + (l + b)), |a|) <==> FenceLines(a) % 2 == 0 && TrimSpace(l) in hs && !FenceLine(l)
  {
    StartsIff(EditScanner(hs), false, a, l, b);
    InsideIffOdd(hs, false, a);
  }

  // ---------------------------------------------------------------- cli/task_sections.go

  /** No line of the text starts with `m`, not even after white space. */
  predicate NoLineStartsWith(m: string, s: string)
    decreases |s|
  {
    s == "" || (!(m <= FirstLine(s)) && NoLineStartsWith(m, Rest(s)))
  }

  /** The other finder: below lines that are no fences every "## " line starts a section. */
  lemma {:induction false} OutsideFences(sc: Scanner<string>, a: string)
    requires sc == TaskScanner() && NoLineStartsWith("```", a) && NoLineStartsWith("~~~", a)
    ensures After(sc, "", a) == ""
    decreases |a|
  {
    if a != "" {
      OutsideFences(sc, Rest(a));
    }
  }

  lemma {:induction false} InsideAFence(sc: Scanner<string>, m: string, a: string)
    requires sc == TaskScanner() && m in {"```", "~~~"} && NoLineStartsWith(m, a)
    ensures After(sc, m, a) == m
    decreases |a|
  {
    if a != "" {
      InsideAFence(sc, m, Rest(a));
    }
  }

  lemma FenceOpens(sc: Scanner<string>, a: string, f: string, inner: string, m: string)
    requires sc == TaskScanner() && IsLine(a, f, inner) && m in {"```", "~~~"} && m <= f
    requires After(sc, "", a) == "" && NoLineStartsWith(m, inner)
    ensures After(sc, "", a + (f + inner)) == m
  {
    ParseConcat(sc, "", a, f + inner);
    LineThen(sc, "", f, inner);
    InsideAFence(sc, m, inner);
  }

  lemma FenceEnds(sc: Scanner<string>, s: string, l: string, m: string)
    requires sc == TaskScanner() && IsLine(s, l, "") && m in {"```", "~~~"} && After(sc, "", s) == m
    ensures After(sc, "", s + l) == if m <= l then "" else m
  {
    ParseConcat(sc, "", s, l);
    SingleLine(sc, m, l);
  }

  /** A fence ends at the first line that starts with the marker which opened it, and not before,
      whatever lines of the other marker are inside; until then no line starts a section. */
  lemma FencedBlock(sc: Scanner<string>, a: string, f: string, inner: string, m: string, s: string, l: string,
                    b: string)
    requires sc == TaskScanner() && m in {"```", "~~~"} && m <= f && s == a + (f + inner)
    requires IsLine(a, f, inner) && IsLine(s, l, b) && After(sc, "", a) == "" && NoLineStartsWith(m, inner)
    ensures After(sc, "", s + l) == if m <= l then "" else m
    ensures !StartsAt(Parse(sc, "", s + (l + b)), |s|)
  {
    FenceOpens(sc, a, f, inner, m);
    FenceEnds(sc, s, l, m);
    StartsIff(sc, "", s, l, b);
  }

  lemma HeadingLine(open: string, l: string)
    ensures HeadsSection(open, l) <==> open == "" && "## " <= l
  {
    if "## " <= l {
      assert l[0] == '#';
    }
  }

  /** A line starts a section exactly when it starts with "## " and no fence is open. */
  lemma TaskSectionStartsIff(sc: Scanner<string>, a: string, l: string, b: string)
    requires sc == TaskScanner() && IsLine(a, l, b)
    ensures StartsAt(Parse(sc, "", a + (l + b)), |a|) <==> After(sc, "", a) == "" && "## " <= l
  {
    StartsIff(sc, "", a, l, b);
    HeadingLine(After(sc, "", a), l);
  }

  // ---------------------------------------------------------------- titles and trimming

  /** A space or a tab. */
  predicate Blank(c: char) { c == ' ' || c == '\t' }

  predicate BlankFrom(s: string, n: nat) { forall i :: n <= i < |s| ==> Blank(s[i]) }

  lemma {:induction false} TrimBlanksCuts(s: string)
    ensures TrimBlanks(s) <= s && BlankFrom(s, |TrimBlanks(s)|)
    ensures TrimBlanks(s) != "" ==> !Blank(TrimBlanks(s)[|TrimBlanks(s)| - 1])
  {
    if s != "" && (s[|s| - 1] == ' ' || s[|s| - 1] == '\t') {
      TrimBlanksCuts(s[..|s| - 1]);
    }
  }

  /** What a heading is compared by: the line without its line end and the blanks before that. */
  lemma TitleOfLine(t: string, blanks: string, end: string)
    requires end in {"", "\n", "\r\n", "\r"} && BlankFrom(blanks, 0)
    requires t == "" || (!Blank(t[|t| - 1]) && t[|t| - 1] !in {'\r', '\n'})
    ensures TitleOf(t + blanks + end) == t
  {
    LineEndGone(t + blanks, end);
    TrimBlanksCuts(t + blanks);
    SameCut(t + blanks, t, TrimBlanks(t + blanks));
  }

  lemma LineEndGone(x: string, end: string)
    requires end in {"", "\n", "\r\n", "\r"} && (x == "" || x[|x| - 1] !in {'\r', '\n'})
    ensures TrimReturn(Bare(x + end)) == x
  {
    assert end == "" ==> x + end == x;
    assert |end| == 1 ==> (x + end)[..|x|] == x;
    if |end| == 2 {
      assert Bare(x + end) == x + "\r";
      assert (x + "\r")[..|x|] == x;
    }
  }

  lemma SameCut(s: string, t: string, u: string)
    requires t <= s && u <= s && BlankFrom(s, |t|) && BlankFrom(s, |u|)
    requires (t == "" || !Blank(t[|t| - 1])) && (u == "" || !Blank(u[|u| - 1]))
    ensures t == u
  {
    NotLonger(s, t, u);
    NotLonger(s, u, t);
    assert t == s[..|t|] && u == s[..|u|];
  }

  lemma NotLonger(s: string, t: string, u: string)
    requires t <= s && u <= s && BlankFrom(s, |t|) && (u == "" || !Blank(u[|u| - 1]))
    ensures |u| <= |t|
  {
    assert u != "" ==> u[|u| - 1] == s[|u| - 1];
  }

  predicate AllSpace(s: string) { forall i :: 0 <= i < |s| ==> IsSpace(s[i]) }

  lemma {:induction false} TrimmedRight(t: string, right: string)
    requires AllSpace(right)
    ensures TrimRightSpace(t + right) == TrimRightSpace(t)
  {
    if right == "" {
      assert t + right == t;
    } else {
      assert (t + right)[..|t + right| - 1] == t + right[..|right| - 1];
      TrimmedRight(t, right[..|right| - 1]);
    }
  }

  lemma {:induction false} TrimmedLeft(left: string, t: string)
    requires AllSpace(left)
    ensures TrimLeftSpace(left + t) == TrimLeftSpace(t)
  {
    if left == "" {
      assert left + t == t;
    } else {
      assert (left + t)[1..] == left[1..] + t;
      TrimmedLeft(left[1..], t);
    }
  }

  /** Trimming leaves what stands between the white space at both ends. */
  lemma TrimmedSpace(left: string, t: string, right: string)
    requires AllSpace(left) && AllSpace(right) && t != "" && !IsSpace(t[0]) && !IsSpace(t[|t| - 1])
    ensures TrimSpace(left + t + right) == t && TrimSpace(left) == ""
  {
    TrimmedRight(left + t, right);
    TrimmedLeft(left, t);
    TrimmedRight("", left);
    assert "" + left == left;
  }

  // ---------------------------------------------------------------- the log

  /** The section that is looked for is the first with a wanted title. */
  lemma {:induction false} FirstTitled(secs: seq<string>, wanted: set<string>)
    ensures var j := IndexOfTitle(secs, wanted);
            (j < |secs| ==> Title(secs[j]) in wanted) && forall k :: 0 <= k < j ==> Title(secs[k]) !in wanted
  {
    if secs != [] && Title(secs[0]) !in wanted {
      FirstTitled(secs[1..], wanted);
      assert forall k :: 0 < k < |secs| ==> secs[k] == secs[1..][k - 1];
    }
  }

  lemma WithoutTheLog(content: string, title: string, entry: string)
    requires forall j :: 0 <= j < |Sectioned(content).secs| ==> Title(Sectioned(content).secs[j]) != title
    ensures Logged(content, title, entry) == content + "\n" + title + "\n\n" + entry
  {
    FirstTitled(Sectioned(content).secs, {title});
  }

  /** A log section that is missing is appended, and is one exactly when no fence is open where the
      text ends. */
  lemma NewLogSectionIff(sc: Scanner<string>, content: string, title: string, nl: string, entry: string)
    requires sc == TaskScanner() && title == "## Log" && nl == "\n"
    requires forall j :: 0 <= j < |Sectioned(content).secs| ==> Title(Sectioned(content).secs[j]) != title
    ensures Logged(content, title, entry) == content + nl + title + "\n\n" + entry
    ensures StartsAt(Sectioned(Logged(content, title, entry)), |content + nl|) <==> After(sc, "", content + nl) == ""
  {
    WithoutTheLog(content, title, entry);
    HeadingText(content, title, nl, entry);
    NewSection(sc, content + nl, title, nl + entry, Logged(content, title, entry));
  }

  lemma HeadingText(content: string, title: string, nl: string, entry: string)
    requires nl == "\n"
    ensures content + nl + title + "\n\n" + entry == (content + nl) + (title + "\n" + (nl + entry))
  {
    assert "\n\n" == nl + nl;
  }

  lemma NewSection(sc: Scanner<string>, a: string, heading: string, b: string, out: string)
    requires sc == TaskScanner() && Terminated(a) && "## " <= heading && '\n' !in heading
    requires out == a + (heading + "\n" + b)
    ensures StartsAt(Sectioned(out), |a|) <==> After(sc, "", a) == ""
  {
    OneLine(heading);
    TaskSectionStartsIff(sc, a, heading + "\n", b);
  }
}
