/** Cutting a Markdown text into sections. A scanner walks over the lines with a small
    state (the code-fence state) and says which lines start a section. The two scanners of
    the program, in cli/edit.go and cli/task_sections.go, are instances; what is proved
    here holds of any scanner that only starts sections in its start state and never on a
    blank line. */
module Outline {
  import opened Text

  datatype Scanner<!S(==)> = Scanner(start: S, next: (S, string) -> S, heads: (S, string) -> bool)

  /** The text before the first section, and the sections, each from its heading line up to
      the next one. */
  datatype Doc = Doc(pre: string, secs: seq<string>)

  function Concat(parts: seq<string>): string {
    if parts == [] then "" else parts[0] + Concat(parts[1..])
  }

  function Whole(d: Doc): string { d.pre + Concat(d.secs) }

  /** The scanner's state after the lines of `s`. */
  function After<S>(sc: Scanner<S>, st: S, s: string): S
    decreases |s|
  {
    if s == "" then st else After(sc, sc.next(st, FirstLine(s)), Rest(s))
  }

  function Parse<S>(sc: Scanner<S>, st: S, s: string): Doc
    decreases |s|
  {
    if s == "" then Doc("", [])
    else
      var l := FirstLine(s);
      AddLine(Parse(sc, sc.next(st, l), Rest(s)), l, sc.heads(st, l))
  }

  /** One more line in front: a heading turns what was before the first section into one. */
  function AddLine(d: Doc, l: string, heads: bool): Doc {
    if heads then Doc("", [l + d.pre] + d.secs) else Doc(l + d.pre, d.secs)
  }

  predicate IgnoresBlank<S(!new)>(sc: Scanner<S>, st: S, l: string) {
    l == "\n" ==> sc.next(st, l) == st && !sc.heads(st, l)
  }

  predicate IgnoresNewline<S(!new)>(sc: Scanner<S>, st: S, l: string) {
    sc.next(st, l + "\n") == sc.next(st, l) && sc.heads(st, l + "\n") == sc.heads(st, l)
  }

  predicate StartsOutside<S(!new)>(sc: Scanner<S>, st: S, l: string) {
    sc.heads(st, l) ==> st == sc.start && sc.next(st, l) == sc.start
  }

  /** Sections start in the start state and stay in it; blank lines mean nothing; a line's
      newline is not looked at. */
  ghost predicate Sound<S(!new)>(sc: Scanner<S>) {
    forall st, l :: IgnoresBlank(sc, st, l) && IgnoresNewline(sc, st, l) && StartsOutside(sc, st, l)
  }

  // ---------------------------------------------------------------- parsing is compositional

  function Glue(a: Doc, b: Doc): Doc {
    if a.secs == [] then Doc(a.pre + b.pre, b.secs)
    else Doc(a.pre, a.secs[..|a.secs| - 1] + [a.secs[|a.secs| - 1] + b.pre] + b.secs)
  }

  lemma GlueEmpty(b: Doc)
    ensures Glue(Doc("", []), b) == b
  {
  }

  lemma GlueLine(l: string, a: Doc, b: Doc)
    ensures Glue(Doc(l + a.pre, a.secs), b) == Doc(l + Glue(a, b).pre, Glue(a, b).secs)
    ensures Glue(Doc("", [l + a.pre] + a.secs), b) == Doc("", [l + Glue(a, b).pre] + Glue(a, b).secs)
  {
    if a.secs == [] {
      assert (l + a.pre) + b.pre == l + (a.pre + b.pre);
    } else {
      var n := |a.secs| - 1;
      assert ([l + a.pre] + a.secs)[..n + 1] == [l + a.pre] + a.secs[..n];
    }
  }

  lemma GlueSection(s: string, rest: seq<string>)
    ensures Glue(Doc("", [s]), Doc("", rest)) == Doc("", [s] + rest)
  {
    assert s + "" == s;
    assert [s][..0] == [];
  }

  /** A text of whole lines followed by another is scanned as the one after the other. */
  lemma {:induction false} ParseConcat<S>(sc: Scanner<S>, st: S, a: string, b: string)
    requires Terminated(a)
    ensures Parse(sc, st, a + b) == Glue(Parse(sc, st, a), Parse(sc, After(sc, st, a), b))
    ensures After(sc, st, a + b) == After(sc, After(sc, st, a), b)
    decreases |a|
  {
    if a == "" {
      assert a + b == b;
      GlueEmpty(Parse(sc, st, b));
    } else {
      FirstLineOfConcat(a, b);
      var st' := sc.next(st, FirstLine(a));
      ParseConcat(sc, st', Rest(a), b);
      GlueLine(FirstLine(a), Parse(sc, st', Rest(a)), Parse(sc, After(sc, st, a), b));
    }
  }

  // ---------------------------------------------------------------- well-formed outlines

  /** The text starts no section, scanned from the start state. */
  predicate Plain<S>(sc: Scanner<S>, s: string) { Parse(sc, sc.start, s) == Doc(s, []) }

  /** The text is one section. */
  predicate OneSection<S>(sc: Scanner<S>, s: string) { Parse(sc, sc.start, s) == Doc("", [s]) }

  /** Whole lines that lead back to the start state: every code fence is closed. */
  predicate Closed<S>(sc: Scanner<S>, s: string) { Terminated(s) && After(sc, sc.start, s) == sc.start }

  /** What parsing yields: only the last part may be unterminated or end inside a fence. */
  ghost predicate WellFormed<S>(sc: Scanner<S>, d: Doc) {
    && Plain(sc, d.pre)
    && (d.secs != [] ==> Closed(sc, d.pre))
    && (forall i :: 0 <= i < |d.secs| ==> OneSection(sc, d.secs[i]))
    && (forall i :: 0 <= i < |d.secs| - 1 ==> Closed(sc, d.secs[i]))
  }

  lemma {:induction false} ParseOfSections<S>(sc: Scanner<S>, secs: seq<string>)
    requires WellFormed(sc, Doc("", secs))
    ensures Parse(sc, sc.start, Concat(secs)) == Doc("", secs)
  {
    if |secs| == 1 {
      assert Concat(secs[1..]) == "";
      assert Concat(secs) == secs[0];
      assert secs == [secs[0]];
    } else if secs != [] {
      assert WellFormed(sc, Doc("", secs[1..]));
      ParseOfSections(sc, secs[1..]);
      ParseConcat(sc, sc.start, secs[0], Concat(secs[1..]));
      GlueSection(secs[0], secs[1..]);
      assert secs == [secs[0]] + secs[1..];
    }
  }

  /** Parsing and writing out undo each other: parsing a well-formed outline's text gives the
      outline back. */
  lemma ParseOfWhole<S>(sc: Scanner<S>, d: Doc)
    requires WellFormed(sc, d)
    ensures Parse(sc, sc.start, Whole(d)) == d
  {
    if d.secs == [] {
      assert Whole(d) == d.pre;
    } else {
      assert Plain(sc, "");
      assert WellFormed(sc, Doc("", d.secs));
      ParseOfSections(sc, d.secs);
      ParseConcat(sc, sc.start, d.pre, Concat(d.secs));
    }
  }

  /** And every text is the text of its outline, which is well-formed. */
  lemma {:induction false} WholeOfParse<S>(sc: Scanner<S>, st: S, s: string)
    ensures Whole(Parse(sc, st, s)) == s
    decreases |s|
  {
    if s != "" {
      var l := FirstLine(s);
      FirstLineIsWhole(s);
      WholeOfParse(sc, sc.next(st, l), Rest(s));
      WholeOfAddLine(Parse(sc, sc.next(st, l), Rest(s)), l, sc.heads(st, l));
    }
  }

  lemma WholeOfAddLine(d: Doc, l: string, heads: bool)
    ensures Whole(AddLine(d, l, heads)) == l + Whole(d)
  {
    assert (l + d.pre) + Concat(d.secs) == l + Whole(d);
    if heads {
      assert ([l + d.pre] + d.secs)[1..] == d.secs;
    }
  }

  /** `d`, cut from a text scanned from `st`. */
  ghost predicate WellFormedFrom<S>(sc: Scanner<S>, st: S, d: Doc) {
    && Parse(sc, st, d.pre) == Doc(d.pre, [])
    && (d.secs != [] ==> Terminated(d.pre) && After(sc, st, d.pre) == sc.start)
    && WellFormed(sc, Doc("", d.secs))
  }

  lemma {:induction false} ParseIsWellFormedFrom<S(!new)>(sc: Scanner<S>, st: S, s: string)
    requires Sound(sc)
    ensures WellFormedFrom(sc, st, Parse(sc, st, s))
    decreases |s|
  {
    if s != "" {
      var l := FirstLine(s);
      var d := Parse(sc, sc.next(st, l), Rest(s));
      FirstLineIsWhole(s);
      ParseIsWellFormedFrom(sc, sc.next(st, l), Rest(s));
      OneMoreLine(sc, st, l, d);
    }
  }

  lemma SectionsAreNotEmpty<S>(sc: Scanner<S>, d: Doc)
    requires d.secs != [] && OneSection(sc, d.secs[0])
    ensures Whole(d) != ""
  {
  }

  lemma FirstOfLine(l: string, t: string)
    requires l != "" && FirstLine(l) == l && (t != "" ==> Terminated(l))
    ensures FirstLine(l + t) == l && Rest(l + t) == t
    ensures Terminated(l) && Terminated(t) ==> Terminated(l + t)
  {
    TerminatedConcat(l, t);
    if t == "" {
      assert l + t == l;
    } else {
      FirstLineOfConcat(l, t);
    }
  }

  lemma TerminatedConcat(l: string, t: string)
    ensures Terminated(l) && Terminated(t) ==> Terminated(l + t)
  {
    if t != "" {
      assert (l + t)[|l + t| - 1] == t[|t| - 1];
    } else {
      assert l + t == l;
    }
  }

  lemma LineThen<S>(sc: Scanner<S>, st: S, l: string, t: string)
    requires l != "" && FirstLine(l) == l && (t != "" ==> Terminated(l))
    ensures Parse(sc, st, l + t) == AddLine(Parse(sc, sc.next(st, l), t), l, sc.heads(st, l))
    ensures After(sc, st, l + t) == After(sc, sc.next(st, l), t)
    ensures Terminated(l) && Terminated(t) ==> Terminated(l + t)
  {
    FirstOfLine(l, t);
  }

  lemma OneMoreLine<S(!new)>(sc: Scanner<S>, st: S, l: string, d: Doc)
    requires Sound(sc) && l != "" && FirstLine(l) == l && (Whole(d) != "" ==> Terminated(l))
    requires WellFormedFrom(sc, sc.next(st, l), d)
    ensures WellFormedFrom(sc, st, AddLine(d, l, sc.heads(st, l)))
  {
    if d.secs != [] {
      SectionsAreNotEmpty(sc, d);
    }
    LineThen(sc, st, l, d.pre);
    assert StartsOutside(sc, st, l);
    if sc.heads(st, l) {
      OneMoreSection(sc, l + d.pre, d.secs);
    }
  }

  lemma OneMoreSection<S>(sc: Scanner<S>, s: string, secs: seq<string>)
    requires OneSection(sc, s) && (secs != [] ==> Closed(sc, s)) && WellFormed(sc, Doc("", secs))
    ensures WellFormed(sc, Doc("", [s] + secs))
  {
  }

  lemma ParseIsWellFormed<S(!new)>(sc: Scanner<S>, s: string)
    requires Sound(sc)
    ensures WellFormed(sc, Parse(sc, sc.start, s)) && Whole(Parse(sc, sc.start, s)) == s
  {
    ParseIsWellFormedFrom(sc, sc.start, s);
    WholeOfParse(sc, sc.start, s);
  }

  // ---------------------------------------------------------------- newlines at the end

  lemma {:induction false} BlankLines<S(!new)>(sc: Scanner<S>, st: S, n: nat, l: string)
    requires l == "\n" && IgnoresBlank(sc, st, l)
    ensures Parse(sc, st, Newlines(n)) == Doc(Newlines(n), []) && After(sc, st, Newlines(n)) == st
  {
    if n > 0 {
      assert FirstLine(l) == l;
      assert Newlines(n) == l + Newlines(n - 1);
      LineThen(sc, st, l, Newlines(n - 1));
      BlankLines(sc, st, n - 1, l);
    }
  }

  lemma SingleLine<S>(sc: Scanner<S>, st: S, l: string)
    requires l != "" && FirstLine(l) == l
    ensures Parse(sc, st, l) == AddLine(Doc("", []), l, sc.heads(st, l)) && After(sc, st, l) == sc.next(st, l)
  {
    LineThen(sc, st, l, "");
    assert l + "" == l;
  }

  lemma EndOneLine<S(!new)>(sc: Scanner<S>, st: S, l: string, nl: string)
    requires nl == "\n" && !Terminated(l) && FirstLine(l) == l && IgnoresNewline(sc, st, l)
    ensures Parse(sc, st, l + nl) == Glue(Parse(sc, st, l), Doc(nl, [])) && After(sc, st, l + nl) == After(sc, st, l)
  {
    FirstNewline(l);
    OneLine(l);
    SingleLine(sc, st, l);
    SingleLine(sc, st, l + nl);
    GlueLine(l, Doc("", []), Doc(nl, []));
    assert Glue(Doc("", []), Doc(nl, [])) == Doc(nl, []);
    assert (l + nl) + "" == l + nl;
  }

  lemma {:induction false} EndLine<S(!new)>(sc: Scanner<S>, st: S, s: string, nl: string)
    requires nl == "\n" && !Terminated(s) && forall st, l :: IgnoresNewline(sc, st, l)
    ensures Parse(sc, st, s + nl) == Glue(Parse(sc, st, s), Doc(nl, []))
    ensures After(sc, st, s + nl) == After(sc, st, s)
    decreases |s|
  {
    var l, t := FirstLine(s), Rest(s);
    FirstLineIsWhole(s);
    if t == "" {
      assert s == l;
      EndOneLine(sc, st, l, nl);
    } else {
      assert s + nl == l + (t + nl);
      LineThen(sc, st, l, t + nl);
      EndLine(sc, sc.next(st, l), t, nl);
      GlueLine(l, Parse(sc, sc.next(st, l), t), Doc(nl, []));
    }
  }

  /** The same sections, with `tail` added at the very end. */
  lemma GlueTail(d: Doc, tail: string)
    ensures Whole(Glue(d, Doc(tail, []))) == Whole(d) + tail
    ensures |Glue(d, Doc(tail, [])).secs| == |d.secs|
    ensures d.secs != [] ==> Glue(d, Doc(tail, [])).pre == d.pre
  {
    if d.secs != [] {
      var n := |d.secs| - 1;
      assert d.secs == d.secs[..n] + [d.secs[n]];
      assert Glue(d, Doc(tail, [])).secs == d.secs[..n] + [d.secs[n] + tail];
      ConcatOfConcat(d.secs[..n], [d.secs[n]]);
      ConcatOfConcat(d.secs[..n], [d.secs[n] + tail]);
      ConcatOne(d.secs[n]);
      ConcatOne(d.secs[n] + tail);
    }
  }

  lemma {:induction false} ConcatOfConcat(a: seq<string>, b: seq<string>)
    ensures Concat(a + b) == Concat(a) + Concat(b)
  {
    if a == [] {
      assert a + b == b;
    } else {
      assert (a + b)[1..] == a[1..] + b;
      ConcatOfConcat(a[1..], b);
    }
  }

  lemma ConcatOne(s: string)
    ensures Concat([s]) == s
  {
    assert [s][1..] == [];
  }

  lemma GlueIsOnePart(d: Doc, u: string, tail: string)
    requires Whole(d) == u
    ensures Glue(d, Doc(tail, [])) == Doc(u + tail, []) ==> d == Doc(u, [])
    ensures Glue(d, Doc(tail, [])) == Doc("", [u + tail]) ==> d == Doc("", [u])
  {
    GlueTail(d, tail);
    if |d.secs| == 1 {
      ConcatOne(d.secs[0]);
      assert d.secs[..0] + [d.secs[0] + tail] + [] == [d.secs[0] + tail];
      assert d.secs == [d.secs[0]];
      assert "" + d.secs[0] == d.secs[0];
    }
  }

  /** Whether `s` is plain text, or one section, does not depend on the newlines at its end. */
  lemma TrimKeepsTheOutline<S(!new)>(sc: Scanner<S>, s: string, nl: string)
    requires Sound(sc) && TrimNewlines(s) != "" && nl == "\n"
    ensures SameOutline(sc, s, TrimNewlines(s) + nl)
  {
    var n := TrimNewlinesSplits(s, nl);
    if n == 0 {
      OneNewlineMore(sc, s, nl);
    } else {
      FewerNewlines(sc, s, TrimNewlines(s), n - 1, nl);
    }
  }

  predicate SameOutline<S>(sc: Scanner<S>, s: string, t: string) {
    && (Plain(sc, s) ==> Plain(sc, t))
    && (OneSection(sc, s) ==> OneSection(sc, t))
    && After(sc, sc.start, s) == After(sc, sc.start, t)
  }

  lemma OneNewlineMore<S(!new)>(sc: Scanner<S>, s: string, nl: string)
    requires Sound(sc) && nl == "\n" && !Terminated(s)
    ensures SameOutline(sc, s, s + nl)
  {
    EndLine(sc, sc.start, s, nl);
    GlueIsOneMore(s, nl);
  }

  lemma FewerNewlines<S(!new)>(sc: Scanner<S>, s: string, u: string, n: nat, nl: string)
    requires Sound(sc) && nl == "\n" && s == u + nl + Newlines(n)
    ensures SameOutline(sc, s, u + nl)
  {
    var t := u + nl;
    assert IgnoresBlank(sc, After(sc, sc.start, t), nl);
    ParseConcat(sc, sc.start, t, Newlines(n));
    BlankLines(sc, After(sc, sc.start, t), n, nl);
    WholeOfParse(sc, sc.start, t);
    GlueIsOnePart(Parse(sc, sc.start, t), t, Newlines(n));
  }

  lemma GlueIsOneMore(u: string, tail: string)
    ensures Glue(Doc(u, []), Doc(tail, [])) == Doc(u + tail, [])
    ensures Glue(Doc("", [u]), Doc(tail, [])) == Doc("", [u + tail])
  {
    assert [u][..0] + [u + tail] + [] == [u + tail];
  }

  // ---------------------------------------------------------------- edits

  /** Ending in exactly one blank line; nothing at all stays nothing. */
  function Spaced(p: string): string { if TrimNewlines(p) == "" then "" else TrimNewlines(p) + "\n" + "\n" }

  lemma OneBlankLineMore<S(!new)>(sc: Scanner<S>, s: string, nl: string)
    requires Sound(sc) && nl == "\n" && Terminated(s)
    ensures SameOutline(sc, s, s + nl)
  {
    assert Newlines(1) == nl + Newlines(0) == nl;
    assert IgnoresBlank(sc, After(sc, sc.start, s), nl);
    ParseConcat(sc, sc.start, s, nl);
    BlankLines(sc, After(sc, sc.start, s), 1, nl);
    GlueIsOneMore(s, nl);
  }

  lemma SpacedKeepsTheOutline<S(!new)>(sc: Scanner<S>, s: string)
    requires Sound(sc)
    ensures TrimNewlines(s) != "" ==> SameOutline(sc, s, Spaced(s))
    ensures Plain(sc, s) ==> Plain(sc, Spaced(s))
    ensures Terminated(Spaced(s))
  {
    if TrimNewlines(s) != "" {
      TrimKeepsTheOutline(sc, s, "\n");
      OneBlankLineMore(sc, TrimNewlines(s) + "\n", "\n");
    }
  }

  lemma BlankIsPlain<S(!new)>(sc: Scanner<S>, s: string, nl: string)
    requires Sound(sc) && nl == "\n" && TrimNewlines(s) == ""
    ensures Plain(sc, s)
  {
    var n := TrimNewlinesSplits(s, nl);
    assert IgnoresBlank(sc, sc.start, nl);
    BlankLines(sc, sc.start, n, nl);
    assert s == Newlines(n);
  }

  lemma SpacedSection<S(!new)>(sc: Scanner<S>, s: string)
    requires Sound(sc) && OneSection(sc, s)
    ensures OneSection(sc, Spaced(s)) && Terminated(Spaced(s))
    ensures After(sc, sc.start, Spaced(s)) == After(sc, sc.start, s)
    ensures TrimNewlines(s) != ""
  {
    if TrimNewlines(s) == "" {
      BlankIsPlain(sc, s, "\n");
    } else {
      SpacedKeepsTheOutline(sc, s);
    }
  }

  /** `block` as a new section before section `j` (at the end when there is none), after
      exactly one blank line. */
  function Insert(d: Doc, j: nat, block: string): Doc
    requires j <= |d.secs|
  {
    if j == 0 then Doc(Spaced(d.pre), [block] + d.secs)
    else Doc(d.pre, d.secs[..j - 1] + [Spaced(d.secs[j - 1]), block] + d.secs[j..])
  }

  function Replace(d: Doc, i: nat, block: string): Doc
    requires i < |d.secs|
  {
    Doc(d.pre, d.secs[i := block])
  }

  lemma ReplaceIsWellFormed<S(!new)>(sc: Scanner<S>, d: Doc, i: nat, block: string)
    requires WellFormed(sc, d) && i < |d.secs| && OneSection(sc, block) && (Closed(sc, block) || i == |d.secs| - 1)
    ensures WellFormed(sc, Replace(d, i, block))
    ensures Parse(sc, sc.start, Whole(Replace(d, i, block))) == Replace(d, i, block)
  {
    ParseOfWhole(sc, Replace(d, i, block));
  }

  lemma InsertIsWellFormed<S(!new)>(sc: Scanner<S>, d: Doc, j: nat, block: string)
    requires Sound(sc) && WellFormed(sc, d) && j <= |d.secs| && OneSection(sc, block)
    requires if j < |d.secs| then Closed(sc, block) else After(sc, sc.start, Whole(d)) == sc.start
    ensures WellFormed(sc, Insert(d, j, block))
    ensures Parse(sc, sc.start, Whole(Insert(d, j, block))) == Insert(d, j, block)
  {
    if j == 0 {
      InsertFirst(sc, d, block);
    } else {
      ClosedWhenSpaced(sc, d, j);
      InsertLater(sc, d, j, block);
    }
    ParseOfWhole(sc, Insert(d, j, block));
  }

  lemma ClosedWhenSpaced<S(!new)>(sc: Scanner<S>, d: Doc, j: nat)
    requires Sound(sc) && WellFormed(sc, d) && 0 < j <= |d.secs|
    requires j == |d.secs| ==> After(sc, sc.start, Whole(d)) == sc.start
    ensures Closed(sc, Spaced(d.secs[j - 1])) && OneSection(sc, Spaced(d.secs[j - 1]))
  {
    SpacedSection(sc, d.secs[j - 1]);
    if j == |d.secs| {
      AfterLastSection(sc, d);
    }
  }

  lemma InsertFirst<S(!new)>(sc: Scanner<S>, d: Doc, block: string)
    requires Sound(sc) && WellFormed(sc, d) && OneSection(sc, block)
    requires if d.secs != [] then Closed(sc, block) else After(sc, sc.start, Whole(d)) == sc.start
    ensures WellFormed(sc, Insert(d, 0, block))
  {
    SpacedKeepsTheOutline(sc, d.pre);
    if d.secs == [] {
      assert Whole(d) == d.pre;
    }
    assert Closed(sc, Spaced(d.pre));
    OneMoreSection(sc, block, d.secs);
  }

  lemma InsertLater<S(!new)>(sc: Scanner<S>, d: Doc, j: nat, block: string)
    requires WellFormed(sc, d) && 0 < j <= |d.secs| && OneSection(sc, block)
    requires j < |d.secs| ==> Closed(sc, block)
    requires Closed(sc, Spaced(d.secs[j - 1])) && OneSection(sc, Spaced(d.secs[j - 1]))
    ensures WellFormed(sc, Insert(d, j, block))
  {
    var secs := Insert(d, j, block).secs;
    forall i | 0 <= i < |secs|
      ensures OneSection(sc, secs[i]) && (i < |secs| - 1 ==> Closed(sc, secs[i]))
    {
      assert secs[i]
          == if i < j - 1 then d.secs[i]
             else if i == j - 1 then Spaced(d.secs[i])
             else if i == j then block
             else d.secs[i - 1];
    }
  }

  lemma {:induction false} AfterSections<S>(sc: Scanner<S>, secs: seq<string>)
    requires WellFormed(sc, Doc("", secs)) && secs != []
    ensures After(sc, sc.start, Concat(secs)) == After(sc, sc.start, secs[|secs| - 1])
  {
    if |secs| == 1 {
      ConcatOne(secs[0]);
      assert secs == [secs[0]];
    } else {
      AfterSections(sc, secs[1..]);
      ParseConcat(sc, sc.start, secs[0], Concat(secs[1..]));
    }
  }

  lemma AfterLastSection<S>(sc: Scanner<S>, d: Doc)
    requires WellFormed(sc, d) && d.secs != []
    ensures After(sc, sc.start, Whole(d)) == After(sc, sc.start, d.secs[|d.secs| - 1])
  {
    ParseConcat(sc, sc.start, d.pre, Concat(d.secs));
    assert Plain(sc, "");
    AfterSections(sc, d.secs);
  }

  // ---------------------------------------------------------------- the text of an edited outline

  /** Everything before section `j`. */
  function Before(d: Doc, j: nat): string
    requires j <= |d.secs|
  {
    d.pre + Concat(d.secs[..j])
  }

  lemma WholeSplits(d: Doc, j: nat)
    requires j <= |d.secs|
    ensures Whole(d) == Before(d, j) + Concat(d.secs[j..])
  {
    assert d.secs == d.secs[..j] + d.secs[j..];
    ConcatOfConcat(d.secs[..j], d.secs[j..]);
  }

  lemma BeforeNext(d: Doc, j: nat)
    requires j < |d.secs|
    ensures Before(d, j + 1) == Before(d, j) + d.secs[j]
  {
    assert d.secs[..j + 1] == d.secs[..j] + [d.secs[j]];
    ConcatOfConcat(d.secs[..j], [d.secs[j]]);
    ConcatOne(d.secs[j]);
  }

  lemma WholeOfReplace(d: Doc, i: nat, block: string)
    requires i < |d.secs|
    ensures Whole(Replace(d, i, block)) == Before(d, i) + block + Concat(d.secs[i + 1..])
  {
    var r := Replace(d, i, block);
    assert r.secs[..i] == d.secs[..i] && r.secs[i + 1..] == d.secs[i + 1..];
    WholeSplits(r, i + 1);
    BeforeNext(r, i);
  }

  /** insertMarkdownSectionBefore's text. */
  function InsertedText(before: string, block: string, after: string): string { Spaced(before) + block + after }

  lemma WholeOfInsert<S(!new)>(sc: Scanner<S>, d: Doc, j: nat, block: string)
    requires Sound(sc) && WellFormed(sc, d) && j <= |d.secs|
    ensures Whole(Insert(d, j, block)) == InsertedText(Before(d, j), block, Concat(d.secs[j..]))
  {
    if j == 0 {
      WholeOfInsertFirst(d, block);
      assert d.secs[0..] == d.secs;
    } else {
      SpacedSection(sc, d.secs[j - 1]);
      SpacedBefore(d, j);
      WholeOfInsertLater(d, j, block);
    }
  }

  lemma WholeOfInsertFirst(d: Doc, block: string)
    ensures Whole(Insert(d, 0, block)) == Spaced(d.pre) + block + Concat(d.secs)
    ensures Before(d, 0) == d.pre
  {
    assert Insert(d, 0, block).secs[1..] == d.secs;
    assert d.secs[..0] == [];
  }

  lemma SpacedBefore(d: Doc, j: nat)
    requires 0 < j <= |d.secs| && TrimNewlines(d.secs[j - 1]) != ""
    ensures Spaced(Before(d, j)) == Before(d, j - 1) + Spaced(d.secs[j - 1])
  {
    BeforeNext(d, j - 1);
    SpacedOfConcat(Before(d, j - 1), d.secs[j - 1]);
  }

  lemma SpacedOfConcat(a: string, s: string)
    requires TrimNewlines(s) != ""
    ensures Spaced(a + s) == a + Spaced(s)
  {
    var t := TrimNewlines(s);
    TrimNewlinesOfConcat(a, s);
    SpacedIs(s, t);
    SpacedIs(a + s, a + t);
    EndsAlike(a, t, "\n");
  }

  lemma SpacedIs(s: string, t: string)
    requires TrimNewlines(s) == t != ""
    ensures Spaced(s) == t + "\n" + "\n"
  {
  }

  lemma EndsAlike(a: string, t: string, nl: string)
    ensures (a + t) + nl + nl == a + (t + nl + nl)
  {
  }

  lemma WholeOfInsertLater(d: Doc, j: nat, block: string)
    requires 0 < j <= |d.secs|
    ensures Whole(Insert(d, j, block)) == Before(d, j - 1) + Spaced(d.secs[j - 1]) + block + Concat(d.secs[j..])
  {
    var r := Insert(d, j, block);
    assert r.secs[..j - 1] == d.secs[..j - 1] && r.secs[j + 1..] == d.secs[j..];
    WholeSplits(r, j + 1);
    BeforeNext(r, j);
    BeforeNext(r, j - 1);
  }
}
