/** The string functions the Markdown code is written with, and how they act on lines.

    A string is a sequence of characters; an offset counts characters where the program's
    counts bytes. A line comes with its newline: a text is its first line followed by the
    rest, and only the last line of a text can lack one. */
module Text {

  /** unicode.IsSpace. */
  predicate IsSpace(c: char) {
    || c in {'\t', '\n', '\U{0B}', '\U{0C}', '\r', ' ', '\U{85}', '\U{A0}', '\U{1680}'}
    || '\U{2000}' <= c <= '\U{200A}'
    || c in {'\U{2028}', '\U{2029}', '\U{202F}', '\U{205F}', '\U{3000}'}
  }

  function TrimLeftSpace(s: string): string {
    if s != "" && IsSpace(s[0]) then TrimLeftSpace(s[1..]) else s
  }

  function TrimRightSpace(s: string): string {
    if s != "" && IsSpace(s[|s| - 1]) then TrimRightSpace(s[..|s| - 1]) else s
  }

  /** strings.TrimSpace. */
  function TrimSpace(s: string): string { TrimLeftSpace(TrimRightSpace(s)) }

  /** strings.TrimRight(s, "\n"). */
  function TrimNewlines(s: string): (t: string)
    ensures t <= s && (t != "" ==> t[|t| - 1] != '\n')
  {
    if s != "" && s[|s| - 1] == '\n' then TrimNewlines(s[..|s| - 1]) else s
  }

  predicate HasPrefix(s: string, p: string) { p <= s }

  /** strings.TrimSuffix(s, "\r"). */
  function TrimReturn(s: string): string {
    if s != "" && s[|s| - 1] == '\r' then s[..|s| - 1] else s
  }

  /** strings.IndexByte(s, '\n'). */
  function IndexNewline(s: string): (i: int)
    ensures -1 <= i < |s|
  {
    if s == "" then -1
    else if s[0] == '\n' then 0
    else
      var i := IndexNewline(s[1..]);
      if i == -1 then -1 else i + 1
  }

  /** The first newline, or none. */
  lemma {:induction false} FirstNewline(s: string)
    ensures var i := IndexNewline(s); if i == -1 then '\n' !in s else s[i] == '\n' && '\n' !in s[..i]
  {
    if s != "" && s[0] != '\n' {
      FirstNewline(s[1..]);
    }
  }

  // ---------------------------------------------------------------- lines

  /** The first line with its newline, if it has one. */
  function FirstLine(s: string): (l: string)
    requires s != ""
    ensures l != "" && l <= s
  {
    var i := IndexNewline(s);
    if i == -1 then s else s[..i + 1]
  }

  function Rest(s: string): string
    requires s != ""
  {
    s[|FirstLine(s)|..]
  }

  /** The text is made of whole lines. */
  predicate Terminated(s: string) { s == "" || s[|s| - 1] == '\n' }

  lemma {:induction false} IndexOfConcat(a: string, b: string)
    requires IndexNewline(a) >= 0
    ensures IndexNewline(a + b) == IndexNewline(a)
  {
    if a[0] != '\n' {
      assert (a + b)[1..] == a[1..] + b;
      IndexOfConcat(a[1..], b);
    }
  }

  lemma SameFirstLine(a: string, b: string)
    requires IndexNewline(a) >= 0
    ensures a != "" && FirstLine(a + b) == FirstLine(a)
  {
    IndexOfConcat(a, b);
  }

  lemma FirstLineOfConcat(a: string, b: string)
    requires a != "" && Terminated(a)
    ensures FirstLine(a + b) == FirstLine(a) && Rest(a + b) == Rest(a) + b && Terminated(Rest(a))
    ensures Terminated(FirstLine(a))
  {
    assert a[|a| - 1] in a;
    FirstNewline(a);
    IndexOfConcat(a, b);
  }

  lemma FirstLineIsWhole(s: string)
    requires s != ""
    ensures s == FirstLine(s) + Rest(s) && (Rest(s) != "" ==> Terminated(FirstLine(s)))
    ensures FirstLine(FirstLine(s)) == FirstLine(s) && Rest(FirstLine(s)) == ""
  {
    FirstNewline(s);
    if IndexNewline(s) >= 0 {
      IndexOfFirstLine(s);
    }
  }

  lemma {:induction false} IndexOfFirstLine(s: string)
    requires IndexNewline(s) >= 0
    ensures IndexNewline(s[..IndexNewline(s) + 1]) == IndexNewline(s)
  {
    if s[0] != '\n' {
      IndexOfFirstLine(s[1..]);
      assert s[..IndexNewline(s) + 1][1..] == s[1..][..IndexNewline(s)];
    }
  }

  lemma OneLine(l: string)
    requires '\n' !in l
    ensures FirstLine(l + "\n") == l + "\n" && Rest(l + "\n") == ""
  {
    FirstNewline(l + "\n");
    assert (l + "\n")[|l|] == '\n';
  }

  // ---------------------------------------------------------------- trimming

  /** The same line, whether or not one looks at its newline and carriage return. */
  lemma TrimIgnoresLineEnd(l: string)
    ensures TrimSpace(l + "\n") == TrimSpace(l) == TrimSpace(TrimReturn(l))
  {
    assert (l + "\n")[..|l|] == l;
  }

  lemma {:induction false} TrimNewlinesSplits(s: string, nl: string) returns (n: nat)
    requires nl == "\n"
    ensures n == 0 ==> s == TrimNewlines(s)
    ensures n > 0 ==> s == TrimNewlines(s) + nl + Newlines(n - 1)
  {
    if s != "" && s[|s| - 1] == '\n' {
      var m := TrimNewlinesSplits(s[..|s| - 1], nl);
      OneMoreNewline(s[..|s| - 1], TrimNewlines(s), m, nl);
      assert s == s[..|s| - 1] + nl;
      n := m + 1;
    } else {
      n := 0;
    }
  }

  lemma OneMoreNewline(s: string, t: string, m: nat, nl: string)
    requires nl == "\n" && s == if m == 0 then t else t + nl + Newlines(m - 1)
    ensures s + nl == t + nl + Newlines(m)
  {
    if m > 0 {
      NewlinesSnoc(m - 1);
      assert t + nl + Newlines(m - 1) + nl == t + nl + (Newlines(m - 1) + nl);
    }
  }

  function Newlines(n: nat): string { if n == 0 then "" else "\n" + Newlines(n - 1) }

  lemma {:induction false} NewlinesSnoc(n: nat)
    ensures Newlines(n + 1) == Newlines(n) + "\n"
  {
    if n > 0 {
      NewlinesSnoc(n - 1);
    }
  }

  lemma {:induction false} TrimNewlinesOfConcat(a: string, b: string)
    ensures TrimNewlines(a + b) == if TrimNewlines(b) == "" then TrimNewlines(a) else a + TrimNewlines(b)
    decreases |b|
  {
    if b == "" {
      assert a + b == a;
    } else if b[|b| - 1] == '\n' {
      assert (a + b)[..|a + b| - 1] == a + b[..|b| - 1];
      TrimNewlinesOfConcat(a, b[..|b| - 1]);
    }
  }

  // ---------------------------------------------------------------- texts of lines

  predicate Unbroken(s: string) { '\n' !in s }

  /** strings.Split(s, "\n"). */
  function Split(s: string): (lines: seq<string>)
    ensures lines != []
  {
    var i := IndexNewline(s);
    if i == -1 then [s] else [s[..i]] + Split(s[i + 1..])
  }

  /** Every line with a newline. */
  function Joined(lines: seq<string>): string {
    if lines == [] then "" else lines[0] + ("\n" + Joined(lines[1..]))
  }

  /** The lines again, those with inner newlines in pieces. */
  function Broken(lines: seq<string>): seq<string> {
    if lines == [] then [] else Split(lines[0]) + Broken(lines[1..])
  }

  lemma SplitIsUnbroken(s: string)
    ensures forall i :: 0 <= i < |Split(s)| ==> Unbroken(Split(s)[i])
    ensures |Split(s)| == 1 <==> Unbroken(s)
    ensures Unbroken(s) ==> Split(s) == [s]
  {
    FirstNewline(s);
    forall i | 0 <= i < |Split(s)|
      ensures Unbroken(Split(s)[i])
    {
      LineIsUnbroken(s, i);
    }
  }

  lemma {:induction false} LineIsUnbroken(s: string, i: nat)
    requires i < |Split(s)|
    ensures Unbroken(Split(s)[i])
  {
    var n := IndexNewline(s);
    FirstNewline(s);
    if n != -1 && i > 0 {
      LineIsUnbroken(s[n + 1..], i - 1);
    }
  }

  lemma {:induction false} FirstNewlineOf(a: string, b: string)
    ensures IndexNewline(a + ("\n" + b)) == if IndexNewline(a) == -1 then |a| else IndexNewline(a)
  {
    if a == "" {
      assert a + ("\n" + b) == "\n" + b;
    } else if a[0] != '\n' {
      assert (a + ("\n" + b))[1..] == a[1..] + ("\n" + b);
      FirstNewlineOf(a[1..], b);
    }
  }

  lemma SlicesOf(a: string, b: string, i: nat)
    requires i < |a|
    ensures (a + b)[..i] == a[..i] && (a + b)[i + 1..] == a[i + 1..] + b
  {
  }

  lemma SlicesAround(a: string, rest: string)
    requires rest != ""
    ensures (a + rest)[..|a|] == a && (a + rest)[|a| + 1..] == rest[1..]
  {
  }

  lemma {:induction false} SplitOfConcat(a: string, b: string)
    ensures Split(a + ("\n" + b)) == Split(a) + Split(b)
    decreases |a|
  {
    var rest, i := "\n" + b, IndexNewline(a);
    FirstNewlineOf(a, b);
    if i == -1 {
      SplitAfterLine(a, rest, b);
    } else {
      SplitOfConcat(a[i + 1..], b);
      SplitInside(a, rest, i);
      SplitAtNewline(a);
      Regrouped(Split(a + rest), a[..i], Split(a[i + 1..] + rest), Split(a), Split(a[i + 1..]), Split(b));
    }
  }

  lemma SplitAfterLine(a: string, rest: string, b: string)
    requires IndexNewline(a + rest) == |a| && |rest| > 0 && rest[1..] == b && IndexNewline(a) == -1
    ensures Split(a + rest) == Split(a) + Split(b)
  {
    SlicesAround(a, rest);
    SplitAtNewline(a + rest);
  }

  lemma SplitInside(a: string, rest: string, i: nat)
    requires IndexNewline(a + rest) == i < |a|
    ensures Split(a + rest) == [a[..i]] + Split(a[i + 1..] + rest)
  {
    SlicesOf(a, rest, i);
    SplitAtNewline(a + rest);
  }

  lemma SplitAtNewline(s: string)
    requires IndexNewline(s) >= 0
    ensures Split(s) == [s[..IndexNewline(s)]] + Split(s[IndexNewline(s) + 1..])
  {
  }

  lemma Regrouped(whole: seq<string>, x: string, rest: seq<string>, front: seq<string>, a: seq<string>, b: seq<string>)
    requires whole == [x] + rest && rest == a + b && front == [x] + a
    ensures whole == front + b
  {
  }

  lemma LastLine(a: seq<string>, b: seq<string>, x: string)
    ensures a + (b + [x]) == a + b + [x]
  {
  }

  /** Splitting a joined text gives its lines back, and the empty one after the last newline. */
  lemma {:induction false} SplitOfJoined(lines: seq<string>)
    ensures Split(Joined(lines)) == Broken(lines) + [""]
  {
    if lines != [] {
      SplitOfConcat(lines[0], Joined(lines[1..]));
      SplitOfJoined(lines[1..]);
      LastLine(Split(lines[0]), Broken(lines[1..]), "");
    }
  }

  lemma {:induction false} BrokenIsSame(lines: seq<string>)
    requires forall i :: 0 <= i < |lines| ==> Unbroken(lines[i])
    ensures Broken(lines) == lines
  {
    if lines != [] {
      SplitIsUnbroken(lines[0]);
      BrokenIsSame(lines[1..]);
    }
  }

  lemma {:induction false} BrokenConcat(a: seq<string>, b: seq<string>)
    ensures Broken(a + b) == Broken(a) + Broken(b)
  {
    if a == [] {
      assert a + b == b;
    } else {
      assert (a + b)[1..] == a[1..] + b;
      BrokenConcat(a[1..], b);
    }
  }

  /** A line with an inner newline makes the text longer than its lines. */
  lemma {:induction false} BrokenIsLonger(lines: seq<string>, i: nat)
    ensures |Broken(lines)| >= |lines|
    ensures i < |lines| && !Unbroken(lines[i]) ==> |Broken(lines)| > |lines|
  {
    if lines != [] {
      SplitIsUnbroken(lines[0]);
      BrokenIsLonger(lines[1..], if i > 0 then i - 1 else 0);
    }
  }
}
