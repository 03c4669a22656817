/** The config file as text: the printer and the parser undo each other exactly on normalised
    values of one line; and exactly when a repeated `tb init` changes nothing. */
module ConfigFile {
  import opened Wrappers
  import opened Text
  import opened Config
  import opened ConfigLaws

  /** The template's own words are of one line. */
  predicate OneLineSlot(s: Slot) {
    match s
    case Skip => true
    case Comment(text) => Unbroken(text)
    case Required(key, d) => Unbroken(d)
    case Optional(key, d) => Unbroken(d)
  }

  ghost predicate FileTemplate(t: Template) {
    ValidTemplate(t) && Unbroken(t.extraTitle) && forall i :: 0 <= i < |t.slots| ==> OneLineSlot(t.slots[i])
  }

  /** The keys and the values that the file shows are of one line. */
  ghost predicate OneLineShown(t: Template, values: map<string, string>) {
    GoodKeys(values) && forall k :: Written(t, values, k).Some? ==> Unbroken(Written(t, values, k).value)
  }

  lemma ReadIsOneLine(data: string)
    ensures GoodKeys(ReadConfig(data)) && forall k :: k in ReadConfig(data) ==> Unbroken(ReadConfig(data)[k])
  {
    SplitIsUnbroken(data);
    ParsedKeysAreGood(Split(data));
  }

  lemma ParseIgnoresTheEnd(lines: seq<string>)
    ensures Parse(lines + [""]) == Parse(lines)
  {
    assert (lines + [""])[..|lines|] == lines;
    ParseOfNote("");
  }

  /** The text of lines that are each one line reads as those lines. */
  lemma ReadOfJoined(lines: seq<string>)
    requires forall i :: 0 <= i < |lines| ==> Unbroken(lines[i])
    ensures ReadConfig(Joined(lines)) == Parse(lines)
  {
    SplitOfJoined(lines);
    BrokenIsSame(lines);
    ParseIgnoresTheEnd(lines);
  }

  lemma FilledSlotIsOneLine(t: Template, values: map<string, string>, i: nat)
    requires FileTemplate(t) && OneLineShown(t, values) && i < |t.slots|
    ensures Unbroken(Line(Fill(values, t.slots[i])))
  {
    var s := t.slots[i];
    assert ValidSlot(s) && OneLineSlot(s);
    if Keyed(s) {
      SlotOfItsKey(t.slots, i);
      assert Written(t, values, s.key) == Shown(values, s);
    }
  }

  lemma ExtraIsOneLine(t: Template, values: map<string, string>, k: string)
    requires FileTemplate(t) && OneLineShown(t, values) && k in values.Keys - t.known
    ensures Unbroken(k + ": " + Value(values, k))
  {
    assert Written(t, values, k) == Some(values[k]);
    assert GoodKey(k);
  }

  lemma LinesAreOneLine(t: Template, values: map<string, string>, i: nat)
    requires FileTemplate(t) && OneLineShown(t, values) && i < |Items(t, values)|
    ensures Unbroken(Lines(Items(t, values))[i])
  {
    var ks, n := Extras(t, values), |t.slots|;
    if i < n {
      FilledSlotIsOneLine(t, values, i);
    } else if i >= n + 2 {
      assert ks[i - n - 2] in Elements(ks);
      ExtraIsOneLine(t, values, ks[i - n - 2]);
    }
  }

  lemma AllLinesAreOneLine(t: Template, values: map<string, string>)
    requires FileTemplate(t) && OneLineShown(t, values)
    ensures forall i :: 0 <= i < |Lines(Items(t, values))| ==> Unbroken(Lines(Items(t, values))[i])
  {
    forall i | 0 <= i < |Lines(Items(t, values))|
      ensures Unbroken(Lines(Items(t, values))[i])
    {
      LinesAreOneLine(t, values, i);
    }
  }

  // ---------------------------------------------------------------- the round trip

  ghost predicate OneLineValues(values: map<string, string>) { forall k :: k in values ==> Unbroken(values[k]) }

  lemma ShownValuesAreOneLine(t: Template, values: map<string, string>)
    requires FileTemplate(t) && GoodKeys(values) && OneLineValues(values)
    ensures OneLineShown(t, values)
  {
    forall k | Written(t, values, k).Some?
      ensures Unbroken(Written(t, values, k).value)
    {
      SlotForHasKey(t.slots, k);
      if SlotFor(t.slots, k).Some? { assert OneLineSlot(SlotFor(t.slots, k).value); }
    }
  }

  /** For every map: the file written for it reads back as the same map if and only if its
      keys are good, no value has a line break in it, and its values are normal. */
  lemma RoundTripIff(t: Template, values: map<string, string>)
    requires FileTemplate(t)
    ensures ReadConfig(Rendered(t, values)) == values
            <==> GoodKeys(values) && OneLineValues(values) && Normal(t, values)
  {
    ReadIsOneLine(Rendered(t, values));
    if GoodKeys(values) && OneLineValues(values) {
      ShownValuesAreOneLine(t, values);
      AllLinesAreOneLine(t, values);
      ReadOfJoined(Lines(Items(t, values)));
      LinesRoundTripIff(t, values);
    }
  }

  // ---------------------------------------------------------------- writing it again

  lemma JoinedIsInjective(a: seq<string>, b: seq<string>)
    requires Joined(a) == Joined(b)
    ensures Broken(a) == Broken(b)
  {
    SplitOfJoined(a);
    SplitOfJoined(b);
    assert (Broken(a) + [""])[..|Broken(a)|] == Broken(a) && (Broken(b) + [""])[..|Broken(b)|] == Broken(b);
  }

  /** Slot `p` is a comment found nowhere below it; below it are optional keys, and the two
      keys that flags can set are above. */
  ghost predicate Marked(t: Template, p: nat, flags: set<string>) {
    && p < |t.slots| && t.slots[p].Comment? && t.extraTitle != t.slots[p].text
    && (forall i :: p < i < |t.slots| ==>
        t.slots[i].Optional? && t.slots[p].text != t.slots[i].key + ": " + t.slots[i].d)
    && (forall i :: p < i < |t.slots| ==> t.slots[i].key !in flags)
    && flags <= t.known
  }

  /** What `tb init` renders: only the values of flags can have line breaks in them. */
  ghost predicate FromInit(values: map<string, string>, flags: set<string>) {
    GoodKeys(values) && forall k :: k in values && k !in flags ==> Unbroken(values[k])
  }

  lemma NoteIsNoEntry(text: string, key: string, value: string)
    requires GoodKey(key)
    ensures "# " + text != key + ": " + value
  {
    EntryHead(key, value);
    assert ("# " + text)[0] == '#';
  }

  lemma NoMarkBelow(t: Template, w: map<string, string>, p: nat, q: nat, flags: set<string>)
    requires FileTemplate(t) && Marked(t, p, flags) && GoodKeys(w) && p < q < |Items(t, w)|
    ensures Lines(Items(t, w))[q] != "# " + t.slots[p].text
  {
    var x, ks, n := t.slots[p].text, Extras(t, w), |t.slots|;
    if q < n {
      var s := t.slots[q];
      assert ValidSlot(s);
      if Value(w, s.key) != "" { NoteIsNoEntry(x, s.key, Value(w, s.key)); }
      assert ("# " + x)[2..] == x && ("# " + (s.key + ": " + s.d))[2..] == s.key + ": " + s.d;
    } else if q == n + 1 {
      assert ("# " + x)[2..] == x && ("# " + t.extraTitle)[2..] == t.extraTitle;
    } else if q >= n + 2 {
      var k := ks[q - n - 2];
      assert k in Elements(ks);
      NoteIsNoEntry(x, k, Value(w, k));
    }
  }

  lemma BrokenKeyHasASlot(t: Template, v: map<string, string>, k: string, flags: set<string>) returns (i: nat)
    requires FileTemplate(t) && FromInit(v, flags) && flags <= t.known && Written(t, v, k).Some?
    requires !Unbroken(Written(t, v, k).value)
    ensures i < |t.slots| && HasKey(t.slots[i], k) && k in flags && Written(t, v, k) == Shown(v, t.slots[i])
  {
    SlotForHasKey(t.slots, k);
    assert SlotFor(t.slots, k).Some?;
    i :| 0 <= i < |t.slots| && t.slots[i] == SlotFor(t.slots, k).value;
    assert OneLineSlot(t.slots[i]);
  }

  /** A line break in a shown value is in a line above the mark. */
  lemma BreakIsAbove(t: Template, v: map<string, string>, p: nat, flags: set<string>) returns (i: nat)
    requires FileTemplate(t) && Marked(t, p, flags) && FromInit(v, flags) && !OneLineShown(t, v)
    ensures i < p && !Unbroken(Lines(Items(t, v))[i])
  {
    var k := BrokenKey(t, v);
    i := BrokenKeyHasASlot(t, v, k, flags);
    FlagIsAbove(t, p, flags, i, k);
    BrokenEntry(t, v, i, k, Lines(Items(t, v))[i]);
  }

  lemma BrokenKey(t: Template, v: map<string, string>) returns (k: string)
    requires GoodKeys(v) && !OneLineShown(t, v)
    ensures Written(t, v, k).Some? && !Unbroken(Written(t, v, k).value)
  {
    k :| Written(t, v, k).Some? && !Unbroken(Written(t, v, k).value);
  }

  lemma FlagIsAbove(t: Template, p: nat, flags: set<string>, i: nat, k: string)
    requires Marked(t, p, flags) && i < |t.slots| && HasKey(t.slots[i], k) && k in flags
    ensures i < p
  {
  }

  lemma BrokenEntry(t: Template, v: map<string, string>, i: nat, k: string, line: string)
    requires i < |t.slots| && HasKey(t.slots[i], k) && Shown(v, t.slots[i]).Some?
    requires !Unbroken(Shown(v, t.slots[i]).value)
    requires line == Lines(Items(t, v))[i]
    ensures !Unbroken(line)
  {
    assert line == k + ": " + Shown(v, t.slots[i]).value;
    BreakShows(k + ": ", Shown(v, t.slots[i]).value);
  }

  lemma BreakShows(a: string, b: string)
    requires !Unbroken(b)
    ensures !Unbroken(a + b)
  {
    var j :| 0 <= j < |b| && b[j] == '\n';
    assert (a + b)[|a| + j] == '\n';
  }

  lemma MarkMoves(t: Template, v: map<string, string>, p: nat, i: nat) returns (q: nat)
    requires FileTemplate(t) && p < |t.slots| && t.slots[p].Comment? && i < p && !Unbroken(Lines(Items(t, v))[i])
    ensures var b := Broken(Lines(Items(t, v))); p < q < |b| && b[q] == "# " + t.slots[p].text
  {
    MarkIsALine(t, v, p);
    q := LineMoves(Lines(Items(t, v)), p, i);
  }

  lemma MarkIsALine(t: Template, v: map<string, string>, p: nat)
    requires FileTemplate(t) && p < |t.slots| && t.slots[p].Comment?
    ensures Lines(Items(t, v))[p] == "# " + t.slots[p].text && Unbroken(Lines(Items(t, v))[p])
  {
    assert OneLineSlot(t.slots[p]);
  }

  /** Breaking an earlier line moves a line down. */
  lemma LineMoves(ls: seq<string>, p: nat, i: nat) returns (q: nat)
    requires i < p < |ls| && Unbroken(ls[p]) && !Unbroken(ls[i])
    ensures p < q < |Broken(ls)| && Broken(ls)[q] == ls[p]
  {
    q := |Broken(ls[..p])|;
    BrokenIsLonger(ls[..p], i);
    SplitIsUnbroken(ls[p]);
    BrokenAt(ls, p);
    InTheMiddle(Broken(ls[..p]), ls[p], Broken(ls[p + 1..]));
  }

  lemma BrokenAt(ls: seq<string>, p: nat)
    requires p < |ls|
    ensures Broken(ls) == Broken(ls[..p]) + (Split(ls[p]) + Broken(ls[p + 1..]))
  {
    assert ls == ls[..p] + ls[p..];
    BrokenConcat(ls[..p], ls[p..]);
    assert ls[p..][0] == ls[p] && ls[p..][1..] == ls[p + 1..];
  }

  lemma InTheMiddle(a: seq<string>, x: string, b: seq<string>)
    ensures |a| < |a + ([x] + b)| && (a + ([x] + b))[|a|] == x
  {
  }

  /** A file that shows a line break in a value is not what its own content renders to. */
  lemma BreaksAreNotKept(t: Template, v: map<string, string>, w: map<string, string>, p: nat, flags: set<string>)
    requires FileTemplate(t) && Marked(t, p, flags) && FromInit(v, flags) && !OneLineShown(t, v)
    requires GoodKeys(w) && OneLineValues(w)
    ensures Rendered(t, w) != Rendered(t, v)
  {
    var i := BreakIsAbove(t, v, p, flags);
    var q := MarkMoves(t, v, p, i);
    ShownValuesAreOneLine(t, w);
    AllLinesAreOneLine(t, w);
    BrokenIsSame(Lines(Items(t, w)));
    if Rendered(t, w) == Rendered(t, v) {
      JoinedIsInjective(Lines(Items(t, w)), Lines(Items(t, v)));
      NoMarkBelow(t, w, p, q, flags);
    }
  }

  /** Rendering what was read back writes the same file, byte for byte, if and only if no value
      shown has a line break, and none is changed by trimming and unquoting. */
  lemma RenderAgainIff(t: Template, v: map<string, string>, p: nat, flags: set<string>)
    requires FileTemplate(t) && Marked(t, p, flags) && FromInit(v, flags)
    ensures Rendered(t, ReadConfig(Rendered(t, v))) == Rendered(t, v) <==> OneLineShown(t, v) && Stable(t, v)
  {
    var w := ReadConfig(Rendered(t, v));
    ReadIsOneLine(Rendered(t, v));
    if OneLineShown(t, v) {
      AllLinesAreOneLine(t, v);
      ReadOfJoined(Lines(Items(t, v)));
      LinesAgainIff(t, v);
      ShownValuesAreOneLine(t, w);
      AllLinesAreOneLine(t, w);
      BrokenIsSame(Lines(Items(t, v)));
      BrokenIsSame(Lines(Items(t, w)));
      if Rendered(t, w) == Rendered(t, v) { JoinedIsInjective(Lines(Items(t, w)), Lines(Items(t, v))); }
    } else {
      BreaksAreNotKept(t, v, w, p, flags);
    }
  }
}
