/** The lines that the config printer writes, against the parser that reads lines; ConfigFile
    takes this to the text of the file.

    A rendered line is blank, a comment or an entry, and reads back as the entry's key and its
    unquoted value. So what is read back can be told key by key from what the template shows;
    and since lines determine items, the file written again can be compared item by item. */
module ConfigLaws {
  import opened Wrappers
  import opened Text
  import opened Config

  /** A key that survives a round trip, as every parsed key does. */
  predicate GoodKey(k: string) {
    ':' !in k && Unbroken(k) && (k == "" || (!IsSpace(k[0]) && !IsSpace(k[|k| - 1]) && k[0] != '#'))
  }

  predicate ValidItem(x: Item) { x.Entry? ==> GoodKey(x.key) }

  predicate AllValid(items: seq<Item>) { forall i :: 0 <= i < |items| ==> ValidItem(items[i]) }

  // ---------------------------------------------------------------- one line

  lemma {:induction false} TrimRightOfConcat(a: string, b: string)
    ensures TrimRightSpace(a + b) == if TrimRightSpace(b) == "" then TrimRightSpace(a) else a + TrimRightSpace(b)
    decreases |b|
  {
    if b == "" {
      assert a + b == a;
    } else if IsSpace(b[|b| - 1]) {
      assert (a + b)[..|a + b| - 1] == a + b[..|b| - 1];
      TrimRightOfConcat(a, b[..|b| - 1]);
    }
  }

  lemma {:induction false} TrimRightTwice(s: string)
    ensures TrimRightSpace(TrimRightSpace(s)) == TrimRightSpace(s)
  {
    if s != "" && IsSpace(s[|s| - 1]) {
      TrimRightTwice(s[..|s| - 1]);
    }
  }

  /** What is after the colon of an entry's trimmed line. */
  function Tail(value: string): string { TrimRightSpace(" " + value) }

  lemma TrimOfTail(value: string)
    ensures TrimSpace(Tail(value)) == TrimSpace(value)
  {
    TrimRightOfConcat(" ", value);
    TrimRightTwice(" " + value);
    assert TrimRightSpace(" ") == TrimRightSpace("") by { assert " "[..0] == ""; }
    if TrimRightSpace(value) != "" {
      assert (" " + TrimRightSpace(value))[1..] == TrimRightSpace(value);
    }
  }

  lemma TrimOfEntry(key: string, value: string)
    requires GoodKey(key)
    ensures TrimSpace(key + ": " + value) == key + ":" + Tail(value)
  {
    var head := key + ":";
    assert key + ": " + value == head + (" " + value);
    TrimRightOfConcat(head, " " + value);
    assert head[|head| - 1] == ':' && !IsSpace(':');
    assert TrimRightSpace(head) == head;
    assert head + "" == head;
    var line := head + Tail(value);
    assert line[0] == if key == "" then ':' else key[0];
  }

  lemma {:induction false} ColonAfterKey(key: string, rest: string)
    requires ':' !in key
    ensures IndexColon(key + ":" + rest) == |key|
  {
    if key == "" {
      assert key + ":" + rest == ":" + rest;
    } else {
      assert (key + ":" + rest)[1..] == key[1..] + ":" + rest;
      ColonAfterKey(key[1..], rest);
    }
  }

  lemma TrimOfKey(key: string)
    requires GoodKey(key)
    ensures TrimSpace(key) == key
  {
  }

  lemma ParseOfEntry(key: string, value: string)
    requires GoodKey(key)
    ensures ParseLine(key + ": " + value) == Some((key, Unquote(value)))
  {
    var line := key + ":" + Tail(value);
    TrimOfEntry(key, value);
    ColonAfterKey(key, Tail(value));
    assert line[..|key|] == key && line[|key| + 1..] == Tail(value);
    assert line[0] == if key == "" then ':' else key[0];
    TrimOfKey(key);
    TrimOfTail(value);
  }

  lemma {:induction false} TrimKeepsTheHead(s: string)
    requires s != "" && !IsSpace(s[0])
    ensures TrimRightSpace(s) != "" && TrimRightSpace(s)[0] == s[0]
  {
    if IsSpace(s[|s| - 1]) {
      TrimKeepsTheHead(s[..|s| - 1]);
    }
  }

  lemma ParseOfNote(text: string)
    ensures ParseLine("# " + text) == None && ParseLine("") == None
  {
    assert ("# " + text)[0] == '#';
    TrimKeepsTheHead("# " + text);
  }

  // ---------------------------------------------------------------- all lines

  function EntryMap(key: string, value: string): map<string, string> { map[key := Unquote(value)] }

  function ItemMap(x: Item): map<string, string> { if x.Entry? then EntryMap(x.key, x.value) else map[] }

  /** The map the items describe; a later entry wins. */
  function Read(items: seq<Item>): map<string, string> {
    if items == [] then map[] else Read(items[..|items| - 1]) + ItemMap(items[|items| - 1])
  }

  lemma ParseOfItem(x: Item)
    requires ValidItem(x)
    ensures ParseLine(Line(x)) == if x.Entry? then Some((x.key, Unquote(x.value))) else None
  {
    match x {
      case Blank => ParseOfNote("");
      case Note(text) => ParseOfNote(text);
      case Entry(key, value) => ParseOfEntry(key, value);
    }
  }

  lemma LinesSnoc(items: seq<Item>)
    requires items != []
    ensures Lines(items)[..|items| - 1] == Lines(items[..|items| - 1])
    ensures Lines(items)[|items| - 1] == Line(items[|items| - 1])
  {
  }

  lemma UpdateIsMerge(m: map<string, string>, k: string, v: string)
    ensures m[k := Unquote(v)] == m + EntryMap(k, v)
  {
  }

  lemma {:induction false} ParseOfLines(items: seq<Item>)
    requires AllValid(items)
    ensures Parse(Lines(items)) == Read(items)
  {
    if items != [] {
      var n := |items| - 1;
      ParseOfLines(items[..n]);
      LinesSnoc(items);
      ParseLastLine(Lines(items), Read(items[..n]), items[n]);
    }
  }

  lemma ParseLastLine(lines: seq<string>, m: map<string, string>, x: Item)
    requires lines != [] && Parse(lines[..|lines| - 1]) == m && lines[|lines| - 1] == Line(x) && ValidItem(x)
    ensures Parse(lines) == m + ItemMap(x)
  {
    ParseOfItem(x);
    WithItem(m, x, ParseLine(lines[|lines| - 1]));
  }

  lemma WithItem(m: map<string, string>, x: Item, e: Option<(string, string)>)
    requires e == if x.Entry? then Some((x.key, Unquote(x.value))) else None
    ensures With(m, e) == m + ItemMap(x)
  {
    if x.Entry? {
      UpdateIsMerge(m, x.key, x.value);
    }
  }

  lemma MergeAssoc(a: map<string, string>, b: map<string, string>, c: map<string, string>)
    ensures a + b + c == a + (b + c)
  {
  }

  lemma {:induction false} ReadConcat(a: seq<Item>, b: seq<Item>)
    ensures Read(a + b) == Read(a) + Read(b)
  {
    if b == [] {
      assert a + b == a;
    } else {
      var n := |b| - 1;
      assert (a + b)[..|a| + n] == a + b[..n];
      ReadConcat(a, b[..n]);
      MergeAssoc(Read(a), Read(b[..n]), ItemMap(b[n]));
    }
  }

  lemma ReadTitle(text: string)
    ensures Read([Blank, Note(text)]) == map[]
  {
    assert [Blank, Note(text)][..1] == [Blank] && [Blank][..0] == [];
  }

  function ExtraMap(values: map<string, string>, ks: set<string>): map<string, string> {
    map k | k in ks :: Unquote(Value(values, k))
  }

  lemma OneMoreExtra(values: map<string, string>, ks: set<string>, k: string)
    ensures ExtraMap(values, ks + {k}) == ExtraMap(values, ks) + EntryMap(k, Value(values, k))
  {
  }

  lemma {:induction false} ReadEntries(values: map<string, string>, ks: seq<string>)
    ensures Read(Entries(values, ks)) == ExtraMap(values, Elements(ks))
  {
    if ks != [] {
      var n := |ks| - 1;
      ReadEntries(values, ks[..n]);
      EntriesSnoc(values, ks);
      OneMoreExtra(values, Elements(ks[..n]), ks[n]);
    }
  }

  lemma EntriesSnoc(values: map<string, string>, ks: seq<string>)
    requires ks != []
    ensures var n := |ks| - 1;
            && Entries(values, ks)[..n] == Entries(values, ks[..n])
            && Entries(values, ks)[n] == Entry(ks[n], Value(values, ks[n]))
            && Elements(ks) == Elements(ks[..n]) + {ks[n]}
  {
  }

  lemma ReadExtra(t: Template, values: map<string, string>, ks: seq<string>)
    ensures Read(ExtraItems(t, values, ks)) == ExtraMap(values, Elements(ks))
  {
    if ks != [] {
      ReadTitle(t.extraTitle);
      ReadConcat([Blank, Note(t.extraTitle)], Entries(values, ks));
      ReadEntries(values, ks);
    }
  }

  // ---------------------------------------------------------------- the template

  predicate ValidSlot(s: Slot) {
    match s
    case Skip => true
    case Comment(_) => true
    case Required(key, d) => GoodKey(key) && d != "" && Unquote(d) == d
    case Optional(key, _) => GoodKey(key)
  }

  predicate Keyed(s: Slot) { s.Required? || s.Optional? }

  predicate HasKey(s: Slot, k: string) { Keyed(s) && s.key == k }

  /** The slot of a key. */
  function SlotFor(slots: seq<Slot>, k: string): Option<Slot> {
    if slots == [] then None
    else if HasKey(slots[|slots| - 1], k) then Some(slots[|slots| - 1])
    else SlotFor(slots[..|slots| - 1], k)
  }

  /** No key has two slots. */
  predicate DistinctKeys(slots: seq<Slot>) {
    slots != [] ==>
      var n := |slots| - 1;
      DistinctKeys(slots[..n]) && (!Keyed(slots[n]) || SlotFor(slots[..n], slots[n].key) == None)
  }

  ghost predicate ValidTemplate(t: Template) {
    && (forall i :: 0 <= i < |t.slots| ==> ValidSlot(t.slots[i]))
    && DistinctKeys(t.slots)
    && (forall k :: k in t.known <==> SlotFor(t.slots, k).Some?)
  }

  /** The value a slot's line shows, if it is not left as a comment. */
  function Shown(values: map<string, string>, s: Slot): Option<string> {
    match s
    case Skip => None
    case Comment(_) => None
    case Required(key, d) => Some(OrElse(Value(values, key), d))
    case Optional(key, _) => if Value(values, key) != "" then Some(Value(values, key)) else None
  }

  /** The value that the rendered config shows for a key. */
  function Written(t: Template, values: map<string, string>, k: string): Option<string> {
    var s := SlotFor(t.slots, k);
    if s.Some? then Shown(values, s.value)
    else if k in values then Some(values[k])
    else None
  }

  lemma {:induction false} SlotForHasKey(slots: seq<Slot>, k: string)
    ensures SlotFor(slots, k).Some? ==> HasKey(SlotFor(slots, k).value, k) && SlotFor(slots, k).value in slots
  {
    if slots != [] {
      SlotForHasKey(slots[..|slots| - 1], k);
    }
  }

  ghost predicate Looks(m: map<string, string>, k: string, v: Option<string>) {
    (k in m <==> v.Some?) && (k in m ==> m[k] == Unquote(v.value))
  }

  lemma FillSnoc(values: map<string, string>, slots: seq<Slot>)
    requires slots != []
    ensures var n := |slots| - 1;
            && FillAll(values, slots)[..n] == FillAll(values, slots[..n])
            && FillAll(values, slots)[n] == Fill(values, slots[n])
  {
  }

  lemma {:induction false} ReadSlots(values: map<string, string>, slots: seq<Slot>, k: string)
    requires DistinctKeys(slots)
    ensures Looks(Read(FillAll(values, slots)), k,
                  if SlotFor(slots, k).Some? then Shown(values, SlotFor(slots, k).value) else None)
  {
    if slots != [] {
      var n := |slots| - 1;
      ReadSlots(values, slots[..n], k);
      FillSnoc(values, slots);
    }
  }

  /** What is read back from the rendered config, key by key. */
  lemma ReadItems(t: Template, values: map<string, string>, k: string)
    requires ValidTemplate(t)
    ensures Looks(Read(Items(t, values)), k, Written(t, values, k))
  {
    ReadSlots(values, t.slots, k);
    ReadExtra(t, values, Extras(t, values));
    ReadConcat(FillAll(values, t.slots), ExtraItems(t, values, Extras(t, values)));
  }

  // ---------------------------------------------------------------- the round trip

  ghost predicate GoodKeys(values: map<string, string>) { forall k :: k in values ==> GoodKey(k) }

  lemma FillsAreValid(values: map<string, string>, slots: seq<Slot>)
    requires forall i :: 0 <= i < |slots| ==> ValidSlot(slots[i])
    ensures AllValid(FillAll(values, slots))
  {
  }

  lemma ExtraIsValid(t: Template, values: map<string, string>, ks: seq<string>)
    requires ValidTemplate(t) && forall k :: k in Elements(ks) ==> GoodKey(k)
    ensures AllValid(ExtraItems(t, values, ks))
  {
    assert forall i :: 0 <= i < |ks| ==> ks[i] in Elements(ks);
  }

  lemma ItemsAreValid(t: Template, values: map<string, string>)
    requires ValidTemplate(t) && GoodKeys(values)
    ensures AllValid(Items(t, values))
  {
    FillsAreValid(values, t.slots);
    ExtraIsValid(t, values, Extras(t, values));
  }

  lemma ParseOfRender(t: Template, values: map<string, string>, k: string)
    requires ValidTemplate(t) && GoodKeys(values)
    ensures Looks(Parse(Lines(Items(t, values))), k, Written(t, values, k))
  {
    ItemsAreValid(t, values);
    ParseOfLines(Items(t, values));
    ReadItems(t, values, k);
  }

  /** The values a config file can hold: no key is missing that the template always writes,
      no known key is empty, and no value is changed by trimming and unquoting. */
  ghost predicate Normal(t: Template, values: map<string, string>) {
    && (forall k :: SlotFor(t.slots, k).Some? && SlotFor(t.slots, k).value.Required? ==> k in values)
    && (forall k :: k in values ==> Unquote(values[k]) == values[k] && (k in t.known ==> values[k] != ""))
  }

  lemma NormalKey(t: Template, values: map<string, string>, k: string)
    requires ValidTemplate(t)
    ensures (SlotFor(t.slots, k).Some? && SlotFor(t.slots, k).value.Required? ==> k in values)
            && (k in values ==> Unquote(values[k]) == values[k] && (k in t.known ==> values[k] != ""))
            <==> Looks(values, k, Written(t, values, k))
  {
    SlotForHasKey(t.slots, k);
  }

  /** Rendering and parsing lines give back the same map exactly when its values are normal. */
  lemma LinesRoundTripIff(t: Template, values: map<string, string>)
    requires ValidTemplate(t) && GoodKeys(values)
    ensures Parse(Lines(Items(t, values))) == values <==> Normal(t, values)
  {
    var m := Parse(Lines(Items(t, values)));
    forall k
      ensures Looks(m, k, Written(t, values, k))
      ensures (SlotFor(t.slots, k).Some? && SlotFor(t.slots, k).value.Required? ==> k in values)
              && (k in values ==> Unquote(values[k]) == values[k] && (k in t.known ==> values[k] != ""))
              <==> Looks(values, k, Written(t, values, k))
    {
      ParseOfRender(t, values, k);
      NormalKey(t, values, k);
    }
  }

  // ---------------------------------------------------------------- a repeated init

  lemma LineInjective(x: Item, y: Item)
    requires ValidItem(x) && ValidItem(y) && Line(x) == Line(y)
    ensures x == y
  {
    if x.Entry? && y.Entry? {
      EntrySplits(x.key, x.value);
      EntrySplits(y.key, y.value);
    } else if x.Entry? {
      EntryHead(x.key, x.value);
    } else if y.Entry? {
      EntryHead(y.key, y.value);
    } else if x.Note? && y.Note? {
      assert ("# " + x.text)[2..] == x.text && ("# " + y.text)[2..] == y.text;
    }
  }

  lemma EntryHead(key: string, value: string)
    requires GoodKey(key)
    ensures (key + ": " + value)[0] != '#'
  {
  }

  lemma EntrySplits(key: string, value: string)
    requires GoodKey(key)
    ensures var line := key + ": " + value;
            && IndexColon(line) == |key| && |key| + 2 <= |line|
            && line[..|key|] == key && line[|key| + 2..] == value
  {
    assert key + ": " + value == key + ":" + (" " + value);
    ColonAfterKey(key, " " + value);
  }

  lemma LinesInjective(a: seq<Item>, b: seq<Item>)
    requires AllValid(a) && AllValid(b) && Lines(a) == Lines(b)
    ensures a == b
  {
    assert |Lines(a)| == |Lines(b)|;
    forall i | 0 <= i < |a|
      ensures a[i] == b[i]
    {
      assert Lines(a)[i] == Lines(b)[i];
      LineInjective(a[i], b[i]);
    }
  }

  /** What the rendered config depends on. */
  ghost predicate SameToTheTemplate(t: Template, v: map<string, string>, w: map<string, string>) {
    && (forall i :: 0 <= i < |t.slots| ==> Fill(v, t.slots[i]) == Fill(w, t.slots[i]))
    && v.Keys - t.known == w.Keys - t.known
    && (forall k :: k in v.Keys - t.known ==> v[k] == w[k])
  }

  lemma SameExtras(t: Template, v: map<string, string>, w: map<string, string>)
    requires v.Keys - t.known == w.Keys - t.known
    ensures Extras(t, v) == Extras(t, w)
  {
    SortedIsUnique(Extras(t, v), Extras(t, w));
  }

  lemma ItemsDependOnThat(t: Template, v: map<string, string>, w: map<string, string>)
    requires v.Keys - t.known == w.Keys - t.known
    ensures Items(t, v) == Items(t, w) <==> SameToTheTemplate(t, v, w)
  {
    var ks := Extras(t, v);
    SameExtras(t, v, w);
    SameFills(t.slots, v, w);
    SameEntries(t, ks, v, w);
    SameParts(FillAll(v, t.slots), ExtraItems(t, v, ks), FillAll(w, t.slots), ExtraItems(t, w, ks));
  }

  lemma SameParts(a: seq<Item>, b: seq<Item>, c: seq<Item>, d: seq<Item>)
    requires |a| == |c|
    ensures a + b == c + d <==> a == c && b == d
  {
    if a + b == c + d {
      assert (a + b)[..|a|] == a && (c + d)[..|a|] == c;
      assert (a + b)[|a|..] == b && (c + d)[|a|..] == d;
    }
  }

  lemma SameFills(slots: seq<Slot>, v: map<string, string>, w: map<string, string>)
    ensures FillAll(v, slots) == FillAll(w, slots)
            <==> forall i :: 0 <= i < |slots| ==> Fill(v, slots[i]) == Fill(w, slots[i])
  {
    forall i | 0 <= i < |slots|
      ensures FillAll(v, slots)[i] == Fill(v, slots[i]) && FillAll(w, slots)[i] == Fill(w, slots[i])
    {
    }
  }

  lemma SameEntries(t: Template, ks: seq<string>, v: map<string, string>, w: map<string, string>)
    requires Elements(ks) == v.Keys - t.known == w.Keys - t.known
    ensures ExtraItems(t, v, ks) == ExtraItems(t, w, ks) <==> forall k :: k in v.Keys - t.known ==> v[k] == w[k]
  {
    assert forall i :: 0 <= i < |ks| ==> ks[i] in Elements(ks);
    SameParts([Blank, Note(t.extraTitle)], Entries(v, ks), [Blank, Note(t.extraTitle)], Entries(w, ks));
    if Entries(v, ks) == Entries(w, ks) {
      forall k | k in v.Keys - t.known
        ensures v[k] == w[k]
      {
        var i :| 0 <= i < |ks| && ks[i] == k;
        assert Entries(v, ks)[i] == Entries(w, ks)[i];
      }
    }
  }

  /** No value shown in the config is changed by trimming and unquoting. */
  ghost predicate Stable(t: Template, values: map<string, string>) {
    forall k :: Written(t, values, k).Some? ==> Unquote(Written(t, values, k).value) == Written(t, values, k).value
  }

  /** `w` is what is read back from the config rendered for `v`. */
  ghost predicate ReadsBack(t: Template, v: map<string, string>, w: map<string, string>) {
    forall k :: Looks(w, k, Written(t, v, k))
  }

  lemma {:induction false} SlotOfItsKey(slots: seq<Slot>, i: nat)
    requires i < |slots| && DistinctKeys(slots) && Keyed(slots[i])
    ensures SlotFor(slots, slots[i].key) == Some(slots[i])
  {
    var n := |slots| - 1;
    if i < n {
      SlotOfItsKey(slots[..n], i);
      assert slots[..n][i] == slots[i];
    }
  }

  lemma SameFillIff(t: Template, v: map<string, string>, w: map<string, string>, i: nat)
    requires ValidTemplate(t) && i < |t.slots| && ReadsBack(t, v, w)
    ensures var s := t.slots[i];
            Fill(v, s) == Fill(w, s)
            <==> Keyed(s) && Shown(v, s).Some? ==> Unquote(Shown(v, s).value) == Shown(v, s).value
  {
    var s := t.slots[i];
    if Keyed(s) {
      SlotOfItsKey(t.slots, i);
      assert Looks(w, s.key, Written(t, v, s.key));
      assert ValidSlot(s);
    }
  }

  lemma SameExtraKeys(t: Template, v: map<string, string>, w: map<string, string>)
    requires ValidTemplate(t) && ReadsBack(t, v, w)
    ensures v.Keys - t.known == w.Keys - t.known
  {
    forall k
      ensures k in v.Keys - t.known <==> k in w.Keys - t.known
    {
      assert Looks(w, k, Written(t, v, k));
    }
  }

  lemma StableIffSame(t: Template, v: map<string, string>, w: map<string, string>)
    requires ValidTemplate(t) && ReadsBack(t, v, w)
    ensures Stable(t, v) <==> SameToTheTemplate(t, v, w)
  {
    SameExtraKeys(t, v, w);
    forall i | 0 <= i < |t.slots|
      ensures var s := t.slots[i];
              Fill(v, s) == Fill(w, s)
              <==> Keyed(s) && Shown(v, s).Some? ==> Unquote(Shown(v, s).value) == Shown(v, s).value
    {
      SameFillIff(t, v, w, i);
    }
    forall k | k in v.Keys - t.known
      ensures w[k] == Unquote(v[k]) && Written(t, v, k) == Some(v[k])
    {
      assert Looks(w, k, Written(t, v, k));
    }
    if Stable(t, v) {
      StableIsSame(t, v, w);
    }
    if SameToTheTemplate(t, v, w) {
      SameIsStable(t, v, w);
    }
  }

  lemma StableIsSame(t: Template, v: map<string, string>, w: map<string, string>)
    requires ValidTemplate(t) && Stable(t, v) && v.Keys - t.known == w.Keys - t.known && ReadsBack(t, v, w)
    ensures SameToTheTemplate(t, v, w)
  {
    forall i | 0 <= i < |t.slots|
      ensures Fill(v, t.slots[i]) == Fill(w, t.slots[i])
    {
      SameFillIff(t, v, w, i);
      if Keyed(t.slots[i]) {
        SlotOfItsKey(t.slots, i);
        assert Written(t, v, t.slots[i].key) == Shown(v, t.slots[i]);
      }
    }
    forall k | k in v.Keys - t.known
      ensures v[k] == w[k]
    {
      assert Looks(w, k, Written(t, v, k));
    }
  }

  lemma SameIsStable(t: Template, v: map<string, string>, w: map<string, string>)
    requires ValidTemplate(t) && SameToTheTemplate(t, v, w) && ReadsBack(t, v, w)
    ensures Stable(t, v)
  {
    forall k | Written(t, v, k).Some?
      ensures Unquote(Written(t, v, k).value) == Written(t, v, k).value
    {
      assert Looks(w, k, Written(t, v, k));
      SlotForHasKey(t.slots, k);
      if SlotFor(t.slots, k).Some? {
        var i :| 0 <= i < |t.slots| && t.slots[i] == SlotFor(t.slots, k).value;
        SameFillIff(t, v, w, i);
      }
    }
  }

  lemma KeysReadBackAreGood(t: Template, v: map<string, string>, w: map<string, string>)
    requires ValidTemplate(t) && GoodKeys(v) && ReadsBack(t, v, w)
    ensures GoodKeys(w)
  {
    forall k | k in w
      ensures GoodKey(k)
    {
      assert Looks(w, k, Written(t, v, k));
      SlotForHasKey(t.slots, k);
    }
  }

  /** Rendering what was read back writes the same lines exactly when every value shown is
      stable under trimming and unquoting. */
  lemma LinesAgainIff(t: Template, values: map<string, string>)
    requires ValidTemplate(t) && GoodKeys(values)
    ensures Lines(Items(t, Parse(Lines(Items(t, values))))) == Lines(Items(t, values)) <==> Stable(t, values)
  {
    var w := Parse(Lines(Items(t, values)));
    forall k
      ensures Looks(w, k, Written(t, values, k))
    {
      ParseOfRender(t, values, k);
    }
    SameExtraKeys(t, values, w);
    StableIffSame(t, values, w);
    ItemsDependOnThat(t, values, w);
    KeysReadBackAreGood(t, values, w);
    ItemsAreValid(t, values);
    ItemsAreValid(t, w);
    if Lines(Items(t, w)) == Lines(Items(t, values)) {
      LinesInjective(Items(t, w), Items(t, values));
    }
  }

  // ---------------------------------------------------------------- what the parser yields

  lemma {:induction false} TrimRightEnds(s: string)
    ensures TrimRightSpace(s) != "" ==> !IsSpace(TrimRightSpace(s)[|TrimRightSpace(s)| - 1])
    ensures forall c :: c in TrimRightSpace(s) ==> c in s
  {
    if s != "" && IsSpace(s[|s| - 1]) {
      TrimRightEnds(s[..|s| - 1]);
    }
  }

  lemma {:induction false} TrimLeftStarts(s: string)
    ensures TrimLeftSpace(s) != "" ==>
              !IsSpace(TrimLeftSpace(s)[0]) && TrimLeftSpace(s)[|TrimLeftSpace(s)| - 1] == s[|s| - 1]
    ensures forall c :: c in TrimLeftSpace(s) ==> c in s
  {
    if s != "" && IsSpace(s[0]) {
      TrimLeftStarts(s[1..]);
    }
  }

  lemma TrimEnds(s: string)
    ensures var t := TrimSpace(s); t != "" ==> !IsSpace(t[0]) && !IsSpace(t[|t| - 1])
    ensures forall c :: c in TrimSpace(s) ==> c in s
  {
    TrimRightEnds(s);
    TrimLeftStarts(TrimRightSpace(s));
  }

  lemma {:induction false} NoColonBefore(s: string)
    requires IndexColon(s) >= 0
    ensures ':' !in s[..IndexColon(s)]
  {
    if s[0] != ':' {
      NoColonBefore(s[1..]);
      assert s[..IndexColon(s)] == [s[0]] + s[1..][..IndexColon(s) - 1];
    }
  }

  lemma UnquoteIsUnbroken(v: string)
    requires Unbroken(v)
    ensures Unbroken(Unquote(v))
  {
    TrimEnds(v);
    var t := TrimSpace(v);
    assert forall i :: 0 <= i < |t| ==> t[i] in v;
  }

  lemma ParsedKeyIsGood(raw: string)
    requires ParseLine(raw).Some? && Unbroken(raw)
    ensures GoodKey(ParseLine(raw).value.0) && Unbroken(ParseLine(raw).value.1)
  {
    var line := TrimSpace(raw);
    var idx := IndexColon(line);
    TrimEnds(raw);
    TrimEnds(line[..idx]);
    UnquoteIsUnbroken(line[idx + 1..]);
    NoColonBefore(line);
    if idx > 0 {
      TrimKeepsTheHead(line[..idx]);
    }
  }

  lemma {:induction false} ParsedKeysAreGood(lines: seq<string>)
    requires forall i :: 0 <= i < |lines| ==> Unbroken(lines[i])
    ensures GoodKeys(Parse(lines)) && forall k :: k in Parse(lines) ==> Unbroken(Parse(lines)[k])
  {
    if lines != [] {
      var n := |lines| - 1;
      ParsedKeysAreGood(lines[..n]);
      if ParseLine(lines[n]).Some? {
        ParsedKeyIsGood(lines[n]);
      }
    }
  }
}
