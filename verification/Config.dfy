/** The project config: renderConfigTemplate (cli/config_template.go) writes it,
    parseSimpleYAML (cli/board.go) reads it, and a repeated `tb init` (cli/init.go) reads and
    writes it again. */
module Config {
  import opened Wrappers
  import opened Text

  // ---------------------------------------------------------------- parseSimpleYAML

  function IndexColon(s: string): (i: int)
    ensures -1 <= i < |s|
    ensures i >= 0 ==> s[i] == ':'
  {
    if s == "" then -1
    else if s[0] == ':' then 0
    else
      var i := IndexColon(s[1..]);
      if i == -1 then -1 else i + 1
  }

  predicate Wrapped(v: string, quote: char) { |v| >= 2 && v[0] == quote && v[|v| - 1] == quote }

  /** What the parser makes of a value: trimmed, and without one pair of matching quotes. */
  function Unquote(v: string): string {
    Unwrapped(TrimSpace(v))
  }

  function Unwrapped(t: string): string {
    if Wrapped(t, '"') || Wrapped(t, '\'') then t[1..|t| - 1] else t
  }

  method StripQuotes(v: string) returns (val: string)
    ensures val == Unwrapped(v)
  {
    val := v;
    if |val| >= 2 {
      if (val[0] == '"' && val[|val| - 1] == '"') || (val[0] == '\'' && val[|val| - 1] == '\'') {
        val := val[1..|val| - 1];
      }
    }
  }

  function ParseLine(raw: string): Option<(string, string)> {
    var line := TrimSpace(raw);
    if line == "" || HasPrefix(line, "#") then None
    else
      var idx := IndexColon(line);
      if idx == -1 then None else Some((TrimSpace(line[..idx]), Unquote(line[idx + 1..])))
  }

  lemma EntryIs(raw: string, line: string, idx: nat, key: string, val: string)
    requires line == TrimSpace(raw) && line != "" && !HasPrefix(line, "#") && idx == IndexColon(line)
    requires key == TrimSpace(line[..idx]) && val == Unquote(line[idx + 1..])
    ensures ParseLine(raw) == Some((key, val))
  {
  }

  /** The entries of the lines; a later line wins. */
  function Parse(lines: seq<string>): map<string, string> {
    if lines == [] then map[] else
    With(Parse(lines[..|lines| - 1]), ParseLine(lines[|lines| - 1]))
  }

  function With(m: map<string, string>, e: Option<(string, string)>): map<string, string> {
    if e.Some? then m[e.value.0 := e.value.1] else m
  }

  lemma ParseSnoc(lines: seq<string>, i: nat)
    requires i < |lines|
    ensures Parse(lines[..i + 1]) == With(Parse(lines[..i]), ParseLine(lines[i]))
  {
    assert lines[..i + 1][..i] == lines[..i];
  }

  function ReadConfig(data: string): map<string, string> { Parse(Split(data)) }

  method ParseSimpleYAML(data: string) returns (result: map<string, string>)
    ensures result == ReadConfig(data)
  {
    result := map[];
    var lines := Split(data);
    for i := 0 to |lines|
      invariant result == Parse(lines[..i])
    {
      ghost var e := ParseLine(lines[i]);
      ParseSnoc(lines, i);
      var line := TrimSpace(lines[i]);
      if line == "" || HasPrefix(line, "#") {
        assert e == None;
        continue;
      }
      var idx := IndexColon(line);
      if idx == -1 {
        assert e == None;
        continue;
      }
      var key := TrimSpace(line[..idx]);
      var val := StripQuotes(TrimSpace(line[idx + 1..]));
      EntryIs(lines[i], line, idx, key, val);
      result := result[key := val];
    }
    assert lines[..|lines|] == lines;
  }

  // ---------------------------------------------------------------- the order of the extra keys

  predicate Less(a: string, b: string) {
    b != "" && (a == "" || a[0] < b[0] || (a[0] == b[0] && Less(a[1..], b[1..])))
  }

  lemma {:induction false} LessIsTotal(a: string, b: string)
    ensures a == b || Less(a, b) || Less(b, a)
    ensures !(Less(a, b) && Less(b, a)) && !Less(a, a)
  {
    if a != "" && b != "" && a[0] == b[0] {
      LessIsTotal(a[1..], b[1..]);
      assert a == [a[0]] + a[1..] && b == [b[0]] + b[1..];
    }
    if a != "" {
      LessIsTotal(a[1..], a[1..]);
    }
  }

  lemma {:induction false} LessIsTransitive(a: string, b: string, c: string)
    requires Less(a, b) && Less(b, c)
    ensures Less(a, c)
  {
    if a != "" && a[0] == b[0] == c[0] {
      LessIsTransitive(a[1..], b[1..], c[1..]);
    }
  }

  predicate Sorted(s: seq<string>) { forall i, j :: 0 <= i < j < |s| ==> Less(s[i], s[j]) }

  function Elements(s: seq<string>): set<string> { set x | x in s }

  lemma InElements(s: seq<string>, x: string)
    ensures x in s <==> x in Elements(s)
  {
  }

  lemma NonEmptyElements(s: seq<string>)
    requires s != []
    ensures Elements(s) != {}
  {
    assert s[0] in Elements(s);
  }

  function Insert(x: string, s: seq<string>): seq<string> {
    if s == [] || Less(x, s[0]) then [x] + s else [s[0]] + Insert(x, s[1..])
  }

  /** sort.Strings. */
  function Sort(s: seq<string>): seq<string> {
    if s == [] then [] else Insert(s[|s| - 1], Sort(s[..|s| - 1]))
  }

  lemma {:induction false} InsertKeepsOrder(x: string, s: seq<string>)
    requires Sorted(s) && x !in s
    ensures Sorted(Insert(x, s)) && Elements(Insert(x, s)) == Elements(s) + {x}
  {
    if s == [] {
    } else if Less(x, s[0]) {
      forall j | 0 < j < |s|
        ensures Less(x, s[j])
      {
        LessIsTransitive(x, s[0], s[j]);
      }
    } else {
      LessIsTotal(x, s[0]);
      InsertKeepsOrder(x, s[1..]);
      var t := Insert(x, s[1..]);
      forall j | 0 <= j < |t|
        ensures Less(s[0], t[j])
      {
        assert t[j] in Elements(t);
        if t[j] != x {
          assert t[j] in s[1..];
        }
      }
      assert Elements(s) == {s[0]} + Elements(s[1..]);
      assert Elements([s[0]] + t) == {s[0]} + Elements(t);
    }
  }

  lemma {:induction false} SortSorts(s: seq<string>)
    requires forall i, j :: 0 <= i < j < |s| ==> s[i] != s[j]
    ensures Sorted(Sort(s)) && Elements(Sort(s)) == Elements(s)
  {
    if s != [] {
      var n := |s| - 1;
      SortSorts(s[..n]);
      InElements(Sort(s[..n]), s[n]);
      InsertKeepsOrder(s[n], Sort(s[..n]));
      assert Elements(s) == Elements(s[..n]) + {s[n]};
    }
  }

  /** Two sorted lists of the same keys are the same list. */
  lemma {:induction false} SortedIsUnique(a: seq<string>, b: seq<string>)
    requires Sorted(a) && Sorted(b) && Elements(a) == Elements(b)
    ensures a == b
    decreases |a|
  {
    if a == [] {
      if b != [] {
        NonEmptyElements(b);
      }
    } else {
      SameHead(a, b);
      SortedIsUnique(a[1..], b[1..]);
    }
  }

  lemma SameHead(a: seq<string>, b: seq<string>)
    requires Sorted(a) && Sorted(b) && Elements(a) == Elements(b) && a != []
    ensures b != [] && a[0] == b[0] && Elements(a[1..]) == Elements(b[1..])
  {
    assert a[0] in Elements(b);
    assert b[0] in Elements(a);
    var i :| 0 <= i < |b| && b[i] == a[0];
    var j :| 0 <= j < |a| && a[j] == b[0];
    LessIsTotal(a[0], b[0]);
    TailElements(a);
    TailElements(b);
  }

  lemma TailElements(a: seq<string>)
    requires Sorted(a) && a != []
    ensures Elements(a[1..]) == Elements(a) - {a[0]}
  {
    forall i | 0 < i < |a|
      ensures a[i] != a[0]
    {
      LessIsTotal(a[0], a[i]);
    }
    forall x | x in Elements(a) && x != a[0]
      ensures x in Elements(a[1..])
    {
      var i :| 0 <= i < |a| && a[i] == x;
      assert a[1..][i - 1] == x;
    }
  }

  // ---------------------------------------------------------------- renderConfigTemplate

  /** A rendered line: blank, a comment, or an entry. */
  datatype Item = Blank | Note(text: string) | Entry(key: string, value: string)

  function Line(x: Item): string {
    match x
    case Blank => ""
    case Note(text) => "# " + text
    case Entry(key, value) => key + ": " + value
  }

  function Lines(items: seq<Item>): seq<string> { seq(|items|, i requires 0 <= i < |items| => Line(items[i])) }

  /** A line of the template: blank; a comment; a key that is always written, with its default; or a
      key that is written only when it has a value, and left as a comment otherwise. */
  datatype Slot = Skip | Comment(text: string) | Required(key: string, d: string) | Optional(key: string, d: string)

  /** values[key], which is empty for a missing key. */
  function Value(values: map<string, string>, key: string): string { if key in values then values[key] else "" }

  function OrElse(v: string, d: string): string { if v == "" then d else v }

  function Fill(values: map<string, string>, slot: Slot): Item {
    match slot
    case Skip => Blank
    case Comment(text) => Note(text)
    case Required(key, d) => Entry(key, OrElse(Value(values, key), d))
    case Optional(key, d) => if Value(values, key) != "" then Entry(key, Value(values, key)) else Note(key + ": " + d)
  }

  function FillAll(values: map<string, string>, slots: seq<Slot>): seq<Item> {
    seq(|slots|, i requires 0 <= i < |slots| => Fill(values, slots[i]))
  }

  /** The wording of the template's comments, by number. */
  type Wording = nat -> string

  function BoardPart(c: Wording): seq<Slot> {
    [Comment(c(0)), Comment(c(1)), Skip, Comment(c(2)), Required("board", "board"), Skip]
  }

  function PrefixPart(c: Wording): seq<Slot> { [Comment(c(3)), Required("prefix", "PR"), Skip] }

  function LimitsTitle(c: Wording): seq<Slot> { [Comment(c(4)), Comment(c(5)), Comment(c(6)), Comment(c(7))] }

  function LimitsPart(): seq<Slot> {
    [Optional("wip_limit", "2"), Optional("wip_limit_ready", "5"),
     Optional("wip_limit_in_progress", "2"), Optional("wip_limit_code_review", "3")]
  }

  function EnforcementPart(c: Wording): seq<Slot> {
    [Skip, Comment(c(8)), Comment(c(9)), Comment(c(10)), Optional("wip_enforcement", "warn")]
  }

  function ScanPart(c: Wording): seq<Slot> {
    [Skip, Comment(c(11)), Optional("scan_extensions", ".go,.ts,.svelte,.js,.tsx,.jsx")]
  }

  function ConfigTemplate(c: Wording): seq<Slot> {
    BoardPart(c) + PrefixPart(c) + LimitsTitle(c) + LimitsPart() + EnforcementPart(c) + ScanPart(c)
  }

  function KnownKeys(): set<string> {
    {"board", "prefix", "wip_limit", "wip_limit_ready", "wip_limit_in_progress", "wip_limit_code_review",
     "wip_enforcement", "scan_extensions"}
  }

  /** A template with the keys it knows and the comment above the keys it does not. */
  datatype Template = Template(slots: seq<Slot>, known: set<string>, extraTitle: string)

  function TheTemplate(c: Wording): Template { Template(ConfigTemplate(c), KnownKeys(), c(12)) }

  ghost predicate ExtraKeys(t: Template, values: map<string, string>, ks: seq<string>) {
    Sorted(ks) && Elements(ks) == values.Keys - t.known
  }

  lemma {:induction false} ListOf(s: set<string>) returns (ks: seq<string>)
    ensures Elements(ks) == s && Distinct(ks)
  {
    if s == {} {
      ks := [];
    } else {
      var x :| x in s;
      var rest := ListOf(s - {x});
      OneMoreKey(rest, x);
      ks := rest + [x];
    }
  }

  lemma ExtraKeysExist(t: Template, values: map<string, string>)
    ensures exists ks :: ExtraKeys(t, values, ks)
  {
    var ks := ListOf(values.Keys - t.known);
    SortSorts(ks);
    assert ExtraKeys(t, values, Sort(ks));
  }

  /** The keys the template does not know, in order. */
  ghost function Extras(t: Template, values: map<string, string>): (ks: seq<string>)
    ensures ExtraKeys(t, values, ks)
  {
    ExtraKeysExist(t, values);
    var ks :| ExtraKeys(t, values, ks);
    ks
  }

  function Entries(values: map<string, string>, ks: seq<string>): seq<Item> {
    seq(|ks|, i requires 0 <= i < |ks| => Entry(ks[i], Value(values, ks[i])))
  }

  function ExtraItems(t: Template, values: map<string, string>, ks: seq<string>): seq<Item> {
    if ks == [] then [] else [Blank, Note(t.extraTitle)] + Entries(values, ks)
  }

  ghost function Items(t: Template, values: map<string, string>): seq<Item> {
    FillAll(values, t.slots) + ExtraItems(t, values, Extras(t, values))
  }

  predicate Distinct(s: seq<string>) { forall i, j :: 0 <= i < j < |s| ==> s[i] != s[j] }

  lemma OneMoreKey(s: seq<string>, key: string)
    requires Distinct(s) && key !in Elements(s)
    ensures Distinct(s + [key]) && Elements(s + [key]) == Elements(s) + {key}
  {
    assert forall i :: 0 <= i < |s| ==> s[i] in Elements(s);
  }

  /** The loop over the map, whatever the map's iteration order, and the sort. */
  method CollectExtraKeys(keys: set<string>, known: set<string>) returns (extraKeys: seq<string>)
    ensures Sorted(extraKeys) && Elements(extraKeys) == keys - known
  {
    extraKeys := [];
    var rest := keys;
    while rest != {}
      invariant rest <= keys && Elements(extraKeys) == keys - known - rest && Distinct(extraKeys)
      decreases |rest|
    {
      var key :| key in rest;
      rest := rest - {key};
      if key !in known {
        OneMoreKey(extraKeys, key);
        extraKeys := extraKeys + [key];
      }
    }
    SortSorts(extraKeys);
    extraKeys := Sort(extraKeys);
  }

  /** The rendered file. */
  ghost function Rendered(t: Template, values: map<string, string>): string { Joined(Lines(Items(t, values))) }

  method RenderConfigTemplate(t: Template, values: map<string, string>) returns (b: string)
    ensures b == Rendered(t, values)
  {
    var items := FillAll(values, t.slots);
    var extraKeys := CollectExtraKeys(values.Keys, t.known);
    SortedIsUnique(extraKeys, Extras(t, values));
    if |extraKeys| > 0 {
      items := items + ([Blank, Note(t.extraTitle)] + Entries(values, extraKeys));
    }
    assert items == Items(t, values);
    b := Joined(Lines(items));
  }
}
