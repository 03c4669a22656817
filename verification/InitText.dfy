/** The config told by its text: the parser's grammar, the order of the extra keys, and what a
    fresh `tb init` writes (cli/board.go, cli/config_template.go). */
module InitText {
  import opened Wrappers
  import opened Text
  import opened Config
  import opened ConfigLaws
  import opened ConfigFile
  import opened InitConfig

  // ---------------------------------------------------------------- the grammar of a line

  lemma {:induction false} FirstColon(key: string, rest: string)
    requires ':' !in key
    ensures IndexColon(key + ":" + rest) == |key|
  {
    if key == "" {
      assert key + ":" + rest == ":" + rest;
    } else {
      assert (key + ":" + rest)[1..] == key[1..] + ":" + rest;
      FirstColon(key[1..], rest);
    }
  }

  /** A line that is no comment is a key up to its first colon, and a value: both are trimmed, and
      one pair of quotes is taken off the value. */
  lemma EntryOfText(raw: string, key: string, rest: string)
    requires TrimSpace(raw) == key + ":" + rest && ':' !in key && !("#" <= TrimSpace(raw))
    ensures ParseLine(raw) == Some((TrimSpace(key), Unquote(rest)))
  {
    var line := TrimSpace(raw);
    FirstColon(key, rest);
    assert line[..|key|] == key && line[|key| + 1..] == rest;
  }

  lemma {:induction false} NoColon(s: string)
    requires ':' !in s
    ensures IndexColon(s) == -1
  {
    if s != "" {
      NoColon(s[1..]);
    }
  }

  /** Blank lines, comments and lines without a colon are no entries. */
  lemma NoEntry(raw: string)
    requires TrimSpace(raw) == "" || "#" <= TrimSpace(raw) || ':' !in TrimSpace(raw)
    ensures ParseLine(raw) == None
  {
    if ':' !in TrimSpace(raw) {
      NoColon(TrimSpace(raw));
    }
  }

  /** Of the quotes around a value one pair goes, single or double. */
  lemma QuotesOff(v: string, q: char, x: string)
    requires TrimSpace(v) == [q] + x + [q] && q in {'"', '\''}
    ensures Unquote(v) == x
  {
    assert TrimSpace(v)[1..|TrimSpace(v)| - 1] == x;
  }

  lemma NoQuotes(v: string)
    requires forall q, x :: q in {'"', '\''} ==> TrimSpace(v) != [q] + x + [q]
    ensures Unquote(v) == TrimSpace(v)
  {
    var t := TrimSpace(v);
    if |t| >= 2 && t[0] == t[|t| - 1] && t[0] in {'"', '\''} {
      assert t == [t[0]] + t[1..|t| - 1] + [t[0]];
    }
  }

  /** The last entry for a key is the one that counts. */
  lemma {:induction false} LastEntryWins(lines: seq<string>, i: nat, key: string, val: string)
    requires i < |lines| && ParseLine(lines[i]) == Some((key, val))
    requires forall j :: i < j < |lines| ==> ParseLine(lines[j]).None? || ParseLine(lines[j]).value.0 != key
    ensures key in Parse(lines) && Parse(lines)[key] == val
    decreases |lines|
  {
    var n := |lines| - 1;
    if i < n {
      LastEntryWins(lines[..n], i, key, val);
    }
  }

  lemma {:induction false} KeysOfEntries(lines: seq<string>, key: string)
    requires forall j :: 0 <= j < |lines| ==> ParseLine(lines[j]).None? || ParseLine(lines[j]).value.0 != key
    ensures key !in Parse(lines)
  {
    if lines != [] {
      KeysOfEntries(lines[..|lines| - 1], key);
    }
  }

  // ---------------------------------------------------------------- the order of the keys

  /** The extra keys are sorted like words in a dictionary: by the first place where they differ,
      a beginning of a word coming before the word. */
  lemma {:induction false} LessIff(a: string, b: string)
    ensures Less(a, b) <==> exists n: nat :: Differ(a, b, n)
  {
    if a != "" && b != "" && a[0] == b[0] {
      LessIff(a[1..], b[1..]);
      forall n: nat | Differ(a, b, n)
        ensures n > 0 && Differ(a[1..], b[1..], n - 1)
      {
        assert n > 0 ==> a[..n][1..] == a[1..][..n - 1] && b[..n][1..] == b[1..][..n - 1];
      }
      forall n: nat | Differ(a[1..], b[1..], n)
        ensures Differ(a, b, n + 1)
      {
        assert a[..n + 1] == [a[0]] + a[1..][..n] && b[..n + 1] == [b[0]] + b[1..][..n];
      }
    } else {
      assert Less(a, b) ==> Differ(a, b, 0);
      assert forall n: nat :: Differ(a, b, n) && n > 0 ==> a[..n][0] == b[..n][0];
    }
  }

  predicate Differ(a: string, b: string, n: nat) {
    n <= |a| && n < |b| && a[..n] == b[..n] && (n < |a| ==> a[n] < b[n])
  }

  // ---------------------------------------------------------------- the template

  /** What the file shows for the key is read back, unquoted; None means that no line is an entry
      for it. */
  lemma ReadFromFile(t: Template, values: map<string, string>, k: string)
    requires FileTemplate(t) && OneLineShown(t, values)
    ensures Looks(ReadConfig(Rendered(t, values)), k, Written(t, values, k))
  {
    AllLinesAreOneLine(t, values);
    ReadOfJoined(Lines(Items(t, values)));
    ParseOfRender(t, values, k);
  }

  /** Where the optional keys are. */
  lemma OptionalSlots(c: Wording)
    ensures var s := ConfigTemplate(c);
            && |s| == 25 && s[13] == Optional("wip_limit", "2") && s[14] == Optional("wip_limit_ready", "5")
            && s[15] == Optional("wip_limit_in_progress", "2") && s[16] == Optional("wip_limit_code_review", "3")
            && s[21] == Optional("wip_enforcement", "warn")
            && s[24] == Optional("scan_extensions", ".go,.ts,.svelte,.js,.tsx,.jsx")
  {
  }

  /** Board and prefix are always in the file, with their defaults when they have no value; the
      limits, the enforcement and the extensions only when they have one; and any other key of the
      values is. */
  lemma InitShows(c: Wording, t: Template, values: map<string, string>, m: map<string, string>)
    requires ProperWording(c) && t == TheTemplate(c) && OneLineShown(t, values) && m == ReadConfig(Rendered(t, values))
    ensures Looks(m, "board", Some(if Value(values, "board") == "" then "board" else Value(values, "board")))
    ensures Looks(m, "prefix", Some(if Value(values, "prefix") == "" then "PR" else Value(values, "prefix")))
    ensures forall k :: k in OptionalKeys() ==>
              Looks(m, k, if Value(values, k) == "" then None else Some(Value(values, k)))
    ensures forall k :: k !in OptionalKeys() + {"board"} + {"prefix"} ==>
              Looks(m, k, if k in values then Some(values[k]) else None)
  {
    TheTemplateIsValid(c);
    OptionalSlots(c);
    ReadFromFile(t, values, "board");
    ReadFromFile(t, values, "prefix");
    forall k | k in OptionalKeys()
      ensures Looks(m, k, if Value(values, k) == "" then None else Some(Value(values, k)))
    {
      var i := OptionalSlot(t.slots, k);
      SlotOfItsKey(t.slots, i);
      ReadFromFile(t, values, k);
    }
    forall k | k !in OptionalKeys() + {"board"} + {"prefix"}
      ensures Looks(m, k, if k in values then Some(values[k]) else None)
    {
      NoSlot(t, k);
      ReadFromFile(t, values, k);
    }
  }

  /** What `tb init` leaves in the config, as it is read afterwards: for board and prefix the flag's
      value, without one what was there, and the default when that is empty; every other key that
      had a value keeps it. */
  lemma InitReads(c: Wording, t: Template, data: string, board: Option<string>, prefix: Option<string>,
                  was: map<string, string>, m: map<string, string>)
    requires ProperWording(c) && t == TheTemplate(c) && OneLineShown(t, InitValues(was, board, prefix))
    requires was == ReadConfig(data) && m == ReadConfig(Reinit(t, data, board, prefix))
    ensures Looks(m, "board", Some(Chosen(board, Value(was, "board"), "board")))
    ensures Looks(m, "prefix", Some(Chosen(prefix, Value(was, "prefix"), "PR")))
    ensures forall k :: k !in {"board"} + {"prefix"} ==>
              Looks(m, k, if k !in was || (was[k] == "" && k in OptionalKeys()) then None else Some(was[k]))
  {
    var v := InitValues(was, board, prefix);
    ValuesOfInit(was, board, prefix, v, "board", "prefix");
    InitShows(c, t, v, m);
    forall k | k !in {"board"} + {"prefix"}
      ensures Looks(m, k, if k !in was || (was[k] == "" && k in OptionalKeys()) then None else Some(was[k]))
    {
      OtherKey(was, v, k, m);
    }
  }

  lemma ValuesOfInit(was: map<string, string>, board: Option<string>, prefix: Option<string>, v: map<string, string>,
                     b: string, p: string)
    requires v == InitValues(was, board, prefix) && b == "board" && p == "prefix"
    ensures (if Value(v, b) == "" then b else Value(v, b)) == Chosen(board, Value(was, b), b)
    ensures (if Value(v, p) == "" then "PR" else Value(v, p)) == Chosen(prefix, Value(was, p), "PR")
    ensures forall k :: k !in {b} + {p} ==> (k in v <==> k in was) && Value(v, k) == Value(was, k)
  {
  }

  lemma OtherKey(was: map<string, string>, v: map<string, string>, k: string, m: map<string, string>)
    requires (k in v <==> k in was) && Value(v, k) == Value(was, k)
    requires k in OptionalKeys() ==> Looks(m, k, if Value(v, k) == "" then None else Some(Value(v, k)))
    requires k !in OptionalKeys() ==> Looks(m, k, if k in v then Some(v[k]) else None)
    ensures Looks(m, k, if k !in was || (was[k] == "" && k in OptionalKeys()) then None else Some(was[k]))
  {
  }

  function Chosen(flag: Option<string>, was: string, d: string): string {
    if flag.Some? && flag.value != "" then flag.value
    else if flag.None? && was != "" then was
    else d
  }

  function OptionalKeys(): set<string> {
    {"wip_limit"} + {"wip_limit_ready"} + {"wip_limit_in_progress"} + {"wip_limit_code_review"}
    + {"wip_enforcement"} + {"scan_extensions"}
  }

  lemma OptionalSlot(s: seq<Slot>, k: string) returns (i: nat)
    requires |s| == 25 && s[13] == Optional("wip_limit", "2") && s[14] == Optional("wip_limit_ready", "5")
    requires s[15] == Optional("wip_limit_in_progress", "2") && s[16] == Optional("wip_limit_code_review", "3")
    requires s[21] == Optional("wip_enforcement", "warn")
    requires s[24] == Optional("scan_extensions", ".go,.ts,.svelte,.js,.tsx,.jsx") && k in OptionalKeys()
    ensures i < |s| && s[i].Optional? && s[i].key == k
  {
    i := if k == s[13].key then 13 else if k == s[14].key then 14 else if k == s[15].key then 15
         else if k == s[16].key then 16 else if k == s[21].key then 21 else 24;
  }

  lemma NoSlot(t: Template, k: string)
    requires ValidTemplate(t) && t.known == KnownKeys() && k !in OptionalKeys() + {"board"} + {"prefix"}
    ensures SlotFor(t.slots, k) == None
  {
  }

  /** The file of an init in a fresh directory, line by line; `c` has the wording of the comments. */
  lemma FreshInit(c: Wording)
    ensures Lines(Items(TheTemplate(c), map[]))
            == ["# " + c(0), "# " + c(1), "", "# " + c(2), "board: board", "", "# " + c(3), "prefix: PR", ""]
               + ["# " + c(4), "# " + c(5), "# " + c(6), "# " + c(7)]
               + ["# wip_limit: 2", "# wip_limit_ready: 5", "# wip_limit_in_progress: 2", "# wip_limit_code_review: 3"]
               + ["", "# " + c(8), "# " + c(9), "# " + c(10), "# wip_enforcement: warn"]
               + ["", "# " + c(11), "# scan_extensions: .go,.ts,.svelte,.js,.tsx,.jsx"]
  {
    NoExtras(TheTemplate(c));
    FreshBoard(c, map[]);
    FreshLimits(map[]);
    FreshEnforcement(c, map[]);
    FreshScan(c, map[]);
    FillSix(map[], BoardPart(c), PrefixPart(c), LimitsTitle(c), LimitsPart(), EnforcementPart(c), ScanPart(c));
  }

  lemma NoExtras(t: Template)
    ensures Items(t, map[]) == FillAll(map[], t.slots)
  {
    var ks := Extras(t, map[]);
    if ks != [] {
      NonEmptyElements(ks);
    }
  }

  function Filled(values: map<string, string>, slots: seq<Slot>): seq<string> { Lines(FillAll(values, slots)) }

  lemma FillSix(values: map<string, string>, a: seq<Slot>, b: seq<Slot>, c: seq<Slot>, d: seq<Slot>, e: seq<Slot>,
                f: seq<Slot>)
    ensures Filled(values, a + b + c + d + e + f)
            == Filled(values, a) + Filled(values, b) + Filled(values, c) + Filled(values, d) + Filled(values, e)
               + Filled(values, f)
  {
  }

  lemma FreshBoard(c: Wording, none: map<string, string>)
    requires none == map[]
    ensures Filled(none, BoardPart(c)) == ["# " + c(0), "# " + c(1), "", "# " + c(2), "board: board", ""]
    ensures Filled(none, PrefixPart(c)) == ["# " + c(3), "prefix: PR", ""]
    ensures Filled(none, LimitsTitle(c)) == ["# " + c(4), "# " + c(5), "# " + c(6), "# " + c(7)]
  {
    assert "board" + ": " + "board" == "board: board" && "prefix" + ": " + "PR" == "prefix: PR";
  }

  lemma FreshOptional(none: map<string, string>, key: string, d: string, line: string)
    requires none == map[] && line == "# " + (key + ": " + d)
    ensures Line(Fill(none, Optional(key, d))) == line
  {
  }

  lemma FreshLimits(none: map<string, string>)
    requires none == map[]
    ensures Filled(none, LimitsPart())
            == ["# wip_limit: 2", "# wip_limit_ready: 5", "# wip_limit_in_progress: 2", "# wip_limit_code_review: 3"]
  {
    FreshOptional(none, "wip_limit", "2", "# wip_limit: 2");
    FreshOptional(none, "wip_limit_ready", "5", "# wip_limit_ready: 5");
    FreshOptional(none, "wip_limit_in_progress", "2", "# wip_limit_in_progress: 2");
    FreshOptional(none, "wip_limit_code_review", "3", "# wip_limit_code_review: 3");
  }

  lemma FreshEnforcement(c: Wording, none: map<string, string>)
    requires none == map[]
    ensures Filled(none, EnforcementPart(c)) == ["", "# " + c(8), "# " + c(9), "# " + c(10), "# wip_enforcement: warn"]
  {
    FreshOptional(none, "wip_enforcement", "warn", "# wip_enforcement: warn");
  }

  lemma ScanLine(d: string)
    ensures "# " + ("scan_extensions" + ": " + d) == "# scan_extensions: " + d
  {
  }

  lemma ScanText(d: string)
    requires d == ".go,.ts,.svelte,.js,.tsx,.jsx"
    ensures "# scan_extensions: " + d == "# scan_extensions: .go,.ts,.svelte,.js,.tsx,.jsx"
  {
  }

  lemma FreshScan(c: Wording, none: map<string, string>)
    requires none == map[]
    ensures Filled(none, ScanPart(c)) == ["", "# " + c(11), "# scan_extensions: .go,.ts,.svelte,.js,.tsx,.jsx"]
  {
    ScanLine(".go,.ts,.svelte,.js,.tsx,.jsx");
    ScanText(".go,.ts,.svelte,.js,.tsx,.jsx");
  }
}
