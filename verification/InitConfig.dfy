/** The config of `tb init` (cli/init.go): the actual template, and a repeated init. */
module InitConfig {
  import opened Wrappers
  import opened Text
  import opened Config
  import opened ConfigLaws
  import opened ConfigFile

  // ---------------------------------------------------------------- the template is valid

  predicate AllSlots(slots: seq<Slot>) { forall i :: 0 <= i < |slots| ==> ValidSlot(slots[i]) }

  /** Valid slots, no key twice, and exactly the keys `ks`. */
  ghost predicate Part(slots: seq<Slot>, ks: set<string>) {
    AllSlots(slots) && DistinctKeys(slots) && forall k :: k in ks <==> SlotFor(slots, k).Some?
  }

  lemma {:induction false} SlotForConcat(a: seq<Slot>, b: seq<Slot>, k: string)
    ensures SlotFor(a + b, k) == if SlotFor(b, k).Some? then SlotFor(b, k) else SlotFor(a, k)
  {
    if b == [] {
      assert a + b == a;
    } else {
      var n := |b| - 1;
      assert (a + b)[..|a| + n] == a + b[..n];
      SlotForConcat(a, b[..n], k);
    }
  }

  lemma PartFront(b: seq<Slot>, ls: set<string>)
    requires Part(b, ls) && b != []
    ensures Part(b[..|b| - 1], if Keyed(b[|b| - 1]) then ls - {b[|b| - 1].key} else ls)
    ensures Keyed(b[|b| - 1]) ==> b[|b| - 1].key in ls
  {
    var n := |b| - 1;
    if Keyed(b[n]) {
      assert SlotFor(b, b[n].key).Some?;
    }
  }

  lemma {:induction false} DistinctConcat(a: seq<Slot>, b: seq<Slot>, ks: set<string>, ls: set<string>)
    requires Part(a, ks) && Part(b, ls) && ks !! ls
    ensures DistinctKeys(a + b)
  {
    if b == [] {
      assert a + b == a;
    } else {
      var n := |b| - 1;
      PartFront(b, ls);
      assert (a + b)[..|a| + n] == a + b[..n];
      DistinctConcat(a, b[..n], ks, if Keyed(b[n]) then ls - {b[n].key} else ls);
      if Keyed(b[n]) {
        SlotForConcat(a, b[..n], b[n].key);
      }
    }
  }

  lemma PartConcat(a: seq<Slot>, b: seq<Slot>, ks: set<string>, ls: set<string>)
    requires Part(a, ks) && Part(b, ls) && ks !! ls
    ensures Part(a + b, ks + ls)
  {
    DistinctConcat(a, b, ks, ls);
    forall k
      ensures k in ks + ls <==> SlotFor(a + b, k).Some?
    {
      SlotForConcat(a, b, k);
    }
  }

  lemma EmptyPart()
    ensures Part([], {})
  {
  }

  lemma OneMoreSlot(slots: seq<Slot>, ks: set<string>, s: Slot)
    requires Part(slots, ks) && ValidSlot(s) && (Keyed(s) ==> s.key !in ks)
    ensures Part(slots + [s], if Keyed(s) then ks + {s.key} else ks)
  {
    assert (slots + [s])[..|slots|] == slots;
  }

  lemma {:induction false} CommentsArePart(slots: seq<Slot>)
    requires forall i :: 0 <= i < |slots| ==> !Keyed(slots[i])
    ensures Part(slots, {})
  {
    if slots == [] {
      EmptyPart();
    } else {
      var n := |slots| - 1;
      CommentsArePart(slots[..n]);
      OneMoreSlot(slots[..n], {}, slots[n]);
      assert slots == slots[..n] + [slots[n]];
    }
  }

  /** Comments, a slot for `key`, and more comments. */
  lemma OneKeyPart(a: seq<Slot>, s: Slot, b: seq<Slot>)
    requires forall i :: 0 <= i < |a| ==> !Keyed(a[i])
    requires forall i :: 0 <= i < |b| ==> !Keyed(b[i])
    requires ValidSlot(s) && Keyed(s)
    ensures Part(a + [s] + b, {s.key})
  {
    CommentsArePart(a);
    CommentsArePart(b);
    OneMoreSlot(a, {}, s);
    PartConcat(a + [s], b, {s.key}, {});
  }

  /** A word without spaces, quotes, colons or line breaks. */
  predicate Word(w: string) {
    && w != "" && ':' !in w && Unbroken(w) && w[0] !in {'#', '"', '\''} && !IsSpace(w[0]) && !IsSpace(w[|w| - 1])
  }

  lemma PlainKey(w: string)
    requires Word(w)
    ensures GoodKey(w) && Unquote(w) == w
  {
  }

  lemma BoardPartIsValid(c: Wording)
    ensures Part(BoardPart(c), {"board"})
  {
    var a := [Comment(c(0)), Comment(c(1)), Skip, Comment(c(2))];
    PlainKey("board");
    OneKeyPart(a, Required("board", "board"), [Skip]);
    assert a + [Required("board", "board")] + [Skip] == BoardPart(c);
  }

  lemma PrefixPartIsValid(c: Wording)
    ensures Part(PrefixPart(c), {"prefix"})
  {
    PlainKey("prefix");
    PlainKey("PR");
    OneKeyPart([Comment(c(3))], Required("prefix", "PR"), [Skip]);
    assert [Comment(c(3))] + [Required("prefix", "PR")] + [Skip] == PrefixPart(c);
  }

  lemma LimitsTitleIsValid(c: Wording)
    ensures Part(LimitsTitle(c), {})
  {
    CommentsArePart(LimitsTitle(c));
  }

  function LimitKeys(): set<string> {
    {"wip_limit"} + {"wip_limit_ready"} + {"wip_limit_in_progress"} + {"wip_limit_code_review"}
  }

  lemma LimitsPartIsValid()
    ensures Part(LimitsPart(), LimitKeys())
  {
    LimitWords();
    FourSlots(Optional("wip_limit", "2"), Optional("wip_limit_ready", "5"),
              Optional("wip_limit_in_progress", "2"), Optional("wip_limit_code_review", "3"));
  }

  lemma LimitWords()
    ensures GoodKey("wip_limit") && GoodKey("wip_limit_ready") && GoodKey("wip_limit_in_progress")
    ensures GoodKey("wip_limit_code_review")
  {
  }

  lemma FourSlots(a: Slot, b: Slot, c: Slot, d: Slot)
    requires ValidSlot(a) && ValidSlot(b) && ValidSlot(c) && ValidSlot(d)
    requires Keyed(a) && Keyed(b) && Keyed(c) && Keyed(d)
    requires b.key != a.key && c.key !in {a.key, b.key} && d.key !in {a.key, b.key, c.key}
    ensures Part([a, b, c, d], {a.key} + {b.key} + {c.key} + {d.key})
  {
    EmptyPart();
    FourMore([], {}, a, b, c, d);
    FourInARow(a, b, c, d);
    NothingBefore({a.key});
    SamePart([] + [a] + [b] + [c] + [d], {} + {a.key} + {b.key} + {c.key} + {d.key},
             [a, b, c, d], {a.key} + {b.key} + {c.key} + {d.key});
  }

  lemma FourMore(slots: seq<Slot>, ks: set<string>, a: Slot, b: Slot, c: Slot, d: Slot)
    requires Part(slots, ks) && ValidSlot(a) && ValidSlot(b) && ValidSlot(c) && ValidSlot(d)
    requires Keyed(a) && Keyed(b) && Keyed(c) && Keyed(d) && a.key !in ks && b.key !in ks + {a.key}
    requires c.key !in ks + {a.key} + {b.key} && d.key !in ks + {a.key} + {b.key} + {c.key}
    ensures Part(slots + [a] + [b] + [c] + [d], ks + {a.key} + {b.key} + {c.key} + {d.key})
  {
    TwoSlots(slots, ks, a, b);
    TwoSlots(slots + [a] + [b], ks + {a.key} + {b.key}, c, d);
  }

  lemma SamePart(slots: seq<Slot>, ks: set<string>, same: seq<Slot>, sameKeys: set<string>)
    requires Part(slots, ks) && slots == same && ks == sameKeys
    ensures Part(same, sameKeys)
  {
  }

  lemma FourInARow<T>(a: T, b: T, c: T, d: T)
    ensures [] + [a] + [b] + [c] + [d] == [a, b, c, d]
  {
  }

  lemma NothingBefore<T>(x: set<T>)
    ensures {} + x == x
  {
  }

  lemma TwoSlots(slots: seq<Slot>, ks: set<string>, a: Slot, b: Slot)
    requires Part(slots, ks) && ValidSlot(a) && ValidSlot(b) && Keyed(a) && Keyed(b)
    requires a.key !in ks && b.key !in ks + {a.key}
    ensures Part(slots + [a] + [b], ks + {a.key} + {b.key})
  {
    OneMoreSlot(slots, ks, a);
    OneMoreSlot(slots + [a], ks + {a.key}, b);
  }

  lemma EnforcementPartIsValid(c: Wording)
    ensures Part(EnforcementPart(c), {"wip_enforcement"})
  {
    var a := [Skip, Comment(c(8)), Comment(c(9)), Comment(c(10))];
    PlainKey("wip_enforcement");
    OneKeyPart(a, Optional("wip_enforcement", "warn"), []);
    assert a + [Optional("wip_enforcement", "warn")] + [] == EnforcementPart(c);
  }

  lemma ScanPartIsValid(c: Wording)
    ensures Part(ScanPart(c), {"scan_extensions"})
  {
    var a, scan := [Skip, Comment(c(11))], Optional("scan_extensions", ".go,.ts,.svelte,.js,.tsx,.jsx");
    PlainKey("scan_extensions");
    OneKeyPart(a, scan, []);
    assert a + [scan] + [] == ScanPart(c);
  }

  lemma SixParts(a: seq<Slot>, ka: set<string>, b: seq<Slot>, kb: set<string>, c: seq<Slot>, kc: set<string>,
                 d: seq<Slot>, kd: set<string>, e: seq<Slot>, ke: set<string>, f: seq<Slot>, kf: set<string>)
    requires Part(a, ka) && Part(b, kb) && Part(c, kc) && Part(d, kd) && Part(e, ke) && Part(f, kf)
    requires ka !! kb !! kc !! kd !! ke !! kf
    ensures Part(a + b + c + d + e + f, ka + kb + kc + kd + ke + kf)
  {
    PartConcat(a, b, ka, kb);
    PartConcat(a + b, c, ka + kb, kc);
    PartConcat(a + b + c, d, ka + kb + kc, kd);
    PartConcat(a + b + c + d, e, ka + kb + kc + kd, ke);
    PartConcat(a + b + c + d + e, f, ka + kb + kc + kd + ke, kf);
  }

  lemma KnownKeysAreSplit()
    ensures {"board"} !! {"prefix"} !! {} !! LimitKeys() !! {"wip_enforcement"} !! {"scan_extensions"}
    ensures {"board"} + {"prefix"} + {} + LimitKeys() + {"wip_enforcement"} + {"scan_extensions"} == KnownKeys()
  {
  }

  lemma AllParts(c: Wording, ks: set<string>)
    requires ks == LimitKeys() && {"board"} !! {"prefix"} !! {} !! ks !! {"wip_enforcement"} !! {"scan_extensions"}
    ensures Part(ConfigTemplate(c), {"board"} + {"prefix"} + {} + ks + {"wip_enforcement"} + {"scan_extensions"})
  {
    BoardPartIsValid(c);
    PrefixPartIsValid(c);
    LimitsTitleIsValid(c);
    LimitsPartIsValid();
    EnforcementPartIsValid(c);
    ScanPartIsValid(c);
    SixParts(BoardPart(c), {"board"}, PrefixPart(c), {"prefix"}, LimitsTitle(c), {}, LimitsPart(), ks,
             EnforcementPart(c), {"wip_enforcement"}, ScanPart(c), {"scan_extensions"});
  }

  /** The comments are lines, and the one above the scanned extensions is like no line below it. */
  ghost predicate ProperWording(c: Wording) {
    && (forall i :: Unbroken(c(i)))
    && c(11) != c(12) && c(11) != "scan_extensions" + ": " + ".go,.ts,.svelte,.js,.tsx,.jsx"
  }

  function Flags(): set<string> { {"board", "prefix"} }

  /** A template that always writes the board and the prefix, with these defaults, above a mark. */
  ghost predicate InitTemplate(t: Template, p: nat) {
    && FileTemplate(t) && Marked(t, p, Flags())
    && SlotFor(t.slots, "board") == Some(Required("board", "board"))
    && SlotFor(t.slots, "prefix") == Some(Required("prefix", "PR"))
  }

  lemma SlotsOfTheTemplate(c: Wording)
    ensures var s := ConfigTemplate(c);
            && |s| == 25 && s[4] == Required("board", "board") && s[7] == Required("prefix", "PR")
            && s[23] == Comment(c(11)) && s[24] == Optional("scan_extensions", ".go,.ts,.svelte,.js,.tsx,.jsx")
  {
  }

  lemma CommentsAreOneLine(c: Wording)
    requires ProperWording(c)
    ensures OneLineSlots(BoardPart(c)) && OneLineSlots(PrefixPart(c)) && OneLineSlots(LimitsTitle(c))
  {
  }

  lemma LimitsAreOneLine()
    ensures OneLineSlots(LimitsPart())
  {
  }

  lemma EnforcementIsOneLine(c: Wording)
    requires ProperWording(c)
    ensures OneLineSlots(EnforcementPart(c))
  {
  }

  lemma ScanIsOneLine(c: Wording)
    requires ProperWording(c)
    ensures OneLineSlots(ScanPart(c))
  {
  }

  lemma SixOneLineParts(a: seq<Slot>, b: seq<Slot>, c: seq<Slot>, d: seq<Slot>, e: seq<Slot>, f: seq<Slot>)
    requires OneLineSlots(a) && OneLineSlots(b) && OneLineSlots(c) && OneLineSlots(d) && OneLineSlots(e)
    requires OneLineSlots(f)
    ensures OneLineSlots(a + b + c + d + e + f)
  {
    OneLineParts(a, b);
    OneLineParts(a + b, c);
    OneLineParts(a + b + c, d);
    OneLineParts(a + b + c + d, e);
    OneLineParts(a + b + c + d + e, f);
  }

  lemma PartsAreOneLine(c: Wording)
    requires ProperWording(c)
    ensures OneLineSlots(ConfigTemplate(c))
  {
    CommentsAreOneLine(c);
    LimitsAreOneLine();
    EnforcementIsOneLine(c);
    ScanIsOneLine(c);
    SixOneLineParts(BoardPart(c), PrefixPart(c), LimitsTitle(c), LimitsPart(), EnforcementPart(c), ScanPart(c));
  }

  ghost predicate OneLineSlots(s: seq<Slot>) { forall i :: 0 <= i < |s| ==> OneLineSlot(s[i]) }

  lemma OneLineParts(a: seq<Slot>, b: seq<Slot>)
    ensures OneLineSlots(a) && OneLineSlots(b) ==> OneLineSlots(a + b)
  {
  }

  /** The template of `tb init` is one, whatever its comments say. */
  lemma TheTemplateIsValid(c: Wording)
    requires ProperWording(c)
    ensures InitTemplate(TheTemplate(c), 23)
  {
    var t := TheTemplate(c);
    KnownKeysAreSplit();
    AllParts(c, LimitKeys());
    assert ValidTemplate(t);
    SlotsOfTheTemplate(c);
    PartsAreOneLine(c);
    SlotOfItsKey(t.slots, 4);
    SlotOfItsKey(t.slots, 7);
  }

  // ---------------------------------------------------------------- a repeated init

  /** The values that init renders over those it reads: a flag's, or else the one there, or
      else the default. */
  function WithDefault(existing: map<string, string>, key: string, flag: Option<string>,
                       d: string): map<string, string> {
    existing[key := if flag.Some? then flag.value else OrElse(Value(existing, key), d)]
  }

  function InitValues(existing: map<string, string>, board: Option<string>,
                      prefix: Option<string>): map<string, string> {
    WithDefault(WithDefault(existing, "board", board, "board"), "prefix", prefix, "PR")
  }

  /** `tb init` over an existing config: the file it leaves. */
  ghost function Reinit(t: Template, data: string, board: Option<string>, prefix: Option<string>): string {
    Rendered(t, InitValues(ReadConfig(data), board, prefix))
  }

  lemma DefaultsAreTheTemplates(t: Template, v: map<string, string>, key: string, d: string)
    requires ValidTemplate(t) && SlotFor(t.slots, key) == Some(Required(key, d))
    ensures Items(t, WithDefault(v, key, None, d)) == Items(t, v)
  {
    var w := WithDefault(v, key, None, d);
    forall i | 0 <= i < |t.slots|
      ensures Fill(v, t.slots[i]) == Fill(w, t.slots[i])
    {
      if Keyed(t.slots[i]) {
        SlotOfItsKey(t.slots, i);
      }
    }
    ItemsDependOnThat(t, v, w);
  }

  /** Without flags, init renders what it reads. */
  lemma ReinitRenders(t: Template, p: nat, data: string)
    requires InitTemplate(t, p)
    ensures Reinit(t, data, None, None) == Rendered(t, ReadConfig(data))
  {
    var v := ReadConfig(data);
    var w := WithDefault(v, "board", None, "board");
    DefaultsAreTheTemplates(t, v, "board", "board");
    DefaultsAreTheTemplates(t, w, "prefix", "PR");
  }

  lemma FlagsAreKnown(t: Template, p: nat, data: string, board: Option<string>, prefix: Option<string>)
    requires InitTemplate(t, p)
    ensures FromInit(InitValues(ReadConfig(data), board, prefix), Flags())
  {
    ReadIsOneLine(data);
    PlainKey("board");
    PlainKey("prefix");
  }

  /** For every existing config file and every flags: a second init, without flags, changes
      nothing if and only if no value shown after the first has a line break in it, or quotes
      or spaces around it. */
  lemma ReinitTwiceIff(t: Template, p: nat, data: string, board: Option<string>, prefix: Option<string>)
    requires InitTemplate(t, p)
    ensures var v := InitValues(ReadConfig(data), board, prefix);
            var first := Reinit(t, data, board, prefix);
            Reinit(t, first, None, None) == first <==> OneLineShown(t, v) && Stable(t, v)
  {
    var v := InitValues(ReadConfig(data), board, prefix);
    FlagsAreKnown(t, p, data, board, prefix);
    ReinitRenders(t, p, Rendered(t, v));
    RenderAgainIff(t, v, p, Flags());
  }

  lemma BadBoard(t: Template, p: nat, board: string)
    requires InitTemplate(t, p) && board != "" && (!Unbroken(board) || Unquote(board) != board)
    ensures var first := Reinit(t, "", Some(board), None); Reinit(t, first, None, None) != first
  {
    assert Written(t, InitValues(ReadConfig(""), Some(board), None), "board") == Some(board);
    ReinitTwiceIff(t, p, "", Some(board), None);
  }

  lemma UnquoteNested(v: string, inner: string)
    requires v == "\"'x'\"" && inner == "'x'"
    ensures Unquote(v) == inner && Unquote(inner) == "x" != inner
  {
  }

  /** A value in quotes loses a pair at every init. */
  lemma NestedQuotesAreNotStable(t: Template, p: nat)
    requires InitTemplate(t, p)
    ensures var first := Reinit(t, "", Some("\"'x'\""), None); Reinit(t, first, None, None) != first
  {
    UnquoteNested("\"'x'\"", "'x'");
    BadBoard(t, p, "\"'x'\"");
  }

  /** A board path with a line break is cut at it. */
  lemma LineBreakIsNotStable(t: Template, p: nat)
    requires InitTemplate(t, p)
    ensures var first := Reinit(t, "", Some("x\ny"), None); Reinit(t, first, None, None) != first
  {
    HasBreak("x\ny", 1);
    BadBoard(t, p, "x\ny");
  }

  lemma HasBreak(v: string, i: nat)
    requires i < |v| && v[i] == '\n'
    ensures !Unbroken(v)
  {
  }
}
