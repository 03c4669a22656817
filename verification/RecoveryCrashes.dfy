/** Recovery passes that crash in one world and are finished in another: a restart empties what
    is tracked, processes die, and run ids are drawn anew. */
module RecoveryCrashes {
  import opened EventLog
  import opened Recovery

  /** `later` sees no process alive and no run tracked that `w` did not. */
  ghost predicate Shrinks(w: World, later: World) {
    && later.taskAgent == w.taskAgent
    && (forall pid, agent :: later.live(pid, agent) ==> w.live(pid, agent))
    && (forall r :: later.Skips(r) ==> w.Skips(r))
  }

  lemma StaleStays(w: World, later: World, v: View)
    requires Shrinks(w, later) && w.Stale(v)
    ensures later.Stale(v) && Settled(later, v) == Settled(w, v)
  {
  }

  /** Each run is as it was, or as a pass in this world would leave it. */
  ghost predicate Between(w: World, vs: seq<View>, us: seq<View>) {
    |us| == |vs| && forall i :: 0 <= i < |vs| ==> us[i] == vs[i] || us[i] == Settled(w, vs[i])
  }

  lemma SettledTwice(w: World, v: View)
    ensures Settled(w, Settled(w, v)) == Settled(w, v)
  {
  }

  lemma OneMoreSettled(w: World, vs: seq<View>, us: seq<View>, i: nat)
    requires Between(w, vs, us) && i < |us|
    ensures Between(w, vs, us[i := Settled(w, us[i])])
  {
    SettledTwice(w, vs[i]);
  }

  /** What a crash leaves of the runs. */
  lemma CrashedViews(w: World, d: Disk, es: seq<Effect>, k: nat)
    requires w.freshRun != "" && d.agentStatus == Running && Views(d.log) != [] && es == Plan(w, d.log) && k < |es|
    ensures Between(w, Views(d.log), Views(Done(d, es, k).log))
  {
    var vs := Views(d.log);
    forall c, rest | PlansBetween(w, vs, c, rest) && |rest| > 1
      ensures PlansBetween(w, vs, Do(c, rest[0]), rest[1..])
    {
      BetweenStep(w, vs, c, rest);
    }
    EveryPrefix((c, rest) => PlansBetween(w, vs, c, rest), d, es, k);
  }

  lemma BetweenStep(w: World, vs: seq<View>, c: Disk, rest: seq<Effect>)
    requires w.freshRun != "" && PlansBetween(w, vs, c, rest) && |rest| > 1
    ensures PlansBetween(w, vs, Do(c, rest[0]), rest[1..])
  {
    RestStep(w, c, rest);
    OneEffectMore(w, vs, c, rest);
  }

  ghost predicate PlansBetween(w: World, vs: seq<View>, c: Disk, rest: seq<Effect>) {
    Plans(w, c, rest) && Between(w, vs, Views(c.log)) && vs != []
  }

  lemma OneEffectMore(w: World, vs: seq<View>, c: Disk, es: seq<Effect>)
    requires vs != [] && Between(w, vs, Views(c.log)) && es == Plan(w, c.log) && |es| > 1
    ensures Between(w, vs, Views(Do(c, es[0]).log))
  {
    NextEffect(w, c);
    OneMoreSettled(w, vs, Views(c.log), if FirstStale(w, Views(c.log)) < |vs| then FirstStale(w, Views(c.log)) else 0);
  }

  /** A crash: where it happened, and in which world. */
  datatype Crash = Crash(w: World, k: nat)

  /** The passes so far each crashed before their last write. */
  ghost predicate Crashes(d: Disk, cs: seq<Crash>)
    decreases |cs|
  {
    cs != [] ==>
      && cs[0].w.freshRun != "" && cs[0].k < |Plan(cs[0].w, d.log)|
      && Crashes(CrashedPass(cs[0].w, d, cs[0].k), cs[1..])
  }

  function AfterCrashes(d: Disk, cs: seq<Crash>): Disk
    decreases |cs|
  {
    if cs == [] then d else AfterCrashes(CrashedPass(cs[0].w, d, cs[0].k), cs[1..])
  }

  lemma BetweenLater(w: World, later: World, vs: seq<View>, us: seq<View>)
    requires Shrinks(w, later) && Between(w, vs, us)
    ensures Between(later, vs, us)
  {
    forall i | 0 <= i < |vs|
      ensures us[i] == vs[i] || us[i] == Settled(later, vs[i])
    {
      if w.Stale(vs[i]) { StaleStays(w, later, vs[i]); }
    }
  }

  lemma BetweenTrans(w: World, a: seq<View>, b: seq<View>, c: seq<View>)
    requires Between(w, a, b) && Between(w, b, c)
    ensures Between(w, a, c)
  {
    forall i | 0 <= i < |a|
      ensures c[i] == a[i] || c[i] == Settled(w, a[i])
    {
      SettledTwice(w, a[i]);
    }
  }

  lemma {:induction false} ViewsAfterCrashes(later: World, d: Disk, cs: seq<Crash>)
    requires d.agentStatus == Running && Views(d.log) != [] && Crashes(d, cs)
    requires forall i :: 0 <= i < |cs| ==> Shrinks(cs[i].w, later)
    ensures AfterCrashes(d, cs).agentStatus == Running && Between(later, Views(d.log), Views(AfterCrashes(d, cs).log))
    decreases |cs|
  {
    if cs != [] {
      var w, k, es := cs[0].w, cs[0].k, Plan(cs[0].w, d.log);
      NextPassPlansTheRest(w, d, es, k);
      CrashedViews(w, d, es, k);
      BetweenLater(w, later, Views(d.log), Views(Done(d, es, k).log));
      ViewsAfterCrashes(later, Done(d, es, k), cs[1..]);
      BetweenTrans(later, Views(d.log), Views(Done(d, es, k).log), Views(AfterCrashes(d, cs).log));
    }
  }

  lemma SettledAlike(w: World, vs: seq<View>, us: seq<View>, d': Disk)
    requires vs != [] && Between(w, vs, us) && SettledFrom(w, us, d')
    ensures SettledFrom(w, vs, d')
  {
    forall i | 0 <= i < |vs|
      ensures Settled(w, us[i]) == Settled(w, vs[i])
    {
      SettledTwice(w, vs[i]);
    }
    assert SettleAll(w, us) == SettleAll(w, vs);
  }

  /** Whatever passes crash, each in its own world, the pass that completes leaves what it would
      have made, in its world, of the history before them all: every run that is dead and
      untracked by then is ended, and AgentStatus is the latest run's. */
  lemma CrashesThenLaterPass(later: World, d: Disk, cs: seq<Crash>)
    requires d.agentStatus == Running && Views(d.log) != [] && Crashes(d, cs)
    requires forall i :: 0 <= i < |cs| ==> Shrinks(cs[i].w, later)
    ensures SettledFrom(later, Views(d.log), Pass(later, AfterCrashes(d, cs)))
  {
    ViewsAfterCrashes(later, d, cs);
    PassSettles(later, AfterCrashes(d, cs));
    SettledAlike(later, Views(d.log), Views(AfterCrashes(d, cs).log), Pass(later, AfterCrashes(d, cs)));
  }

  /** Without any run to begin with: the run that the crashed pass drew an id for is the one
      that the later pass finishes with. */
  lemma CrashWithoutRuns(w: World, later: World, d: Disk)
    requires w.freshRun != "" && d.agentStatus == Running && Views(d.log) == [] && |Plan(w, d.log)| == 2
    requires !later.Skips(w.freshRun)
    ensures var d' := Pass(later, CrashedPass(w, d, 1));
            && Views(d'.log) == [LostAtBirth(w.freshRun, Lost, "running without JSONL")]
            && d'.agentStatus == Ended(Lost)
  {
    var es := Plan(w, d.log);
    AppendStartsARun(d.log, w.freshRun, Lost, "running without JSONL");
    assert Done(d, es, 0) == d;
    var c := Done(d, es, 1);
    assert c == Do(d, es[0]);
    OneFinishedRun(later, c.log);
    assert Done(c, [Edit(Lost)], 0) == c;
  }
}
