/** Stale-run recovery of one task (gui/app/agent_recovery.go, recoverStale and recoverOne),
    crashes between an append and its edit included. */
module Recovery {
  import opened Wrappers
  import opened EventLog

  /** The values AgentStatus takes: empty or queued, running, or what a run ended with. */
  datatype AgentStatus = Idle | Running | Ended(status: Status)

  /** The two durable things recovery writes. */
  datatype Disk = Disk(log: seq<Event>, agentStatus: AgentStatus)

  datatype Effect = Append(run: RunId, status: Status, reason: string) | Edit(status: Status)

  /** The synthetic finished event: no agent, mode, pid or session. */
  function FinishedLine(run: RunId, status: Status, reason: string): Event {
    Event(run, Finished, "", "", 0, status, -1, reason, "", "", None, "", "", "", "")
  }

  function Do(d: Disk, e: Effect): Disk {
    match e
    case Append(run, status, reason) => d.(log := d.log + [FinishedLine(run, status, reason)])
    case Edit(status) => d.(agentStatus := Ended(status))
  }

  /** What recovery asks of its surroundings: whether to skip tracked runs, the run that
      AgentService.active holds for the task, process liveness, the task's Agent field, and
      a generated run id. */
  datatype World = World(
    skipTracked: bool,
    tracked: Option<RunId>,
    live: (int, string) -> bool,
    taskAgent: string,
    freshRun: RunId)
  {
    predicate Skips(r: RunId) { skipTracked && tracked == Some(r) }

    predicate Alive(v: View) { v.pid > 0 && live(v.pid, if v.agent == "" then taskAgent else v.agent) }

    /** The run has no terminal record and recovery has no reason to leave it alone. */
    predicate Stale(v: View) { v.finished.None? && !Skips(v.run) && !Alive(v) }
  }

  /** The terminal status recovery gives a stale run. */
  function Verdict(v: View): Status { if v.session != "" then Interrupted else Lost }

  function VerdictReason(v: View): string {
    if v.session != "" then "interrupted by daemon restart" else "stale after restart"
  }

  // ---------------------------------------------------------------- the plan

  /** Ending a run: the terminal record first, then, for the latest run, AgentStatus. */
  function Mark(run: RunId, status: Status, reason: string, latest: bool): seq<Effect> {
    if latest then [Append(run, status, reason), Edit(status)] else [Append(run, status, reason)]
  }

  /** recoverOne's treatment of one run. */
  function Treat(w: World, v: View, latest: bool): seq<Effect> {
    if w.Skips(v.run) then []
    else if v.finished.Some? then if latest then [Edit(v.finished.value.status)] else []
    else if w.Alive(v) then []
    else Mark(v.run, Verdict(v), VerdictReason(v), latest)
  }

  /** The effects for the first `n` of `vs`, the last of `vs` being the latest run. */
  function TreatAll(w: World, vs: seq<View>, n: nat): seq<Effect>
    requires n <= |vs|
  {
    if n == 0 then [] else TreatAll(w, vs, n - 1) + Treat(w, vs[n - 1], n == |vs|)
  }

  function Plan(w: World, log: seq<Event>): seq<Effect> {
    var vs := Views(log);
    if vs == [] then
      if w.skipTracked && w.tracked.Some? then [] else Mark(w.freshRun, Lost, "running without JSONL", true)
    else TreatAll(w, vs, |vs|)
  }

  /** The disk after the first `n` effects. */
  function Done(d: Disk, es: seq<Effect>, n: nat): Disk
    requires n <= |es|
  {
    if n == 0 then d else Do(Done(d, es, n - 1), es[n - 1])
  }

  function DoAll(d: Disk, es: seq<Effect>): Disk { Done(d, es, |es|) }

  /** One pass of recoverStale over the task; only a running task is a candidate. */
  function Pass(w: World, d: Disk): Disk {
    if d.agentStatus == Running then DoAll(d, Plan(w, d.log)) else d
  }

  /** A pass that crashed after its first `k` effects, if it has as many. */
  function CrashedPass(w: World, d: Disk, k: nat): Disk {
    var es := Plan(w, d.log);
    if d.agentStatus == Running then Done(d, es, if k < |es| then k else |es|) else d
  }

  /** One crash after another, the last pass running to its end. */
  function PassAfterCrashes(w: World, d: Disk, crashes: seq<nat>): Disk
    decreases |crashes|
  {
    if crashes == [] then Pass(w, d) else PassAfterCrashes(w, CrashedPass(w, d, crashes[0]), crashes[1..])
  }

  // ---------------------------------------------------------------- recoverOne itself

  class Task {
    var log: seq<Event>
    var agentStatus: AgentStatus

    ghost function Contents(): Disk reads this { Disk(log, agentStatus) }

    constructor (d: Disk)
      ensures Contents() == d
    {
      log, agentStatus := d.log, d.agentStatus;
    }

    method AppendFinished(run: RunId, status: Status, reason: string)
      modifies this`log
      ensures Contents() == Do(old(Contents()), Append(run, status, reason))
    {
      log := log + [FinishedLine(run, status, reason)];
    }

    method EditStatus(status: Status)
      modifies this`agentStatus
      ensures Contents() == Do(old(Contents()), Edit(status))
    {
      agentStatus := Ended(status);
    }

    method MarkRun(run: RunId, status: Status, reason: string, latest: bool)
      modifies this
      ensures Contents() == DoAll(old(Contents()), Mark(run, status, reason, latest))
    {
      DoOneOrTwo(Contents(), Append(run, status, reason), Edit(status));
      AppendFinished(run, status, reason);
      if latest {
        EditStatus(status);
      }
    }

    /** What the loop over a task's runs does with one run. */
    method RecoverRun(w: World, run: View, latest: bool)
      modifies this
      ensures Contents() == DoAll(old(Contents()), Treat(w, run, latest))
    {
      if w.Skips(run.run) {
      } else if run.finished.Some? {
        if latest {
          DoOneOrTwo(Contents(), Edit(run.finished.value.status), Edit(run.finished.value.status));
          EditStatus(run.finished.value.status);
        }
      } else if w.Alive(run) {
      } else if run.session != "" {
        MarkRun(run.run, Interrupted, "interrupted by daemon restart", latest);
      } else {
        MarkRun(run.run, Lost, "stale after restart", latest);
      }
    }

    /** The loop over runs performs exactly the plan, in order. */
    method RecoverOne(w: World)
      modifies this
      ensures Contents() == DoAll(old(Contents()), Plan(w, old(log)))
    {
      var runs := ReadRunViews(log);
      if runs == [] {
        if !(w.skipTracked && w.tracked.Some?) {
          MarkRun(w.freshRun, Lost, "running without JSONL", true);
        }
        return;
      }
      ghost var d := Contents();
      for i := 0 to |runs|
        invariant Contents() == DoAll(d, TreatAll(w, runs, i))
      {
        var latest := i == |runs| - 1;
        DoAllConcat(d, TreatAll(w, runs, i), Treat(w, runs[i], latest));
        RecoverRun(w, runs[i], latest);
      }
    }
  }

  lemma DoOneOrTwo(d: Disk, a: Effect, b: Effect)
    ensures DoAll(d, [a]) == Do(d, a)
    ensures DoAll(d, [a, b]) == Do(Do(d, a), b)
  {
    assert Done(d, [a], 0) == d;
    assert Done(d, [a, b], 0) == d;
    assert Done(d, [a, b], 1) == Do(d, a);
  }

  lemma {:induction false} DoneConcat(d: Disk, a: seq<Effect>, b: seq<Effect>, n: nat)
    requires n <= |b|
    ensures Done(d, a + b, |a| + n) == Done(DoAll(d, a), b, n)
    decreases n
  {
    if n == 0 {
      DoneIsOfThePrefix(d, a, b, |a|);
    } else {
      DoneConcat(d, a, b, n - 1);
    }
  }

  lemma {:induction false} DoneIsOfThePrefix(d: Disk, a: seq<Effect>, b: seq<Effect>, n: nat)
    requires n <= |a|
    ensures Done(d, a + b, n) == Done(d, a, n)
    decreases n
  {
    if n > 0 {
      DoneIsOfThePrefix(d, a, b, n - 1);
    }
  }

  lemma DoAllConcat(d: Disk, a: seq<Effect>, b: seq<Effect>)
    ensures DoAll(d, a + b) == DoAll(DoAll(d, a), b)
  {
    DoneConcat(d, a, b, |b|);
  }

  // ---------------------------------------------------------------- what one append does to the views

  function Terminated(v: View, status: Status, reason: string): View {
    v.(finished := Some(FinishedEvent(status, -1, reason)))
  }

  lemma AppendTerminatesOneRun(log: seq<Event>, r: RunId, status: Status, reason: string)
    requires r in Order(log)
    ensures var log' := log + [FinishedLine(r, status, reason)];
            && Order(log') == Order(log)
            && forall i :: 0 <= i < |Order(log)| ==>
                 Views(log')[i]
                 == if Order(log)[i] == r then Terminated(Views(log)[i], status, reason) else Views(log)[i]
  {
    var e := FinishedLine(r, status, reason);
    var log' := log + [e];
    assert log'[..|log|] == log;
    forall q
      ensures OfRun(log', q) == if q == r then OfRun(log, q) + [e] else OfRun(log, q)
    {
      assert OfRun(log, q) + [] == OfRun(log, q);
    }
    var evs := OfRun(log, r);
    assert (evs + [e])[..|evs|] == evs;
  }

  lemma LastOfOne(e: Event, p: Event -> bool)
    ensures LastWhere([e], p) == if p(e) then Some(e) else None
  {
    assert [e][..0] == [];
  }

  function LostAtBirth(r: RunId, status: Status, reason: string): View {
    View(r, "", 0, "", "", None, Unset, Some(FinishedEvent(status, -1, reason)))
  }

  lemma ViewOfFinishedLine(r: RunId, status: Status, reason: string)
    ensures ViewOf(r, [FinishedLine(r, status, reason)]) == LostAtBirth(r, status, reason)
  {
    var e := FinishedLine(r, status, reason);
    LastOfOne(e, NamesAgent);
    LastOfOne(e, NamesPid);
    LastOfOne(e, NamesSession);
    LastOfOne(e, NamesCwd);
    LastOfOne(e, NamesEnv);
    LastOfOne(e, NamesMode);
    LastOfOne(e, IsFinished);
  }

  lemma ViewsOfOneRun(log: seq<Event>, r: RunId)
    requires Order(log) == [r]
    ensures Views(log) == [ViewOf(r, OfRun(log, r))]
  {
  }

  lemma AppendStartsARun(log: seq<Event>, r: RunId, status: Status, reason: string)
    requires Order(log) == [] && r != ""
    ensures Views(log + [FinishedLine(r, status, reason)]) == [LostAtBirth(r, status, reason)]
  {
    var e := FinishedLine(r, status, reason);
    var log' := log + [e];
    assert Order(log') == [r] && OfRun(log', r) == [e] by {
      assert log'[..|log|] == log;
      UnseenRunHasNoEvents(log, r);
    }
    ViewsOfOneRun(log', r);
    ViewOfFinishedLine(r, status, reason);
  }

  // ---------------------------------------------------------------- one effect at a time

  /** What recovery makes of a run. */
  function Settled(w: World, v: View): View {
    if w.Stale(v) then Terminated(v, Verdict(v), VerdictReason(v)) else v
  }

  function SettleAll(w: World, vs: seq<View>): seq<View> {
    seq(|vs|, i requires 0 <= i < |vs| => Settled(w, vs[i]))
  }

  function FirstStale(w: World, vs: seq<View>): (i: nat)
    ensures i <= |vs| && (forall j :: 0 <= j < i ==> !w.Stale(vs[j])) && (i < |vs| ==> w.Stale(vs[i]))
  {
    if vs == [] || w.Stale(vs[0]) then 0 else
    var i := FirstStale(w, vs[1..]);
    assert forall j :: 0 < j < i + 1 ==> vs[j] == vs[1..][j - 1];
    i + 1
  }

  function EndingOf(v: View): Effect { Append(v.run, Verdict(v), VerdictReason(v)) }

  lemma {:induction false} FreshRunsGetNothing(w: World, vs: seq<View>, n: nat)
    requires n < |vs| && forall j :: 0 <= j < n ==> !w.Stale(vs[j])
    ensures TreatAll(w, vs, n) == []
  {
    if n > 0 {
      FreshRunsGetNothing(w, vs, n - 1);
      assert !w.Stale(vs[n - 1]);
    }
  }

  /** The first stale run gives the first effect; the rest is the treatment of the views
      that effect leaves. */
  lemma {:induction false} FirstStaleFirst(w: World, vs: seq<View>, vs': seq<View>, i: nat, n: nat)
    requires i < n <= |vs| && w.Stale(vs[i]) && forall j :: 0 <= j < i ==> !w.Stale(vs[j])
    requires vs' == vs[i := Settled(w, vs[i])]
    ensures TreatAll(w, vs, n) == [EndingOf(vs[i])] + TreatAll(w, vs', n)
    decreases n
  {
    if i == n - 1 {
      StaleLast(w, vs, vs', n);
    } else {
      FirstStaleFirst(w, vs, vs', i, n - 1);
      TreatSnoc(w, vs, vs', EndingOf(vs[i]), n);
    }
  }

  lemma StaleLast(w: World, vs: seq<View>, vs': seq<View>, n: nat)
    requires 0 < n <= |vs| && w.Stale(vs[n - 1]) && forall j :: 0 <= j < n - 1 ==> !w.Stale(vs[j])
    requires vs' == vs[n - 1 := Settled(w, vs[n - 1])]
    ensures TreatAll(w, vs, n) == [EndingOf(vs[n - 1])] + TreatAll(w, vs', n)
  {
    OnlyTheLast(w, vs, n);
    OnlyTheLast(w, vs', n);
    TreatTwice(w, vs[n - 1], n == |vs|);
  }

  lemma OnlyTheLast(w: World, vs: seq<View>, n: nat)
    requires 0 < n <= |vs| && forall j :: 0 <= j < n - 1 ==> !w.Stale(vs[j])
    ensures TreatAll(w, vs, n) == Treat(w, vs[n - 1], n == |vs|)
  {
    FreshRunsGetNothing(w, vs, n - 1);
    assert [] + Treat(w, vs[n - 1], n == |vs|) == Treat(w, vs[n - 1], n == |vs|);
  }

  lemma TreatSnoc(w: World, vs: seq<View>, vs': seq<View>, e: Effect, n: nat)
    requires 0 < n <= |vs| == |vs'| && vs[n - 1] == vs'[n - 1]
    requires TreatAll(w, vs, n - 1) == [e] + TreatAll(w, vs', n - 1)
    ensures TreatAll(w, vs, n) == [e] + TreatAll(w, vs', n)
  {
    var before, now := TreatAll(w, vs', n - 1), Treat(w, vs[n - 1], n == |vs|);
    assert ([e] + before) + now == [e] + (before + now);
  }

  lemma TreatTwice(w: World, v: View, latest: bool)
    requires w.Stale(v)
    ensures Treat(w, v, latest) == [EndingOf(v)] + Treat(w, Settled(w, v), latest)
  {
  }

  lemma {:induction false} ViewsAfterFirst(w: World, log: seq<Event>, i: nat)
    requires i < |Views(log)| && w.Stale(Views(log)[i])
    ensures var v := Views(log)[i];
            var log' := log + [FinishedLine(v.run, Verdict(v), VerdictReason(v))];
            Order(log') == Order(log) && Views(log') == Views(log)[i := Settled(w, v)]
  {
    var v := Views(log)[i];
    AppendTerminatesOneRun(log, v.run, Verdict(v), VerdictReason(v));
    forall j | 0 <= j < |Order(log)| && Order(log)[j] == v.run
      ensures j == i
    {
      OrderIsFirstAppearances(log);
    }
  }

  /** A plan is either the latest run's status alone, or an append and the plan that the
      next pass would make of the log after that append. */
  lemma NextEffect(w: World, d: Disk)
    requires Views(d.log) != []
    ensures var vs, es := Views(d.log), Plan(w, d.log);
            var i := FirstStale(w, vs);
            if i == |vs| then es == Treat(w, vs[|vs| - 1], true)
            else var d' := Do(d, EndingOf(vs[i]));
                 && Views(d'.log) == vs[i := Settled(w, vs[i])]
                 && es == [EndingOf(vs[i])] + Plan(w, d'.log)
  {
    var vs := Views(d.log);
    var i := FirstStale(w, vs);
    if i == |vs| {
      FreshRunsGetNothing(w, vs, |vs| - 1);
    } else {
      FirstStaleFirst(w, vs, vs[i := Settled(w, vs[i])], i, |vs|);
      ViewsAfterFirst(w, d.log, i);
    }
  }

  lemma DoFirst(d: Disk, e: Effect, es: seq<Effect>)
    ensures DoAll(d, [e] + es) == DoAll(Do(d, e), es)
  {
    DoAllConcat(d, [e], es);
    assert Done(d, [e], 0) == d;
  }

  // ---------------------------------------------------------------- a complete pass

  /** What a complete pass leaves of a task with the run history `vs`: it terminates exactly
      the runs that are unfinished, not skipped and dead, keeps every other fact about every
      run, and sets AgentStatus from the latest run: to its terminal status (a logged
      `cancelled` included), or not at all when the latest run is alive or skipped. */
  ghost predicate SettledFrom(w: World, vs: seq<View>, d': Disk)
    requires vs != []
  {
    var last := Settled(w, vs[|vs| - 1]);
    && Views(d'.log) == SettleAll(w, vs)
    && d'.agentStatus
       == if last.finished.Some? && !w.Skips(last.run) then Ended(last.finished.value.status) else Running
  }

  lemma {:induction false} PassSettles(w: World, d: Disk)
    requires d.agentStatus == Running && Views(d.log) != []
    ensures SettledFrom(w, Views(d.log), Pass(w, d))
    decreases |Plan(w, d.log)|
  {
    var vs := Views(d.log);
    var i := FirstStale(w, vs);
    if i == |vs| {
      PassWithNothingStale(w, d);
    } else {
      PassStep(w, d);
      var d' := Do(d, EndingOf(vs[i]));
      PassSettles(w, d');
      SettleRest(w, vs, i, Pass(w, d));
    }
  }

  lemma PassWithNothingStale(w: World, d: Disk)
    requires d.agentStatus == Running && Views(d.log) != [] && FirstStale(w, Views(d.log)) == |Views(d.log)|
    ensures SettledFrom(w, Views(d.log), Pass(w, d))
  {
    var vs := Views(d.log);
    NextEffect(w, d);
    DoLast(d, w, vs[|vs| - 1]);
    assert SettleAll(w, vs) == vs;
  }

  lemma PassStep(w: World, d: Disk)
    requires d.agentStatus == Running && FirstStale(w, Views(d.log)) < |Views(d.log)|
    ensures var vs, i := Views(d.log), FirstStale(w, Views(d.log));
            var d' := Do(d, EndingOf(vs[i]));
            && Pass(w, d) == Pass(w, d')
            && Views(d'.log) == vs[i := Settled(w, vs[i])]
            && |Plan(w, d'.log)| < |Plan(w, d.log)|
  {
    var vs, i := Views(d.log), FirstStale(w, Views(d.log));
    NextEffect(w, d);
    DoFirst(d, EndingOf(vs[i]), Plan(w, Do(d, EndingOf(vs[i])).log));
  }

  lemma SettleRest(w: World, vs: seq<View>, i: nat, d': Disk)
    requires i < |vs| && SettledFrom(w, vs[i := Settled(w, vs[i])], d')
    ensures SettledFrom(w, vs, d')
  {
    assert SettleAll(w, vs[i := Settled(w, vs[i])]) == SettleAll(w, vs);
  }

  lemma DoLast(d: Disk, w: World, v: View)
    requires !w.Stale(v)
    ensures DoAll(d, Treat(w, v, true))
            == if v.finished.Some? && !w.Skips(v.run) then Do(d, Edit(v.finished.value.status)) else d
  {
    if v.finished.Some? && !w.Skips(v.run) {
      DoOneOrTwo(d, Edit(v.finished.value.status), Edit(v.finished.value.status));
    }
  }

  /** A running task without any run gets one, lost; nothing happens if it is tracked. */
  lemma PassWithoutRuns(w: World, d: Disk)
    requires d.agentStatus == Running && Views(d.log) == [] && w.freshRun != ""
    ensures var d' := Pass(w, d);
            if w.skipTracked && w.tracked.Some? then d' == d
            else d'.agentStatus == Ended(Lost)
                 && Views(d'.log) == [LostAtBirth(w.freshRun, Lost, "running without JSONL")]
  {
    if !(w.skipTracked && w.tracked.Some?) {
      var e := Append(w.freshRun, Lost, "running without JSONL");
      AppendStartsARun(d.log, w.freshRun, Lost, "running without JSONL");
      assert Plan(w, d.log) == [e] + [Edit(Lost)];
      DoOneOrTwo(d, e, Edit(Lost));
    }
  }

  // ---------------------------------------------------------------- crashes

  /** The disk `c` is one at which the next pass plans `rest`. */
  predicate Plans(w: World, c: Disk, rest: seq<Effect>) { c.agentStatus == Running && Plan(w, c.log) == rest }

  /** If each effect leads from `rest` to the rest of it, every prefix does. */
  lemma {:induction false} EveryPrefix(p: (Disk, seq<Effect>) -> bool, d: Disk, es: seq<Effect>, k: nat)
    requires k < |es| && p(d, es)
    requires forall c, rest :: p(c, rest) && |rest| > 1 ==> p(Do(c, rest[0]), rest[1..])
    ensures p(Done(d, es, k), es[k..])
    decreases k
  {
    if k == 0 {
      assert es[0..] == es && Done(d, es, 0) == d;
    } else {
      EveryPrefix(p, d, es, k - 1);
      assert es[k - 1..][0] == es[k - 1] && es[k - 1..][1..] == es[k..];
    }
  }

  /** Whatever a pass has done before it crashes, the next pass plans exactly the rest. */
  lemma NextPassPlansTheRest(w: World, d: Disk, es: seq<Effect>, k: nat)
    requires w.freshRun != "" && d.agentStatus == Running && es == Plan(w, d.log) && k < |es|
    ensures Done(d, es, k).agentStatus == Running && Plan(w, Done(d, es, k).log) == es[k..]
  {
    forall c, rest | Plans(w, c, rest) && |rest| > 1
      ensures Plans(w, Do(c, rest[0]), rest[1..])
    {
      RestStep(w, c, rest);
    }
    EveryPrefix((c, rest) => Plans(w, c, rest), d, es, k);
  }

  lemma RestStep(w: World, c: Disk, rest: seq<Effect>)
    requires w.freshRun != "" && Plans(w, c, rest) && |rest| > 1
    ensures Plans(w, Do(c, rest[0]), rest[1..])
  {
    PlanStep(w, c);
  }

  lemma PlanStep(w: World, d: Disk)
    requires w.freshRun != "" && |Plan(w, d.log)| > 1
    ensures var es := Plan(w, d.log);
            es[0].Append? && Plan(w, Do(d, es[0]).log) == es[1..]
  {
    if Views(d.log) == [] {
      AppendStartsARun(d.log, w.freshRun, Lost, "running without JSONL");
      OneFinishedRun(w, Do(d, Plan(w, d.log)[0]).log);
    } else {
      NextEffect(w, d);
    }
  }

  lemma OneFinishedRun(w: World, log: seq<Event>)
    requires |Views(log)| == 1 && Views(log)[0].finished.Some? && !w.Skips(Views(log)[0].run)
    ensures Plan(w, log) == [Edit(Views(log)[0].finished.value.status)]
  {
    assert TreatAll(w, Views(log), 0) == [];
  }

  /** A crash at any point, followed by another pass, ends exactly where an uninterrupted
      pass would have ended. A pass that completed counts: a further pass writes nothing. */
  lemma CrashThenPass(w: World, d: Disk, k: nat)
    requires w.freshRun != ""
    ensures Pass(w, CrashedPass(w, d, k)) == Pass(w, d)
  {
    var es := Plan(w, d.log);
    if d.agentStatus == Running {
      if k < |es| {
        NextPassPlansTheRest(w, d, es, k);
        DoAllSplit(d, es, k);
      } else {
        SecondPassIsIdle(w, d);
      }
    }
  }

  lemma DoAllSplit(d: Disk, es: seq<Effect>, k: nat)
    requires k <= |es|
    ensures DoAll(Done(d, es, k), es[k..]) == DoAll(d, es)
  {
    assert es == es[..k] + es[k..];
    DoneIsOfThePrefix(d, es[..k], es[k..], k);
    DoAllConcat(d, es[..k], es[k..]);
  }

  /** A further pass writes nothing. */
  lemma SecondPassIsIdle(w: World, d: Disk)
    requires w.freshRun != ""
    ensures Pass(w, Pass(w, d)) == Pass(w, d)
  {
    var d' := Pass(w, d);
    if d.agentStatus == Running && d'.agentStatus == Running {
      if Views(d.log) == [] {
        PassWithoutRuns(w, d);
      } else {
        PassSettles(w, d);
        NothingLeft(w, Views(d.log), d');
      }
    }
  }

  lemma NothingLeft(w: World, vs: seq<View>, d': Disk)
    requires vs != [] && SettledFrom(w, vs, d') && d'.agentStatus == Running
    ensures Plan(w, d'.log) == []
  {
    SettledRunsAreNotStale(w, vs);
    NextEffect(w, d');
  }

  lemma SettledRunsAreNotStale(w: World, vs: seq<View>)
    ensures FirstStale(w, SettleAll(w, vs)) == |vs|
  {
    forall i | 0 <= i < |vs|
      ensures !w.Stale(SettleAll(w, vs)[i])
    {
    }
  }

  lemma {:induction false} AnyCrashesThenPass(w: World, d: Disk, crashes: seq<nat>)
    requires w.freshRun != ""
    ensures PassAfterCrashes(w, d, crashes) == Pass(w, d)
    decreases |crashes|
  {
    if crashes != [] {
      AnyCrashesThenPass(w, CrashedPass(w, d, crashes[0]), crashes[1..]);
      CrashThenPass(w, d, crashes[0]);
    }
  }

  // ---------------------------------------------------------------- no second terminal record

  /** Run `r` keeps its events, and gets one finished event more at most: only if it had none. */
  ghost predicate EndedAtMostOnce(before: seq<Event>, after: seq<Event>, r: RunId) {
    || OfRun(after, r) == OfRun(before, r)
    || (!Has(OfRun(before, r), Finished)
        && exists status, reason :: OfRun(after, r) == OfRun(before, r) + [FinishedLine(r, status, reason)])
  }

  lemma ViewFinishedMeansHas(r: RunId, evs: seq<Event>)
    ensures ViewOf(r, evs).finished.Some? <==> Has(evs, Finished)
  {
    SamePredicate(evs);
  }

  lemma FirstAppendIsToAnUnfinishedRun(w: World, d: Disk)
    requires w.freshRun != "" && Plan(w, d.log) != [] && Plan(w, d.log)[0].Append?
    ensures !Has(OfRun(d.log, Plan(w, d.log)[0].run), Finished)
  {
    var vs := Views(d.log);
    if vs == [] {
      UnseenRunHasNoEvents(d.log, w.freshRun);
    } else {
      var i := FirstStale(w, vs);
      NextEffect(w, d);
      if i < |vs| {
        ViewFinishedMeansHas(vs[i].run, OfRun(d.log, vs[i].run));
      }
    }
  }

  lemma EndedMeansHas(before: seq<Event>, after: seq<Event>, r: RunId)
    requires EndedAtMostOnce(before, after, r) && OfRun(after, r) != OfRun(before, r)
    ensures Has(OfRun(after, r), Finished)
  {
    var status, reason :| OfRun(after, r) == OfRun(before, r) + [FinishedLine(r, status, reason)];
    HasConcat(OfRun(before, r), [FinishedLine(r, status, reason)], Finished);
  }

  lemma EndOnce(before: seq<Event>, mid: seq<Event>, e: Event, r: RunId)
    requires EndedAtMostOnce(before, mid, r) && e == FinishedLine(e.run, e.status, e.reason)
    requires !Has(OfRun(mid, e.run), Finished)
    ensures EndedAtMostOnce(before, mid + [e], r)
  {
    assert (mid + [e])[..|mid|] == mid;
    if r == e.run {
      if OfRun(mid, r) != OfRun(before, r) {
        EndedMeansHas(before, mid, r);
      }
      assert OfRun(mid + [e], r) == OfRun(before, r) + [FinishedLine(r, e.status, e.reason)];
    } else {
      assert OfRun(mid, r) + [] == OfRun(mid, r);
    }
  }

  ghost predicate PlansAndEnded(w: World, before: seq<Event>, r: RunId, c: Disk, rest: seq<Effect>) {
    Plans(w, c, rest) && EndedAtMostOnce(before, c.log, r)
  }

  lemma EndedBeforeTheLast(w: World, d: Disk, es: seq<Effect>, k: nat, r: RunId)
    requires w.freshRun != "" && d.agentStatus == Running && es == Plan(w, d.log) && k < |es|
    ensures PlansAndEnded(w, d.log, r, Done(d, es, k), es[k..])
  {
    forall c, rest | PlansAndEnded(w, d.log, r, c, rest) && |rest| > 1
      ensures PlansAndEnded(w, d.log, r, Do(c, rest[0]), rest[1..])
    {
      RestStep(w, c, rest);
      OneEndMore(w, d.log, c, rest[0], r);
    }
    EveryPrefix((c, rest) => PlansAndEnded(w, d.log, r, c, rest), d, es, k);
  }

  lemma EndedByTheLast(w: World, d: Disk, es: seq<Effect>, r: RunId)
    requires w.freshRun != "" && d.agentStatus == Running && es == Plan(w, d.log) && es != []
    ensures EndedAtMostOnce(d.log, Done(d, es, |es|).log, r)
  {
    var n := |es| - 1;
    EndedBeforeTheLast(w, d, es, n, r);
    LastEnd(w, d.log, Done(d, es, n), es[n..], Done(d, es, n + 1), r);
  }

  lemma LastEnd(w: World, before: seq<Event>, mid: Disk, rest: seq<Effect>, after: Disk, r: RunId)
    requires w.freshRun != "" && PlansAndEnded(w, before, r, mid, rest) && |rest| == 1 && after == Do(mid, rest[0])
    ensures EndedAtMostOnce(before, after.log, r)
  {
    OneEndMore(w, before, mid, rest[0], r);
  }

  lemma NoRunEndsTwiceSoFar(w: World, d: Disk, es: seq<Effect>, k: nat, r: RunId)
    requires w.freshRun != "" && d.agentStatus == Running && es == Plan(w, d.log) && k <= |es|
    ensures EndedAtMostOnce(d.log, Done(d, es, k).log, r)
  {
    if k < |es| {
      EndedBeforeTheLast(w, d, es, k, r);
    } else if k > 0 {
      EndedByTheLast(w, d, es, r);
    }
  }

  lemma OneEndMore(w: World, before: seq<Event>, mid: Disk, e: Effect, r: RunId)
    requires w.freshRun != "" && EndedAtMostOnce(before, mid.log, r) && Plan(w, mid.log) != []
    requires Plan(w, mid.log)[0] == e
    ensures EndedAtMostOnce(before, Do(mid, e).log, r)
  {
    if e.Append? {
      FirstAppendIsToAnUnfinishedRun(w, mid);
      EndOnce(before, mid.log, FinishedLine(e.run, e.status, e.reason), r);
    }
  }

  /** Wherever a pass crashes, no run that had a terminal record got another, and no run got
      two. */
  lemma NoRunEndsTwice(w: World, d: Disk, k: nat, r: RunId)
    requires w.freshRun != ""
    ensures EndedAtMostOnce(d.log, CrashedPass(w, d, k).log, r)
  {
    if d.agentStatus == Running {
      var es := Plan(w, d.log);
      NoRunEndsTwiceSoFar(w, d, es, if k < |es| then k else |es|, r);
    }
  }

  // ---------------------------------------------------------------- runs that die later

  /** The pass leaves the latest run, and with it AgentStatus, alone. */
  predicate SparesLatest(w: World, vs: seq<View>)
    requires vs != []
  {
    var last := vs[|vs| - 1];
    w.Skips(last.run) || (last.finished.None? && w.Alive(last))
  }

  ghost predicate NothingStale(w: World, log: seq<Event>) {
    forall i :: 0 <= i < |Views(log)| ==> !w.Stale(Views(log)[i])
  }

  /** A run that a pass spared because it was alive or tracked, and that is dead and
      untracked by the time of a later pass, is terminated by that later pass if and only if
      the first pass also spared the latest run: otherwise the task is no longer running and
      recovery never looks at it again. */
  lemma LaterPassCatchesUpIff(w: World, later: World, d: Disk)
    requires d.agentStatus == Running && Views(d.log) != []
    ensures var vs := Views(d.log);
            NothingStale(later, Pass(later, Pass(w, d)).log)
            <==> SparesLatest(w, vs) || forall i :: 0 <= i < |vs| && !w.Stale(vs[i]) ==> !later.Stale(vs[i])
  {
    var vs, mid := Views(d.log), Pass(w, d);
    PassSettles(w, d);
    if SparesLatest(w, vs) {
      PassSettles(later, mid);
      SettledRunsAreNotStale(later, Views(mid.log));
    } else {
      assert Pass(later, mid) == mid;
      StaleAfterAll(w, later, vs);
    }
  }

  lemma StaleAfterAll(w: World, later: World, vs: seq<View>)
    ensures (forall i :: 0 <= i < |vs| ==> !later.Stale(SettleAll(w, vs)[i]))
            <==> forall i :: 0 <= i < |vs| && !w.Stale(vs[i]) ==> !later.Stale(vs[i])
  {
    forall i | 0 <= i < |vs|
      ensures !later.Stale(SettleAll(w, vs)[i]) <==> w.Stale(vs[i]) || !later.Stale(vs[i])
    {
    }
  }

  function StartedLine(run: RunId, pid: int): Event {
    Event(run, Started, "codex", "", pid, NoStatus, 0, "", "", "", None, "", "", "", "")
  }

  function Machine(live: (int, string) -> bool): World { World(false, None, live, "codex", "fresh") }

  /** Two runs, the older alive, the latest dead. The first pass ends the latest run and the
      task; when the older run dies too, no pass ever writes its terminal record. */
  lemma OlderRunIsAbandoned()
    ensures var d := Disk([StartedLine("old", 1), StartedLine("new", 2)], Running);
            var before, after := Machine((pid, a) => pid == 1), Machine((pid, a) => false);
            !NothingStale(after, Pass(after, Pass(before, d)).log)
  {
    var a, b := StartedLine("old", 1), StartedLine("new", 2);
    var log := [a, b];
    var d := Disk(log, Running);
    var before, after := Machine((pid, a) => pid == 1), Machine((pid, a) => false);
    TwoRuns(a, b);
    ViewOfStartedLine("old", 1);
    ViewOfStartedLine("new", 2);
    LaterPassCatchesUpIff(before, after, d);
    assert !before.Stale(Views(log)[0]) && after.Stale(Views(log)[0]);
  }

  lemma TwoRuns(a: Event, b: Event)
    requires a.run != "" && b.run != "" && a.run != b.run
    ensures Order([a, b]) == [a.run, b.run] && OfRun([a, b], a.run) == [a] && OfRun([a, b], b.run) == [b]
  {
    assert [a, b][..1] == [a] && [a][..0] == [];
    assert OfRun([a], a.run) == [] + [a];
    assert OfRun([a], b.run) == [] + [];
    assert OfRun([a, b], a.run) == [a] + [];
    assert OfRun([a, b], b.run) == [] + [b];
    assert Order([a]) == [] + [a.run];
  }

  lemma ViewOfStartedLine(r: RunId, pid: int)
    requires pid > 0
    ensures ViewOf(r, [StartedLine(r, pid)]) == View(r, "codex", pid, "", "", None, Unset, None)
  {
    var e := StartedLine(r, pid);
    LastOfOne(e, NamesAgent);
    LastOfOne(e, NamesPid);
    LastOfOne(e, NamesSession);
    LastOfOne(e, NamesCwd);
    LastOfOne(e, NamesEnv);
    LastOfOne(e, NamesMode);
    LastOfOne(e, IsFinished);
  }
}
