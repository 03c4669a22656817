/** The append-only run history of one task and the three readers that fold it, in
    gui/app/agent_recovery.go, stage_reconciler.go and agent_finish.go. */
module EventLog {
  import opened Wrappers

  // Each reader keeps a map of per-run records and an order slice, and updates them in one
  // pass over interleaved runs. The specification looks at one run's own events only.

  type RunId = string
  type Env = map<string, string>

  datatype Kind = Queued | Started | Session | Stdout | Stderr | Finished | Cleanup

  datatype Status = NoStatus | Success | Failed | Cancelled | Interrupted | Lost

  /** One line of the log; a string is empty, and `env` None, when the line omits it. */
  datatype Event = Event(
    run: RunId,
    kind: Kind,
    agent: string,
    mode: string,
    pid: int,
    status: Status,
    exitCode: int,
    reason: string,
    session: string,
    cwd: string,
    env: Option<Env>,
    resumedFrom: string,
    resumedFromRun: string,
    triageHash: string,
    initiator: string)

  datatype Mode = Unset | Implement | Groom | Review | Resume

  // parseRunMode and parseReconcileMode are the same switch.
  function ParseMode(mode: string): Mode {
    match mode
    case "groom" => Groom
    case "review" => Review
    case "resume" => Resume
    case _ => Implement
  }

  // ---------------------------------------------------------------- the grouping specification

  /** The events of one run, in log order. */
  function OfRun(log: seq<Event>, r: RunId): seq<Event> {
    if log == [] then [] else
    var last := log[|log| - 1];
    OfRun(log[..|log| - 1], r) + if last.run == r then [last] else []
  }

  /** The run ids of a log by first appearance; events without one are skipped. */
  function Order(log: seq<Event>): seq<RunId> {
    if log == [] then [] else
    var before := Order(log[..|log| - 1]);
    var r := log[|log| - 1].run;
    if r == "" || r in before then before else before + [r]
  }

  /** The latest event satisfying `p`. */
  function LastWhere(evs: seq<Event>, p: Event -> bool): Option<Event> {
    if evs == [] then None
    else if p(evs[|evs| - 1]) then Some(evs[|evs| - 1])
    else LastWhere(evs[..|evs| - 1], p)
  }

  function Has(evs: seq<Event>, k: Kind): bool { LastWhere(evs, (e: Event) => e.kind == k).Some? }

  function StringOf(o: Option<Event>, f: Event -> string): string { if o.Some? then f(o.value) else "" }

  lemma {:induction false} OrderIsFirstAppearances(log: seq<Event>)
    ensures forall r :: r in Order(log) <==> r != "" && exists i :: 0 <= i < |log| && log[i].run == r
    ensures forall i, j :: 0 <= i < j < |Order(log)| ==> Order(log)[i] != Order(log)[j]
  {
    if log != [] {
      var front, e := log[..|log| - 1], log[|log| - 1];
      OrderIsFirstAppearances(front);
      forall r
        ensures r in Order(log) <==> r != "" && exists i :: 0 <= i < |log| && log[i].run == r
      {
        if r != "" && exists i :: 0 <= i < |log| && log[i].run == r {
          var i :| 0 <= i < |log| && log[i].run == r;
          assert i < |front| ==> front[i].run == r;
        }
        if r in Order(front) {
          var i :| 0 <= i < |front| && front[i].run == r;
          assert log[i].run == r;
        }
        assert e.run == log[|log| - 1].run;
      }
    }
  }

  // ---------------------------------------------------------------- recovery's view

  datatype FinishedEvent = FinishedEvent(status: Status, exitCode: int, reason: string)

  datatype View = View(
    run: RunId,
    agent: string,
    pid: int,
    session: string,
    cwd: string,
    env: Option<Env>,
    mode: Mode,
    finished: Option<FinishedEvent>)

  function NamesAgent(e: Event): bool { (e.kind == Queued || e.kind == Started) && e.agent != "" }
  function NamesPid(e: Event): bool { (e.kind == Started || e.kind == Session) && e.pid > 0 }
  function NamesSession(e: Event): bool { e.kind == Session && e.session != "" }
  function NamesCwd(e: Event): bool { e.kind == Session && e.cwd != "" }
  function NamesEnv(e: Event): bool { e.kind == Session && e.env.Some? }
  function NamesMode(e: Event): bool { e.kind == Queued && e.mode != "" }
  function IsFinished(e: Event): bool { e.kind == Finished }

  /** What recovery knows of run `r` from the run's own events. */
  function ViewOf(r: RunId, evs: seq<Event>): View {
    var pid := LastWhere(evs, NamesPid);
    var env := LastWhere(evs, NamesEnv);
    var mode := LastWhere(evs, NamesMode);
    var fin := LastWhere(evs, IsFinished);
    View(r,
         StringOf(LastWhere(evs, NamesAgent), (e: Event) => e.agent),
         if pid.Some? then pid.value.pid else 0,
         StringOf(LastWhere(evs, NamesSession), (e: Event) => e.session),
         StringOf(LastWhere(evs, NamesCwd), (e: Event) => e.cwd),
         if env.Some? then env.value.env else None,
         if mode.Some? then ParseMode(mode.value.mode) else Unset,
         if fin.Some? then Some(FinishedEvent(fin.value.status, fin.value.exitCode, fin.value.reason)) else None)
  }

  function Views(log: seq<Event>): seq<View> {
    seq(|Order(log)|, i requires 0 <= i < |Order(log)| => ViewOf(Order(log)[i], OfRun(log, Order(log)[i])))
  }

  /** readRunViews' switch on one event. */
  method UpdateView(v: View, e: Event, ghost evs: seq<Event>) returns (w: View)
    requires v == ViewOf(v.run, evs)
    ensures w == ViewOf(v.run, evs + [e])
  {
    w := v;
    match e.kind {
      case Queued =>
        if e.agent != "" { w := w.(agent := e.agent); }
        if e.mode != "" { w := w.(mode := ParseMode(e.mode)); }
      case Started =>
        if e.pid > 0 { w := w.(pid := e.pid); }
        if e.agent != "" { w := w.(agent := e.agent); }
      case Session =>
        if e.session != "" { w := w.(session := e.session); }
        if e.pid > 0 { w := w.(pid := e.pid); }
        if e.cwd != "" { w := w.(cwd := e.cwd); }
        if e.env.Some? { w := w.(env := e.env); }
      case Finished => w := w.(finished := Some(FinishedEvent(e.status, e.exitCode, e.reason)));
      case _ =>
    }
    assert (evs + [e])[..|evs|] == evs;
  }

  lemma OrderSnoc(log: seq<Event>, i: nat)
    requires i < |log|
    ensures Order(log[..i + 1]) == if log[i].run == "" || log[i].run in Order(log[..i]) then Order(log[..i])
                                   else Order(log[..i]) + [log[i].run]
    ensures forall r ::
              OfRun(log[..i + 1], r) == if log[i].run == r then OfRun(log[..i], r) + [log[i]] else OfRun(log[..i], r)
  {
    assert log[..i + 1][..i] == log[..i];
    assert forall r :: OfRun(log[..i], r) + [] == OfRun(log[..i], r);
  }

  lemma {:induction false} UnseenRunHasNoEvents(log: seq<Event>, r: RunId)
    requires r != "" && r !in Order(log)
    ensures OfRun(log, r) == []
  {
    if log != [] {
      UnseenRunHasNoEvents(log[..|log| - 1], r);
    }
  }

  /** A reader's map holds, for each run of the order, what that run's own events say. */
  ghost predicate Grouped<S>(m: map<RunId, S>, log: seq<Event>, of: (RunId, seq<Event>) -> S) {
    && (forall r :: r in m <==> r in Order(log))
    && (forall r :: r in m ==> m[r] == of(r, OfRun(log, r)))
  }

  lemma GroupedSkip<S>(m: map<RunId, S>, log: seq<Event>, i: nat, of: (RunId, seq<Event>) -> S)
    requires i < |log| && log[i].run == "" && Grouped(m, log[..i], of)
    ensures Grouped(m, log[..i + 1], of)
  {
    OrderSnoc(log, i);
    EmptyIdIsNoRun(log[..i]);
  }

  lemma {:induction false} EmptyIdIsNoRun(log: seq<Event>)
    ensures "" !in Order(log)
  {
    if log != [] {
      EmptyIdIsNoRun(log[..|log| - 1]);
    }
  }

  lemma GroupedStep<S>(m: map<RunId, S>, log: seq<Event>, i: nat, of: (RunId, seq<Event>) -> S, w: S)
    requires i < |log| && log[i].run != "" && Grouped(m, log[..i], of)
    requires w == of(log[i].run, OfRun(log[..i], log[i].run) + [log[i]])
    ensures Grouped(m[log[i].run := w], log[..i + 1], of)
  {
    OrderSnoc(log, i);
  }

  method ReadRunViews(log: seq<Event>) returns (out: seq<View>)
    ensures out == Views(log)
  {
    var views: map<RunId, View> := map[];
    var order: seq<RunId> := [];
    for i := 0 to |log|
      invariant order == Order(log[..i])
      invariant Grouped(views, log[..i], ViewOf)
    {
      var e := log[i];
      if e.run != "" {
        var st := View(e.run, "", 0, "", "", None, Unset, None);
        if e.run in views {
          st := views[e.run];
        } else {
          UnseenRunHasNoEvents(log[..i], e.run);
          order := order + [e.run];
        }
        st := UpdateView(st, e, OfRun(log[..i], e.run));
        GroupedStep(views, log, i, ViewOf, st);
        views := views[e.run := st];
      } else {
        GroupedSkip(views, log, i, ViewOf);
      }
      OrderSnoc(log, i);
    }
    assert log[..|log|] == log;
    out := InOrder(views, order);
  }

  /** The views in the order in which their runs first appear. */
  method InOrder<S>(views: map<RunId, S>, order: seq<RunId>) returns (out: seq<S>)
    requires forall r :: r in order ==> r in views
    ensures |out| == |order| && forall j :: 0 <= j < |order| ==> out[j] == views[order[j]]
  {
    out := [];
    for i := 0 to |order|
      invariant |out| == i
      invariant forall j :: 0 <= j < i ==> out[j] == views[order[j]]
    {
      out := out + [views[order[i]]];
    }
  }

  // ---------------------------------------------------------------- the reconciler's view

  datatype ReconcileRun = ReconcileRun(
    run: RunId, mode: Mode, initiator: string, status: Status, queued: bool, started: bool, finished: bool)

  function CarriesMode(e: Event): bool { e.mode != "" }
  function IsQueued(e: Event): bool { e.kind == Queued }

  function ReconcileOf(r: RunId, evs: seq<Event>): ReconcileRun {
    var mode := LastWhere(evs, CarriesMode);
    var fin := LastWhere(evs, IsFinished);
    ReconcileRun(r,
                 if mode.Some? then ParseMode(mode.value.mode) else Unset,
                 StringOf(LastWhere(evs, IsQueued), (e: Event) => e.initiator),
                 if fin.Some? then fin.value.status else NoStatus,
                 Has(evs, Queued), Has(evs, Started), Has(evs, Finished))
  }

  method UpdateReconcile(v: ReconcileRun, e: Event, ghost evs: seq<Event>) returns (w: ReconcileRun)
    requires v == ReconcileOf(v.run, evs)
    ensures w == ReconcileOf(v.run, evs + [e])
  {
    w := v;
    if e.mode != "" {
      w := w.(mode := ParseMode(e.mode));
    }
    match e.kind {
      case Queued => w := w.(queued := true, initiator := e.initiator);
      case Started => w := w.(started := true);
      case Finished => w := w.(finished := true, status := e.status);
      case _ =>
    }
    assert (evs + [e])[..|evs|] == evs;
  }

  /** The last run of the log to have appeared, if there is one. */
  function LatestRun(log: seq<Event>): Option<RunId> {
    if Order(log) == [] then None else Some(Order(log)[|Order(log)| - 1])
  }

  method LatestReconcileRun(log: seq<Event>) returns (out: Option<ReconcileRun>)
    ensures out == match LatestRun(log)
                   case None => None
                   case Some(r) => Some(ReconcileOf(r, OfRun(log, r)))
  {
    var runs: map<RunId, ReconcileRun> := map[];
    var order: seq<RunId> := [];
    for i := 0 to |log|
      invariant order == Order(log[..i])
      invariant Grouped(runs, log[..i], ReconcileOf)
    {
      var e := log[i];
      if e.run != "" {
        var st := ReconcileRun(e.run, Unset, "", NoStatus, false, false, false);
        if e.run in runs {
          st := runs[e.run];
        } else {
          UnseenRunHasNoEvents(log[..i], e.run);
          order := order + [e.run];
        }
        st := UpdateReconcile(st, e, OfRun(log[..i], e.run));
        GroupedStep(runs, log, i, ReconcileOf, st);
        runs := runs[e.run := st];
      } else {
        GroupedSkip(runs, log, i, ReconcileOf);
      }
      OrderSnoc(log, i);
    }
    assert log[..|log|] == log;
    if order == [] {
      return None;
    }
    out := Some(runs[order[|order| - 1]]);
  }

  // ---------------------------------------------------------------- the queued run

  datatype QueuedRun = QueuedRun(
    run: RunId, mode: Mode, resumedFrom: string, resumedFromRun: string, triageHash: string, initiator: string)

  /** The run was queued and has neither started nor finished. */
  predicate Open(evs: seq<Event>) { Has(evs, Queued) && !Has(evs, Started) && !Has(evs, Finished) }

  function NamesParent(e: Event): bool { e.kind == Queued && e.resumedFrom != "" }
  function NamesParentRun(e: Event): bool { e.kind == Queued && e.resumedFromRun != "" }
  function NamesHash(e: Event): bool { e.kind == Queued && e.triageHash != "" }

  function QueuedOf(r: RunId, evs: seq<Event>): QueuedRun {
    var q := LastWhere(evs, IsQueued);
    QueuedRun(r,
              if q.Some? then ParseMode(q.value.mode) else Unset,
              StringOf(LastWhere(evs, NamesParent), (e: Event) => e.resumedFrom),
              StringOf(LastWhere(evs, NamesParentRun), (e: Event) => e.resumedFromRun),
              StringOf(LastWhere(evs, NamesHash), (e: Event) => e.triageHash),
              StringOf(q, (e: Event) => e.initiator))
  }

  /** findQueuedRun's per-run record. */
  datatype QueueState = QueueState(queued: bool, started: bool, finished: bool, run: QueuedRun)

  function QueueStateOf(r: RunId, evs: seq<Event>): QueueState {
    QueueState(Has(evs, Queued), Has(evs, Started), Has(evs, Finished), QueuedOf(r, evs))
  }

  method UpdateQueued(v: QueueState, e: Event, ghost evs: seq<Event>) returns (w: QueueState)
    requires v == QueueStateOf(v.run.run, evs)
    ensures w == QueueStateOf(v.run.run, evs + [e])
  {
    w := v;
    match e.kind {
      case Queued =>
        var q := w.run.(mode := ParseMode(e.mode), initiator := e.initiator);
        if e.resumedFrom != "" { q := q.(resumedFrom := e.resumedFrom); }
        if e.resumedFromRun != "" { q := q.(resumedFromRun := e.resumedFromRun); }
        if e.triageHash != "" { q := q.(triageHash := e.triageHash); }
        w := w.(queued := true, run := q);
      case Started => w := w.(started := true);
      case Finished => w := w.(finished := true);
      case _ =>
    }
    assert (evs + [e])[..|evs|] == evs;
  }

  /** `r` is the last run of the order that is open. */
  ghost predicate LastOpen(log: seq<Event>, r: RunId) {
    && Open(OfRun(log, r))
    && exists i :: 0 <= i < |Order(log)| && Order(log)[i] == r
                   && forall j :: i < j < |Order(log)| ==> !Open(OfRun(log, Order(log)[j]))
  }

  method FindQueuedRun(log: seq<Event>) returns (out: Option<QueuedRun>)
    ensures out.None? ==> forall r :: r in Order(log) ==> !Open(OfRun(log, r))
    ensures out.Some? ==>
              LastOpen(log, out.value.run) && out.value == QueuedOf(out.value.run, OfRun(log, out.value.run))
  {
    var runs: map<RunId, QueueState> := map[];
    var order: seq<RunId> := [];
    for i := 0 to |log|
      invariant order == Order(log[..i])
      invariant Grouped(runs, log[..i], QueueStateOf)
    {
      var e := log[i];
      if e.run != "" {
        var st := QueueState(false, false, false, QueuedRun(e.run, Unset, "", "", "", ""));
        if e.run in runs {
          st := runs[e.run];
        } else {
          UnseenRunHasNoEvents(log[..i], e.run);
          order := order + [e.run];
        }
        st := UpdateQueued(st, e, OfRun(log[..i], e.run));
        GroupedStep(runs, log, i, QueueStateOf, st);
        runs := runs[e.run := st];
      } else {
        GroupedSkip(runs, log, i, QueueStateOf);
      }
      OrderSnoc(log, i);
    }
    assert log[..|log|] == log;
    var picked := LastPending(runs, order);
    if picked == |order| {
      return None;
    }
    out := Some(runs[order[picked]].run);
  }

  predicate Pending(st: QueueState) { st.queued && !st.finished && !st.started }

  /** The scan from the end of the order; its length when nothing is pending. */
  method LastPending(runs: map<RunId, QueueState>, order: seq<RunId>) returns (i: nat)
    requires forall r :: r in order ==> r in runs
    ensures i <= |order| && (i < |order| ==> Pending(runs[order[i]]))
    ensures forall j :: (if i == |order| then 0 else i + 1) <= j < |order| ==> !Pending(runs[order[j]])
  {
    for k := |order| downto 0
      invariant forall j :: k <= j < |order| ==> !Pending(runs[order[j]])
    {
      if Pending(runs[order[k]]) {
        return k;
      }
    }
    i := |order|;
  }

  // ---------------------------------------------------------------- what the readers share

  lemma {:induction false} OfRunConcat(a: seq<Event>, b: seq<Event>, r: RunId)
    ensures OfRun(a + b, r) == OfRun(a, r) + OfRun(b, r)
  {
    if b == [] {
      assert a + b == a;
    } else {
      var n := |b| - 1;
      assert (a + b)[..|a + b| - 1] == a + b[..n];
      OfRunConcat(a, b[..n], r);
    }
  }

  lemma {:induction false} HasConcat(a: seq<Event>, b: seq<Event>, k: Kind)
    ensures Has(a + b, k) <==> Has(a, k) || Has(b, k)
  {
    if b == [] {
      assert a + b == a;
    } else {
      assert (a + b)[..|a + b| - 1] == a + b[..|b| - 1];
      HasConcat(a, b[..|b| - 1], k);
    }
  }

  /** Once a run has a started or finished event, no longer log makes findQueuedRun return
      it, whatever is appended, further queued events of the same run included. */
  lemma NeverPickedAgain(log: seq<Event>, e: Event, more: seq<Event>)
    requires e.kind == Started || e.kind == Finished
    ensures !LastOpen(log + [e] + more, e.run)
  {
    assert OfRun([e], e.run) == [e] by { assert [e][..0] == []; }
    OfRunConcat(log, [e], e.run);
    OfRunConcat(log + [e], more, e.run);
    HasConcat(OfRun(log, e.run), [e], e.kind);
    HasConcat(OfRun(log, e.run) + [e], OfRun(more, e.run), e.kind);
  }

  /** The same run with the same terminal status, or none. */
  predicate SameEnd(v: View, w: ReconcileRun) {
    v.run == w.run && (v.finished.Some? <==> w.finished) && (w.finished ==> v.finished.value.status == w.status)
  }

  /** The three readers agree: recovery's last view and the reconciler's run are the same
      run with the same terminal status, and the run the daemon would pick is one that
      recovery sees, without a terminal record. */
  lemma ReadersAgree(log: seq<Event>, q: RunId)
    requires Order(log) != []
    ensures var r := LatestRun(log).value; SameEnd(Views(log)[|Order(log)| - 1], ReconcileOf(r, OfRun(log, r)))
    ensures LastOpen(log, q) ==>
              exists i :: 0 <= i < |Views(log)| && Views(log)[i].run == q && Views(log)[i].finished.None?
  {
    LatestIsTheSame(log);
    if LastOpen(log, q) {
      PickedIsSeen(log, q);
    }
  }

  lemma LatestIsTheSame(log: seq<Event>)
    requires Order(log) != []
    ensures var r := LatestRun(log).value; SameEnd(Views(log)[|Order(log)| - 1], ReconcileOf(r, OfRun(log, r)))
  {
    SameRecord(LatestRun(log).value, OfRun(log, LatestRun(log).value));
  }

  lemma PickedIsSeen(log: seq<Event>, q: RunId)
    requires LastOpen(log, q)
    ensures exists i :: 0 <= i < |Views(log)| && Views(log)[i].run == q && Views(log)[i].finished.None?
  {
    var i :| 0 <= i < |Order(log)| && Order(log)[i] == q;
    OpenHasNoRecord(q, OfRun(log, q));
    assert Views(log)[i].run == q;
  }

  lemma OpenHasNoRecord(r: RunId, evs: seq<Event>)
    requires Open(evs)
    ensures ViewOf(r, evs).finished.None?
  {
    SameRecord(r, evs);
  }

  /** The two records of a run's end. */
  lemma SameRecord(r: RunId, evs: seq<Event>)
    ensures SameEnd(ViewOf(r, evs), ReconcileOf(r, evs))
  {
    SamePredicate(evs);
  }

  lemma {:induction false} SamePredicate(evs: seq<Event>)
    ensures LastWhere(evs, IsFinished) == LastWhere(evs, (e: Event) => e.kind == Finished)
  {
    if evs != [] {
      SamePredicate(evs[..|evs| - 1]);
    }
  }

  /** Recovery reads a run's mode from its queued events only, the reconciler from any event.
      They agree if and only if no event carries a mode, or a queued one does and the last
      such reads the same as the last of all. */
  lemma ModesAgreeIff(r: RunId, evs: seq<Event>)
    ensures var q, e := LastWhere(evs, NamesMode), LastWhere(evs, CarriesMode);
            ViewOf(r, evs).mode == ReconcileOf(r, evs).mode
            <==> (e.Some? ==> q.Some? && ParseMode(q.value.mode) == ParseMode(e.value.mode))
  {
    QueuedModeIsCarried(evs);
  }

  lemma {:induction false} QueuedModeIsCarried(evs: seq<Event>)
    ensures LastWhere(evs, NamesMode).Some? ==> LastWhere(evs, CarriesMode).Some?
  {
    if evs != [] && !CarriesMode(evs[|evs| - 1]) {
      QueuedModeIsCarried(evs[..|evs| - 1]);
    }
  }

  function Bare(r: RunId, kind: Kind, mode: string): Event {
    Event(r, kind, "", mode, 0, NoStatus, 0, "", "", "", None, "", "", "", "")
  }

  lemma TwoEvents(a: Event, b: Event, p: Event -> bool)
    ensures LastWhere([a, b], p) == if p(b) then Some(b) else if p(a) then Some(a) else None
  {
    assert [a][..0] == [];
    assert LastWhere([a], p) == if p(a) then Some(a) else None;
    assert [a, b][..1] == [a];
  }

  /** A run queued without a mode that finishes with one: recovery knows no mode for it, the
      reconciler does. */
  lemma ModesCanDisagree(r: RunId)
    ensures var evs := [Bare(r, Queued, ""), Bare(r, Finished, "implement")];
            ViewOf(r, evs).mode == Unset && ReconcileOf(r, evs).mode == Implement
  {
    TwoEvents(Bare(r, Queued, ""), Bare(r, Finished, "implement"), NamesMode);
    TwoEvents(Bare(r, Queued, ""), Bare(r, Finished, "implement"), CarriesMode);
  }
}
