/** The invariant of launched runs: where each goroutine can be, given what the exit path saw
    and how far the terminal body has got.

    From it follows that somebody always owes the record of a mark: a canceller on its way, or
    the daemon's goroutine before its own look. As in RunBooks, what one step of one kind of
    goroutine does is said first, and then what it means for everybody else. */
module RunLaunched {
  import opened Wrappers
  import opened RunLifecycle
  import opened RunBooks

  /** What a goroutine of a launched run may be doing, given the shared fields. */
  predicate LaunchedPc(s: State, t: Tid, pc: Pc) {
    if t == EXIT then
      match pc
      case Exit(e) =>
        && (e.BeforeCheck() <==> s.h.saw == NotYet)
        && (s.sh.doneClosed <==> e.MainCheck? || e.MainStop?)
        && (e.MainCheck? || e.MainStop? ==> s.origin == Queued)
        && (s.h.saw == SawRunning ==> s.sh.once == Closed)
        && (e.MainStop? ==> s.sh.once == Closed)
        && (e.ExitCheck? ==> e.outcome == Success || e.outcome == Failed)
      case Record(phase, status, after) =>
        && (after.AfterExit? || after.AfterMain?)
        && (after.AfterExit? ==> s.h.saw == SawRunning && !s.sh.doneClosed && (status == Success || status == Failed))
        && (after.AfterExit? && phase.Enter? ==> s.sh.once == Fresh)
        && (after.AfterMain? ==> s.h.saw != NotYet && s.sh.doneClosed && s.sh.cancelled && status == Cancelled)
        && (after.AfterMain? ==> s.origin == Queued && (s.h.saw == SawRunning ==> s.sh.once == Closed))
      case Gone =>
        && s.sh.doneClosed && s.h.saw != NotYet
        && (s.h.saw == SawRunning || s.origin == Queued ==> s.sh.once == Closed)
        && (s.origin == Queued ==> s.sh.watchStopped)
      case _ => false
    else
      match pc
      case Watch(_) => s.origin == Queued
      case Canc(_) => true
      case Rec(_) => true
      case Record(_, status, after) => after.AfterCancel? && status == Cancelled && s.sh.doneClosed
      case Gone => true
      case _ => false
  }

  /** Somebody will still write the cancelled record: a canceller that has marked the run,
      or RunQueuedAgentSync on its way to look at the mark. */
  ghost predicate CancelOwed(s: State) {
    || (exists t :: t in s.threads && s.threads[t].WillCancel())
    || (s.origin == Queued && EXIT in s.threads && !s.threads[EXIT].Gone? && s.threads[EXIT] != Exit(MainStop))
  }

  ghost predicate MarkKept(s: State) {
    s.sh.cancelled && s.sh.once == Fresh && s.h.saw != SawRunning ==> CancelOwed(s)
  }

  ghost predicate LaunchedFacts(s: State) {
    && (s.h.saw == SawCancelled ==> s.sh.cancelled && (s.h.record.Some? ==> s.h.record == Some(Cancelled)))
    && (s.h.saw == SawRunning && s.h.record.Some? ==> s.h.record == Some(Success) || s.h.record == Some(Failed))
    && (s.h.saw == NotYet ==> s.sh.once == Fresh)
    && (s.h.look.Some? ==> s.h.look.value.handoff == s.sh.handoff)
    && s.h.monitorLines == 0 && !s.h.orphaned && (s.h.trail != [] ==> s.h.trail[0] != Removed)
  }

  ghost predicate LaunchedCore(s: State) {
    && s.origin != Adopted && EXIT in s.threads && LaunchedFacts(s)
    && forall t :: t in s.threads ==> LaunchedPc(s, t, s.threads[t])
  }

  ghost predicate Launched(s: State) { Books(s) && LaunchedCore(s) }

  lemma LaunchedInit(origin: Origin)
    requires origin != Adopted
    ensures Launched(Init(origin)) && MarkKept(Init(origin))
  {
  }

  lemma OwedKept(s: State, s': State, t: Tid)
    requires CancelOwed(s) && s'.origin == s.origin
    requires forall u :: u in s.threads && u != t ==> u in s'.threads && s'.threads[u] == s.threads[u]
    requires t in s.threads && s.threads[t].WillCancel() ==> t in s'.threads && s'.threads[t].WillCancel()
    requires t == EXIT && s.origin == Queued ==>
               EXIT in s'.threads && !s'.threads[EXIT].Gone? && s'.threads[EXIT] != Exit(MainStop)
    ensures CancelOwed(s')
  {
    if u :| u in s.threads && s.threads[u].WillCancel() {
      assert u in s'.threads && s'.threads[u].WillCancel();
    }
  }

  lemma LaunchedExit(s: State, e: ExitPc)
    requires LaunchedCore(s) && BodyWrote(s) && StatusKept(s) && s.threads[EXIT] == Exit(e)
    ensures LaunchedCore(With(s, EXIT, RunExit(s.origin, s.sh, s.h, e)))
  {
    assert LaunchedPc(s, EXIT, Exit(e));
  }

  /** A goroutine outside the body may move, and mark the run, without disturbing it. */
  predicate Bystands(sh: Shared, h: History, x: Effect) {
    && x.sh == sh.(cancelled := x.sh.cancelled, alive := x.sh.alive, log := x.sh.log, agentStatus := x.sh.agentStatus)
    && (sh.cancelled ==> x.sh.cancelled)
    && x.h == h.(late := x.h.late, straddlers := x.h.straddlers, appended := x.h.appended, blind := x.h.blind)
  }

  lemma Bystander(s: State, t: Tid, x: Effect)
    requires LaunchedCore(s) && LaunchedPc(s, t, x.pc) && (t == EXIT ==> x.pc.Exit?) && Bystands(s.sh, s.h, x)
    ensures LaunchedCore(With(s, t, x))
  {
    forall u | u in With(s, t, x).threads
      ensures LaunchedPc(With(s, t, x), u, With(s, t, x).threads[u])
    {
      if u != t { assert LaunchedPc(s, u, s.threads[u]); }
    }
  }

  lemma WatchBystands(s: State, t: Tid, w: WatchPc)
    requires LaunchedCore(s) && t in s.threads && s.threads[t] == Watch(w)
    ensures LaunchedCore(With(s, t, RunWatch(s.sh, s.h, w)))
  {
    assert LaunchedPc(s, t, s.threads[t]);
    Bystander(s, t, RunWatch(s.sh, s.h, w));
  }

  lemma CancelBystands(s: State, t: Tid, c: CancelPc)
    requires LaunchedCore(s) && t in s.threads && s.threads[t] == Canc(c) && CanRun(s.sh, Canc(c))
    ensures LaunchedCore(With(s, t, RunCancel(s.origin, s.sh, s.h, c)))
  {
    assert LaunchedPc(s, t, s.threads[t]);
    var x := RunCancel(s.origin, s.sh, s.h, c);
    if c.CancelWait? || c.CancelGrace? { assert s.sh.doneClosed; }
    Bystander(s, t, x);
  }

  lemma RecoveryBystands(s: State, t: Tid, r: RecoveryPc)
    requires LaunchedCore(s) && t in s.threads && s.threads[t] == Rec(r)
    ensures LaunchedCore(With(s, t, RunRecovery(s.sh, s.h, t, r)))
  {
    assert LaunchedPc(s, t, s.threads[t]);
    Bystander(s, t, RunRecovery(s.sh, s.h, t, r));
  }

  /** What a step of recordTerminal does to the fields other goroutines go by. */
  predicate RecordStep(sh: Shared, h: History, t: Tid, phase: Phase, status: Status, after: After, x: Effect) {
    && RecordShared(sh, t, phase, x.sh)
    && RecordHistory(sh, h, phase, status, x.h)
    && RecordPc(sh, phase, status, after, x.pc)
  }

  predicate RecordShared(sh: Shared, t: Tid, phase: Phase, sh': Shared) {
    && sh'.cancelled == sh.cancelled && sh'.doneClosed == sh.doneClosed && sh'.handoff == sh.handoff
    && sh'.watchStopped == sh.watchStopped
    && sh'.once == (if phase.Finish? then Closed else if phase.Enter? && sh.once != Closed then Busy(t) else sh.once)
  }

  predicate RecordHistory(sh: Shared, h: History, phase: Phase, status: Status, h': History) {
    && h'.saw == h.saw && h'.orphaned == h.orphaned && h'.monitorLines == h.monitorLines
    && h'.record == (if phase.Append? then Some(status) else h.record)
    && h'.straddlers == h.straddlers && h'.appended == h.appended && h'.blind == h.blind
    && h'.look == (if phase.Look? then Some(Glance(sh.agentStatus, sh.handoff)) else h.look)
    && h'.trail == (if phase.Delete? then h.trail + [Deleted] else h.trail)
  }

  predicate RecordPc(sh: Shared, phase: Phase, status: Status, after: After, pc: Pc) {
    if phase.Finish? || (phase.Enter? && sh.once == Closed) then pc == Continue(after)
    else pc.Record? && pc.status == status && pc.after == after && !pc.phase.Enter?
  }

  lemma RecordSharedOf(o: Origin, sh: Shared, h: History, t: Tid, phase: Phase, status: Status, after: After)
    ensures RecordShared(sh, t, phase, RunRecord(o, sh, h, t, phase, status, after).sh)
  {
  }

  lemma RecordHistoryOf(o: Origin, sh: Shared, h: History, t: Tid, phase: Phase, status: Status, after: After)
    ensures RecordHistory(sh, h, phase, status, RunRecord(o, sh, h, t, phase, status, after).h)
  {
  }

  lemma RecordStepOf(o: Origin, sh: Shared, h: History, t: Tid, phase: Phase, status: Status, after: After)
    ensures RecordStep(sh, h, t, phase, status, after, RunRecord(o, sh, h, t, phase, status, after))
  {
    RecordSharedOf(o, sh, h, t, phase, status, after);
    RecordHistoryOf(o, sh, h, t, phase, status, after);
  }

  lemma LaunchedRecordPcs(s: State, t: Tid, phase: Phase, status: Status, after: After, x: Effect)
    requires LaunchedCore(s) && OneBody(s) && t in s.threads && s.threads[t] == Record(phase, status, after)
    requires CanRun(s.sh, s.threads[t])
    requires RecordStep(s.sh, s.h, t, phase, status, after, x)
    ensures forall u :: u in With(s, t, x).threads ==> LaunchedPc(With(s, t, x), u, With(s, t, x).threads[u])
  {
    assert LaunchedPc(s, t, s.threads[t]);
    assert LaunchedPc(s, EXIT, s.threads[EXIT]);
    forall u | u in With(s, t, x).threads
      ensures LaunchedPc(With(s, t, x), u, With(s, t, x).threads[u])
    {
      if u != t { assert LaunchedPc(s, u, s.threads[u]); }
    }
  }

  lemma LaunchedRecord(s: State, t: Tid, phase: Phase, status: Status, after: After)
    requires Launched(s) && t in s.threads && s.threads[t] == Record(phase, status, after) && CanRun(s.sh, s.threads[t])
    ensures LaunchedCore(With(s, t, RunRecord(s.origin, s.sh, s.h, t, phase, status, after)))
  {
    var x := RunRecord(s.origin, s.sh, s.h, t, phase, status, after);
    RecordStepOf(s.origin, s.sh, s.h, t, phase, status, after);
    LaunchedRecordPcs(s, t, phase, status, after, x);
    LaunchedRecordFacts(s, t, phase, status, after, x);
  }

  lemma LaunchedRecordFacts(s: State, t: Tid, phase: Phase, status: Status, after: After, x: Effect)
    requires Launched(s) && t in s.threads && s.threads[t] == Record(phase, status, after) && CanRun(s.sh, s.threads[t])
    requires RecordStep(s.sh, s.h, t, phase, status, after, x)
    ensures LaunchedFacts(With(s, t, x))
  {
    assert LaunchedPc(s, t, s.threads[t]);
    assert LaunchedPc(s, EXIT, s.threads[EXIT]);
  }

  lemma LaunchedRun(s: State, t: Tid)
    requires Launched(s) && t in s.threads && CanRun(s.sh, s.threads[t])
    ensures Launched(After1(s, t))
  {
    BooksRun(s, t);
    assert LaunchedPc(s, t, s.threads[t]);
    match s.threads[t]
    case Exit(e) => LaunchedExit(s, e);
    case Watch(w) => WatchBystands(s, t, w);
    case Canc(c) => CancelBystands(s, t, c);
    case Rec(r) => RecoveryBystands(s, t, r);
    case Record(phase, status, after) => LaunchedRecord(s, t, phase, status, after);
    case _ =>
  }

  /** What a step does to the promise that somebody records a mark. */
  predicate OwingStep(sh: Shared, h: History, pc: Pc, x: Effect) {
    && (x.sh.once == Fresh ==> sh.once == Fresh) && (x.h.saw != SawRunning ==> h.saw != SawRunning)
    && (x.sh.cancelled && !sh.cancelled ==> x.pc.WillCancel() || pc.Watch?)
    && (pc.WillCancel() ==> x.pc.WillCancel() || x.sh.once != Fresh)
  }

  lemma ExitOwes(o: Origin, sh: Shared, h: History, e: ExitPc)
    requires h.saw == SawRunning ==> !e.BeforeCheck()
    ensures OwingStep(sh, h, Exit(e), RunExit(o, sh, h, e))
  {
  }

  lemma MonitorOwes(sh: Shared, h: History, m: MonitorPc)
    requires h.saw == SawRunning ==> m.MonRemove?
    ensures OwingStep(sh, h, Mon(m), RunMonitor(sh, h, m))
  {
  }

  lemma RecoveryOwes(sh: Shared, h: History, t: Tid, r: RecoveryPc)
    ensures OwingStep(sh, h, Rec(r), RunRecovery(sh, h, t, r))
  {
  }

  lemma CancelOwes(o: Origin, sh: Shared, h: History, c: CancelPc)
    ensures OwingStep(sh, h, Canc(c), RunCancel(o, sh, h, c))
  {
  }

  lemma RecordOwes(o: Origin, sh: Shared, h: History, t: Tid, phase: Phase, status: Status, after: After)
    requires phase.Enter? ==> !sh.once.Busy?
    ensures OwingStep(sh, h, Record(phase, status, after), RunRecord(o, sh, h, t, phase, status, after))
  {
    RecordStepOf(o, sh, h, t, phase, status, after);
  }

  lemma OwingStepOf(o: Origin, sh: Shared, h: History, t: Tid, pc: Pc)
    requires CanRun(sh, pc)
    requires h.saw == SawRunning ==> !(pc.Exit? && pc.e.BeforeCheck()) && (pc.Mon? ==> pc.m.MonRemove?)
    ensures OwingStep(sh, h, pc, RunPc(o, sh, h, t, pc))
  {
    match pc
    case Exit(e) => ExitOwes(o, sh, h, e);
    case Watch(_) =>
    case Canc(c) => CancelOwes(o, sh, h, c);
    case Mon(m) => MonitorOwes(sh, h, m);
    case Rec(r) => RecoveryOwes(sh, h, t, r);
    case Record(phase, status, after) => RecordOwes(o, sh, h, t, phase, status, after);
    case _ =>
  }

  lemma MarkKeptWith(s: State, t: Tid, x: Effect)
    requires MarkKept(s) && t in s.threads && OwingStep(s.sh, s.h, s.threads[t], x)
    requires (s.threads[t].Watch? ==> s.origin == Queued)
    requires s.origin == Queued ==> LaunchedCore(With(s, t, x))
    ensures MarkKept(With(s, t, x))
  {
    var s' := With(s, t, x);
    if s'.sh.cancelled && s'.sh.once == Fresh && s'.h.saw != SawRunning {
      if s.origin == Queued {
        assert LaunchedPc(s', EXIT, s'.threads[EXIT]);
      } else if x.pc.WillCancel() {
        assert s'.threads[t].WillCancel();
      } else {
        OwedKept(s, s', t);
      }
    }
  }

  lemma MarkKeptRun(s: State, t: Tid)
    requires LaunchedCore(s) && MarkKept(s) && t in s.threads && CanRun(s.sh, s.threads[t])
    requires LaunchedCore(After1(s, t))
    ensures MarkKept(After1(s, t))
  {
    assert LaunchedPc(s, t, s.threads[t]);
    OwingStepOf(s.origin, s.sh, s.h, t, s.threads[t]);
    MarkKeptWith(s, t, RunPc(s.origin, s.sh, s.h, t, s.threads[t]));
  }

  lemma LaunchedMove(s: State, t: Tid, pc: Pc, alive: bool)
    requires Launched(s) && MarkKept(s) && MayMove(s, t, pc) && LaunchedPc(s, t, pc)
    requires t in s.threads ==> (s.threads[t].WillCancel() ==> pc.WillCancel())
    requires t == EXIT ==> pc.Exit? && pc != Exit(MainStop)
    ensures var s' := s.(threads := s.threads[t := pc], sh := s.sh.(alive := alive)); Launched(s') && MarkKept(s')
  {
    var s' := s.(threads := s.threads[t := pc], sh := s.sh.(alive := alive));
    BooksMove(s, t, pc, alive);
    Bystander(s, t, Effect(s.sh.(alive := alive), pc, s.h));
    if CancelOwed(s) { OwedKept(s, s', t); }
  }

  lemma LaunchedEnvironment(s: State, sh: Shared, h: History)
    requires LaunchedCore(s) && MarkKept(s)
    requires sh == s.sh.(entry := sh.entry, ctxDone := sh.ctxDone, alive := sh.alive, handoff := sh.handoff,
                         agentStatus := sh.agentStatus)
    requires h == s.h.(late := h.late, trail := h.trail) && (h.trail != [] ==> h.trail[0] != Removed)
    requires sh.handoff == s.sh.handoff || s.h.look.None?
    ensures LaunchedCore(s.(sh := sh, h := h)) && MarkKept(s.(sh := sh, h := h))
  {
    var s' := s.(sh := sh, h := h);
    forall u | u in s'.threads
      ensures LaunchedPc(s', u, s'.threads[u])
    {
      assert LaunchedPc(s, u, s.threads[u]);
    }
    if CancelOwed(s) { OwedKept(s, s', EXIT + 1); }
  }

  lemma LaunchedTurn(s: State, turn: Turn)
    requires Launched(s) && MarkKept(s) && (turn == Evicted || turn == Registered || turn == Ended)
    requires (turn == Evicted <==> s.sh.entry == Mine) && (turn == Ended <==> s.sh.entry == Other)
    ensures var s' := s.(sh := s.sh.(entry := if turn == Registered then Other else Vacant), h := s.h.Turned(turn));
            Launched(s') && MarkKept(s')
  {
    BooksTurn(s, turn);
    LaunchedEnvironment(s, s.sh.(entry := if turn == Registered then Other else Vacant), s.h.Turned(turn));
  }

  lemma LaunchedElsewhere(s: State, st: Step)
    requires Launched(s) && MarkKept(s) && Enabled(s, st)
    requires st.CancelContext? || st.Die? || st.AskUser? || st.FailReview?
    ensures Launched(Apply(s, st)) && MarkKept(Apply(s, st))
  {
    assert LaunchedPc(s, EXIT, s.threads[EXIT]);
    LaunchedEnvironment(s, Apply(s, st).sh, Apply(s, st).h);
    if st.AskUser? { BooksAskUser(s); } else { BooksEnvironment(s, Apply(s, st).sh); }
  }

  lemma LaunchedArrival(s: State, st: Step)
    requires Launched(s) && MarkKept(s) && Enabled(s, st)
    requires (st.Alternative? || st.Cancel? || st.Recover? || st.Outcome?)
    ensures Launched(Apply(s, st)) && MarkKept(Apply(s, st))
  {
    assert LaunchedPc(s, EXIT, s.threads[EXIT]);
    match st
    case Alternative(t) =>
      assert LaunchedPc(s, t, s.threads[t]);
      LaunchedMove(s, t, Otherwise(s.threads[t]), s.sh.alive);
    case Cancel(t) => LaunchedMove(s, t, Canc(CancelLookup), s.sh.alive);
    case Recover(t, skipTracked, verdict) => LaunchedMove(s, t, Rec(RecRead(skipTracked, verdict)), s.sh.alive);
    case Outcome(status) => LaunchedMove(s, EXIT, Exit(ExitCheck(status)), false);
  }

  lemma LaunchedStep(s: State, st: Step)
    requires Launched(s) && MarkKept(s) && Enabled(s, st)
    ensures Launched(Apply(s, st)) && MarkKept(Apply(s, st))
  {
    match st
    case Run(t) => LaunchedRun(s, t); MarkKeptRun(s, t);
    case Evict => LaunchedTurn(s, Evicted);
    case OtherStarts => LaunchedTurn(s, Registered);
    case OtherEnds => LaunchedTurn(s, Ended);
    case CancelContext => LaunchedElsewhere(s, st);
    case Die => LaunchedElsewhere(s, st);
    case AskUser => LaunchedElsewhere(s, st);
    case FailReview => LaunchedElsewhere(s, st);
    case _ => LaunchedArrival(s, st);
  }
}
