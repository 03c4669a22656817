/** The invariant of adopted runs: where the monitor and the cancellers can be, given the log,
    the entry's turns, and how far the terminal body has got.

    The monitor has four ways to an end: it records, it leaves the record to a canceller, it
    finds one in the log, or it finds the entry gone and adds its own. The invariant keeps them
    apart, so that the number of records can be told from the history. */
module RunAdopted {
  import opened Wrappers
  import opened RunLifecycle
  import opened RunBooks
  import opened RunLaunched

  predicate AdoptedPc(s: State, t: Tid, pc: Pc) {
    if t == EXIT then
      match pc
      case Mon(m) =>
        && s.h.saw != SawCancelled
        && (s.h.saw == SawRunning <==> m.MonRemove?)
        && (m.MonRemove? ==> s.sh.once == Closed)
        && (s.h.orphaned <==> m.MonAppendLost? || m.MonEditLost?)
        && s.h.monitorLines == (if m.MonEditLost? then 1 else 0)
        && (m.MonFound? || m.MonFoundClose? || m.MonFoundRemove? ==> s.sh.log != [])
        && (m.MonAppendLost? || m.MonEditLost? || m.MonSync? ==> s.h.trail != [])
        && (StartsRemoved(s.h.trail) ==> m.MonSync?)
      case Record(phase, status, after) =>
        after.AfterMonitor? && status == Lost && s.h.saw == SawRunning && !s.h.orphaned && s.h.monitorLines == 0
          && !StartsRemoved(s.h.trail)
      case Gone =>
        && (s.h.saw == SawRunning ==> s.sh.once == Closed)
        && (s.h.saw == NotYet ==> s.h.trail != [])
        && (s.h.orphaned ==> s.h.monitorLines == 1 && s.h.saw == NotYet && !StartsRemoved(s.h.trail))
        && (!s.h.orphaned ==> s.h.monitorLines == 0)
      case _ => false
    else
      match pc
      case Canc(c) =>
        && (c.CancelWait? ==> s.sh.doneClosed)
        && (c.CancelGrace? || c.CancelHard? || c.CancelWait? ==> s.sh.cancelled)
      case Rec(_) => true
      case Record(_, status, after) => after.AfterCancel? && status == Cancelled && s.sh.cancelled
      case Gone => true
      case _ => false
  }

  predicate StartsRemoved(trail: seq<Turn>) { trail != [] && trail[0] == Removed }

  ghost predicate AdoptedFacts(s: State) {
    && (s.h.saw == SawCancelled ==> s.sh.cancelled)
    && (s.h.record.Some? ==> s.h.record == Some(Cancelled) || s.h.record == Some(Lost))
    && (s.h.record == Some(Lost) ==> s.h.saw == SawRunning)
    && (s.h.record == Some(Cancelled) ==> s.sh.cancelled)
    && (StartsRemoved(s.h.trail) ==> s.h.record.Some? || s.h.appended != {})
  }

  ghost predicate AdoptedCore(s: State) {
    && s.origin == Adopted && EXIT in s.threads && AdoptedFacts(s)
    && forall t :: t in s.threads ==> AdoptedPc(s, t, s.threads[t])
  }

  ghost predicate AdoptedRun(s: State) { Books(s) && AdoptedCore(s) }

  lemma AdoptedInit()
    ensures AdoptedRun(Init(Adopted)) && MarkKept(Init(Adopted))
  {
  }

  /** What a step of another goroutine, or of the environment, may change for this one. */
  predicate Onward(s: State, sh: Shared, h: History) {
    && h.saw == s.h.saw && h.orphaned == s.h.orphaned && h.monitorLines == s.h.monitorLines
    && (s.sh.cancelled ==> sh.cancelled) && (s.sh.doneClosed ==> sh.doneClosed)
    && (s.sh.once == Closed ==> sh.once == Closed)
    && (s.sh.log != [] ==> sh.log != [])
    && (s.h.trail != [] ==> h.trail != []) && (StartsRemoved(h.trail) <==> StartsRemoved(s.h.trail))
  }

  lemma AdoptedPcKept(s: State, s': State, u: Tid, pc: Pc)
    requires AdoptedPc(s, u, pc) && Onward(s, s'.sh, s'.h)
    ensures AdoptedPc(s', u, pc)
  {
  }

  lemma AdoptedMonitorPc(s: State, m: MonitorPc)
    requires AdoptedRun(s) && s.threads[EXIT] == Mon(m)
    ensures AdoptedPc(With(s, EXIT, RunMonitor(s.sh, s.h, m)), EXIT, RunMonitor(s.sh, s.h, m).pc)
  {
    assert AdoptedPc(s, EXIT, Mon(m));
  }

  lemma AdoptedMonitor(s: State, m: MonitorPc)
    requires AdoptedRun(s) && s.threads[EXIT] == Mon(m)
    ensures AdoptedCore(With(s, EXIT, RunMonitor(s.sh, s.h, m)))
  {
    var x := RunMonitor(s.sh, s.h, m);
    assert AdoptedPc(s, EXIT, Mon(m));
    AdoptedMonitorPc(s, m);
    MonitorFacts(s, m);
    forall u | u in s.threads && u != EXIT
      ensures AdoptedPc(With(s, EXIT, x), u, s.threads[u])
    {
      assert AdoptedPc(s, u, s.threads[u]);
    }
  }

  lemma MonitorFacts(s: State, m: MonitorPc)
    requires AdoptedRun(s) && s.threads[EXIT] == Mon(m)
    ensures AdoptedFacts(With(s, EXIT, RunMonitor(s.sh, s.h, m)))
    ensures var x := RunMonitor(s.sh, s.h, m); x.sh.cancelled == s.sh.cancelled && (s.sh.doneClosed ==> x.sh.doneClosed)
  {
    assert AdoptedPc(s, EXIT, Mon(m));
  }

  lemma AdoptedOthers(s: State, t: Tid, x: Effect)
    requires AdoptedCore(s) && t in s.threads && Onward(s, x.sh, x.h)
    ensures forall u :: u in s.threads && u != t ==> AdoptedPc(With(s, t, x), u, s.threads[u])
  {
    forall u | u in s.threads && u != t
      ensures AdoptedPc(With(s, t, x), u, s.threads[u])
    {
      AdoptedPcKept(s, With(s, t, x), u, s.threads[u]);
    }
  }

  lemma AdoptedRecordPc(s: State, t: Tid, phase: Phase, status: Status, after: After, x: Effect)
    requires AdoptedRun(s) && t in s.threads && s.threads[t] == Record(phase, status, after)
    requires CanRun(s.sh, s.threads[t])
    requires RecordStep(s.sh, s.h, t, phase, status, after, x)
    requires StartsRemoved(x.h.trail) <==> StartsRemoved(s.h.trail)
    ensures AdoptedPc(With(s, t, x), t, x.pc) && AdoptedFacts(With(s, t, x))
  {
    assert AdoptedPc(s, t, s.threads[t]);
  }

  lemma AdoptedRecord(s: State, t: Tid, phase: Phase, status: Status, after: After)
    requires AdoptedRun(s) && t in s.threads && s.threads[t] == Record(phase, status, after)
    requires CanRun(s.sh, s.threads[t])
    ensures AdoptedCore(With(s, t, RunRecord(s.origin, s.sh, s.h, t, phase, status, after)))
  {
    var x := RunRecord(s.origin, s.sh, s.h, t, phase, status, after);
    RecordStepOf(s.origin, s.sh, s.h, t, phase, status, after);
    RecordLines(s.origin, s.sh, s.h, t, phase, status, after);
    RecordAdvances(s, t, phase, status, after);
    AdoptedRecordPc(s, t, phase, status, after, x);
    AdoptedOthers(s, t, x);
  }

  /** A goroutine other than the monitor moves, outside the body. */
  lemma AdoptedBystander(s: State, t: Tid, x: Effect)
    requires AdoptedCore(s) && t != EXIT && AdoptedPc(With(s, t, x), t, x.pc)
    requires x.sh == s.sh.(cancelled := x.sh.cancelled, doneClosed := x.sh.doneClosed, alive := x.sh.alive,
                           log := x.sh.log, agentStatus := x.sh.agentStatus)
    requires (s.sh.cancelled ==> x.sh.cancelled) && (s.sh.doneClosed ==> x.sh.doneClosed) && s.sh.log <= x.sh.log
    requires x.h == s.h.(late := x.h.late, straddlers := x.h.straddlers, appended := x.h.appended, blind := x.h.blind)
    requires s.h.appended <= x.h.appended
    ensures AdoptedCore(With(s, t, x))
  {
    forall u | u in With(s, t, x).threads
      ensures AdoptedPc(With(s, t, x), u, With(s, t, x).threads[u])
    {
      if u != t { AdoptedPcKept(s, With(s, t, x), u, s.threads[u]); }
    }
  }

  lemma AdoptedCancel(s: State, t: Tid, c: CancelPc)
    requires AdoptedCore(s) && t in s.threads && s.threads[t] == Canc(c) && CanRun(s.sh, Canc(c))
    ensures AdoptedCore(With(s, t, RunCancel(s.origin, s.sh, s.h, c)))
  {
    assert AdoptedPc(s, t, s.threads[t]);
    AdoptedBystander(s, t, RunCancel(s.origin, s.sh, s.h, c));
  }

  lemma AdoptedRecovery(s: State, t: Tid, r: RecoveryPc)
    requires AdoptedCore(s) && t in s.threads && s.threads[t] == Rec(r)
    ensures AdoptedCore(With(s, t, RunRecovery(s.sh, s.h, t, r)))
  {
    assert AdoptedPc(s, t, s.threads[t]);
    AdoptedBystander(s, t, RunRecovery(s.sh, s.h, t, r));
  }

  lemma AdoptedThread(s: State, t: Tid)
    requires AdoptedRun(s) && t in s.threads && CanRun(s.sh, s.threads[t])
    ensures AdoptedRun(After1(s, t))
  {
    BooksRun(s, t);
    assert AdoptedPc(s, t, s.threads[t]);
    match s.threads[t]
    case Mon(m) => AdoptedMonitor(s, m);
    case Record(phase, status, after) => AdoptedRecord(s, t, phase, status, after);
    case Canc(c) => AdoptedCancel(s, t, c);
    case Rec(r) => AdoptedRecovery(s, t, r);
    case _ =>
  }

  lemma MarkKeptAdopted(s: State, t: Tid)
    requires AdoptedCore(s) && MarkKept(s) && t in s.threads && CanRun(s.sh, s.threads[t])
    ensures MarkKept(After1(s, t))
  {
    assert AdoptedPc(s, t, s.threads[t]);
    OwingStepOf(s.origin, s.sh, s.h, t, s.threads[t]);
    MarkKeptWith(s, t, RunPc(s.origin, s.sh, s.h, t, s.threads[t]));
  }

  lemma AdoptedMove(s: State, t: Tid, pc: Pc)
    requires AdoptedRun(s) && MarkKept(s) && MayMove(s, t, pc) && AdoptedPc(s, t, pc)
    requires t in s.threads ==> (s.threads[t].WillCancel() ==> pc.WillCancel())
    ensures AdoptedRun(s.(threads := s.threads[t := pc])) && MarkKept(s.(threads := s.threads[t := pc]))
  {
    BooksMove(s, t, pc, s.sh.alive);
    assert s.(threads := s.threads[t := pc]) == s.(threads := s.threads[t := pc], sh := s.sh.(alive := s.sh.alive));
    AdoptedCoreMove(s, t, pc);
    MarkKeptMove(s, t, pc);
  }

  lemma AdoptedCoreMove(s: State, t: Tid, pc: Pc)
    requires AdoptedCore(s) && AdoptedPc(s, t, pc)
    ensures AdoptedCore(s.(threads := s.threads[t := pc]))
  {
    var s' := s.(threads := s.threads[t := pc]);
    forall u | u in s'.threads
      ensures AdoptedPc(s', u, s'.threads[u])
    {
      AdoptedPcKept(s, s', u, s'.threads[u]);
    }
  }

  lemma MarkKeptMove(s: State, t: Tid, pc: Pc)
    requires MarkKept(s) && s.origin != Queued && (t in s.threads ==> (s.threads[t].WillCancel() ==> pc.WillCancel()))
    ensures MarkKept(s.(threads := s.threads[t := pc]))
  {
    if CancelOwed(s) { OwedKept(s, s.(threads := s.threads[t := pc]), t); }
  }

  lemma AdoptedEnvironment(s: State, sh: Shared, h: History)
    requires AdoptedCore(s) && MarkKept(s)
    requires sh == s.sh.(entry := sh.entry, ctxDone := sh.ctxDone, alive := sh.alive, handoff := sh.handoff,
                         agentStatus := sh.agentStatus)
    requires h == s.h.(late := h.late, trail := h.trail)
    requires (s.h.trail != [] ==> h.trail != []) && (StartsRemoved(h.trail) <==> StartsRemoved(s.h.trail))
    ensures AdoptedCore(s.(sh := sh, h := h)) && MarkKept(s.(sh := sh, h := h))
  {
    var s' := s.(sh := sh, h := h);
    forall u | u in s'.threads
      ensures AdoptedPc(s', u, s'.threads[u])
    {
      AdoptedPcKept(s, s', u, s.threads[u]);
    }
    if CancelOwed(s) { OwedKept(s, s', EXIT + 1); }
  }

  lemma AdoptedTurn(s: State, turn: Turn)
    requires AdoptedRun(s) && MarkKept(s) && (turn == Evicted || turn == Registered || turn == Ended)
    requires (turn == Evicted <==> s.sh.entry == Mine) && (turn == Ended <==> s.sh.entry == Other)
    ensures var s' := s.(sh := s.sh.(entry := if turn == Registered then Other else Vacant), h := s.h.Turned(turn));
            AdoptedRun(s') && MarkKept(s')
  {
    BooksTurn(s, turn);
    AdoptedEnvironment(s, s.sh.(entry := if turn == Registered then Other else Vacant), s.h.Turned(turn));
  }

  lemma AdoptedElsewhere(s: State, st: Step)
    requires AdoptedRun(s) && MarkKept(s) && Enabled(s, st)
    requires st.CancelContext? || st.Die? || st.AskUser? || st.FailReview?
    ensures AdoptedRun(Apply(s, st)) && MarkKept(Apply(s, st))
  {
    AdoptedEnvironment(s, Apply(s, st).sh, Apply(s, st).h);
    if st.AskUser? { BooksAskUser(s); } else { BooksFailReview(s, st); }
  }

  lemma BooksFailReview(s: State, st: Step)
    requires Books(s) && Enabled(s, st) && (st.CancelContext? || st.Die? || st.FailReview?)
    ensures Books(Apply(s, st))
  {
    BooksEnvironment(s, Apply(s, st).sh);
  }

  lemma AdoptedArrival(s: State, st: Step)
    requires AdoptedRun(s) && MarkKept(s) && Enabled(s, st)
    requires (st.Alternative? || st.Cancel? || st.Recover? || st.Outcome?)
    ensures AdoptedRun(Apply(s, st)) && MarkKept(Apply(s, st))
  {
    assert AdoptedPc(s, EXIT, s.threads[EXIT]);
    match st
    case Alternative(t) => assert AdoptedPc(s, t, s.threads[t]); AdoptedMove(s, t, Otherwise(s.threads[t]));
    case Cancel(t) => AdoptedMove(s, t, Canc(CancelLookup));
    case Recover(t, skipTracked, verdict) => AdoptedMove(s, t, Rec(RecRead(skipTracked, verdict)));
    case Outcome(_) =>
  }

  lemma AdoptedStep(s: State, st: Step)
    requires AdoptedRun(s) && MarkKept(s) && Enabled(s, st)
    ensures AdoptedRun(Apply(s, st)) && MarkKept(Apply(s, st))
  {
    match st
    case Run(t) => AdoptedThread(s, t); MarkKeptAdopted(s, t);
    case Evict => AdoptedTurn(s, Evicted);
    case OtherStarts => AdoptedTurn(s, Registered);
    case OtherEnds => AdoptedTurn(s, Ended);
    case CancelContext => AdoptedElsewhere(s, st);
    case Die => AdoptedElsewhere(s, st);
    case AskUser => AdoptedElsewhere(s, st);
    case FailReview => AdoptedElsewhere(s, st);
    case _ => AdoptedArrival(s, st);
  }
}
