/** Every step of every participant, and of the environment, keeps RunLifecycle's books: one
    body, what it wrote, the entry's turns, the log's lines, AgentStatus.

    The lemmas come in two layers. The first says, for each kind of goroutine, what one step of
    it can do to the fields that the books are about; it knows the code and no other goroutine.
    The second takes such a step, whatever its code, through each book in turn. */
module RunBooks {
  import opened Wrappers
  import opened RunLifecycle

  /** What a goroutine outside the body may do in one step: nothing to the body's own fields,
      and at most one of the things that the books count. */
  predicate OtherStep(sh: Shared, h: History, t: Tid, pc: Pc, x: Effect) {
    && x.sh.once == sh.once && !x.pc.InBody() && (pc.Gone? ==> x.pc.Gone?) && (x.pc.Rec? ==> pc.Rec?)
    && (pc.Rec? ==> x.pc.Rec? || x.pc.Gone?)
    && x.h.bodies == h.bodies && x.h.record == h.record && x.h.look == h.look
    && x.h.releases == h.releases && x.h.evictions == h.evictions && (h.blind ==> x.h.blind)
    && OtherLines(sh, h, t, pc, x)
    && OtherProbe(sh, h, t, pc, x)
    && (if x.h.trail == h.trail then x.sh.entry == sh.entry
        else sh.entry == Mine && x.sh.entry == Vacant && x.h.trail == h.trail + [Removed])
    && (if x.h.late == h.late then x.sh.agentStatus == sh.agentStatus || h.late == Some(x.sh.agentStatus)
        else x.h.late == Some(x.sh.agentStatus))
  }

  predicate OtherLines(sh: Shared, h: History, t: Tid, pc: Pc, x: Effect) {
    if pc == Mon(MonAppendLost) then
      x.sh.log == sh.log + [Line(Monitor, Lost)] && x.h.monitorLines == h.monitorLines + 1 && x.h.appended == h.appended
    else if Appending(pc) then
      && x.sh.log == sh.log + [Line(Recovery, pc.r.verdict)] && x.h.monitorLines == h.monitorLines
      && x.h.appended == h.appended + {t} && x.pc.Rec? && x.pc.r.RecEdit?
    else x.sh.log == sh.log && x.h.monitorLines == h.monitorLines && x.h.appended == h.appended
  }

  predicate Probing(pc: Pc) { pc.Rec? && (pc.r.RecProbe? || pc.r.RecAppend?) }

  predicate OtherProbe(sh: Shared, h: History, t: Tid, pc: Pc, x: Effect) {
    && (if Appending(x.pc) then Probing(pc) && !Appending(pc) && x.h.straddlers == h.straddlers + {t}
        else x.h.straddlers == h.straddlers)
    && (Probing(x.pc) && !Probing(pc) ==> x.h.blind || sh.entry != Mine)
    && (x.pc == Mon(MonAppendLost) ==> sh.entry != Mine)
    && (pc.Rec? && t !in h.straddlers && x.pc.Rec? && x.pc.r.RecAppend? ==> pc.r.RecProbe?)
    && (pc.Rec? && x.pc.Rec? && (pc.r.RecAppend? || pc.r.RecEdit?) ==> x.pc.r.RecEdit?)
  }

  lemma OtherStepOf(o: Origin, sh: Shared, h: History, t: Tid, pc: Pc)
    requires !pc.Record?
    ensures OtherStep(sh, h, t, pc, RunPc(o, sh, h, t, pc))
  {
    match pc
    case Exit(e) => ExitStep(o, sh, h, t, e);
    case Watch(w) => WatchStep(sh, h, t, w);
    case Canc(c) => CancelStep(o, sh, h, t, c);
    case Mon(m) => MonitorStep(sh, h, t, m);
    case Rec(r) => RecoveryStep(sh, h, t, r);
    case Gone =>
  }

  lemma ExitStep(o: Origin, sh: Shared, h: History, t: Tid, e: ExitPc)
    ensures OtherStep(sh, h, t, Exit(e), RunExit(o, sh, h, e))
  {
  }

  lemma WatchStep(sh: Shared, h: History, t: Tid, w: WatchPc)
    ensures OtherStep(sh, h, t, Watch(w), RunWatch(sh, h, w))
  {
  }

  lemma CancelStep(o: Origin, sh: Shared, h: History, t: Tid, c: CancelPc)
    ensures OtherStep(sh, h, t, Canc(c), RunCancel(o, sh, h, c))
  {
  }

  lemma MonitorStep(sh: Shared, h: History, t: Tid, m: MonitorPc)
    ensures OtherStep(sh, h, t, Mon(m), RunMonitor(sh, h, m))
  {
    assert h.trail + [Removed] != h.trail;
  }

  lemma RecoveryStep(sh: Shared, h: History, t: Tid, r: RecoveryPc)
    ensures OtherStep(sh, h, t, Rec(r), RunRecovery(sh, h, t, r))
  {
  }

  /** A step of recordTerminal either passes a closed Once by or advances the one body. */
  lemma RecordAdvances(s: State, t: Tid, phase: Phase, status: Status, after: After)
    requires OneBody(s) && t in s.threads && s.threads[t] == Record(phase, status, after) && CanRun(s.sh, s.threads[t])
    ensures var s' := With(s, t, RunRecord(s.origin, s.sh, s.h, t, phase, status, after));
            && OneBody(s')
            && Stage(s') == if phase.Enter? && s.sh.once == Closed then 7 else Stage(s) + 1
    ensures phase.Enter? ==> s.sh.once != Busy(t)
    ensures !phase.Enter? ==> s.sh.once == Busy(t) && Stage(s) == PhaseNumber(phase)
  {
  }

  /** A step of any other goroutine leaves the body where it is. */
  lemma OthersDoNotAdvance(s: State, t: Tid, x: Effect)
    requires OneBody(s) && t in s.threads && !s.threads[t].Record? && OtherStep(s.sh, s.h, t, s.threads[t], x)
    ensures OneBody(With(s, t, x)) && Stage(With(s, t, x)) == Stage(s)
    ensures s.sh.once.Busy? ==> t != s.sh.once.t && With(s, t, x).threads[s.sh.once.t] == s.threads[s.sh.once.t]
  {
  }

  lemma WroteRecord(s: State, t: Tid, phase: Phase, status: Status, after: After)
    requires OneBody(s) && BodyWrote(s) && t in s.threads && s.threads[t] == Record(phase, status, after)
    requires CanRun(s.sh, s.threads[t])
    ensures BodyWrote(With(s, t, RunRecord(s.origin, s.sh, s.h, t, phase, status, after)))
  {
    RecordAdvances(s, t, phase, status, after);
  }

  lemma WroteOther(s: State, t: Tid, x: Effect)
    requires OneBody(s) && BodyWrote(s) && t in s.threads && !s.threads[t].Record?
    requires OtherStep(s.sh, s.h, t, s.threads[t], x)
    ensures BodyWrote(With(s, t, x))
  {
    OthersDoNotAdvance(s, t, x);
    assert forall l :: l in x.sh.log ==> l in s.sh.log || l.writer != Body;
    assert forall i :: 0 <= i < |x.sh.log| ==>
          if i < |s.sh.log| then x.sh.log[i] == s.sh.log[i] else x.sh.log[i].writer != Body;
  }

  lemma EvictionsSnoc(trail: seq<Turn>, t: Turn)
    ensures Evictions(trail + [t])
            == Evictions(trail) + if trail != [] && trail[|trail| - 1] == Registered && t == Deleted then 1 else 0
  {
    assert (trail + [t])[..|trail|] == trail;
  }

  lemma RecordTurns(o: Origin, sh: Shared, h: History, t: Tid, phase: Phase, status: Status, after: After)
    ensures var x := RunRecord(o, sh, h, t, phase, status, after);
            && x.sh.entry == (if phase.Delete? then Vacant else sh.entry)
            && x.h.trail == (if phase.Delete? then h.trail + [Deleted] else h.trail)
            && x.h.evictions == h.evictions + if phase.Delete? && sh.entry == Other then 1 else 0
  {
  }

  lemma TurnoverRecord(s: State, t: Tid, phase: Phase, status: Status, after: After)
    requires OneBody(s) && Turnover(s) && t in s.threads && s.threads[t] == Record(phase, status, after)
    requires CanRun(s.sh, s.threads[t])
    ensures Turnover(With(s, t, RunRecord(s.origin, s.sh, s.h, t, phase, status, after)))
  {
    RecordAdvances(s, t, phase, status, after);
    RecordTurns(s.origin, s.sh, s.h, t, phase, status, after);
    TurnoverAdvanced(s, With(s, t, RunRecord(s.origin, s.sh, s.h, t, phase, status, after)), phase.Delete?);
  }

  lemma TurnoverAdvanced(s: State, s': State, deletes: bool)
    requires Turnover(s) && s'.sh.entry == if deletes then Vacant else s.sh.entry
    requires s'.h.trail == if deletes then s.h.trail + [Deleted] else s.h.trail
    requires s'.h.evictions == s.h.evictions + if deletes && s.sh.entry == Other then 1 else 0
    requires if deletes then Stage(s) == 4 && Stage(s') == 5 else Stage(s') >= 5 <==> Stage(s) >= 5
    ensures Turnover(s')
  {
    EvictionsSnoc(s.h.trail, Deleted);
  }

  lemma TurnoverOther(s: State, t: Tid, x: Effect)
    requires OneBody(s) && Turnover(s) && t in s.threads && !s.threads[t].Record?
    requires OtherStep(s.sh, s.h, t, s.threads[t], x)
    ensures Turnover(With(s, t, x))
  {
    OthersDoNotAdvance(s, t, x);
    EvictionsSnoc(s.h.trail, Removed);
  }

  lemma RecordTallies(o: Origin, sh: Shared, h: History, t: Tid, phase: Phase, status: Status, after: After)
    ensures var x := RunRecord(o, sh, h, t, phase, status, after);
            && x.h.appended == h.appended && x.h.straddlers == h.straddlers && x.h.monitorLines == h.monitorLines
            && !x.pc.Rec?
  {
  }

  lemma TallyRecord(s: State, t: Tid, phase: Phase, status: Status, after: After)
    requires OneBody(s) && Tally(s) && t in s.threads && s.threads[t] == Record(phase, status, after)
    requires CanRun(s.sh, s.threads[t])
    ensures Tally(With(s, t, RunRecord(s.origin, s.sh, s.h, t, phase, status, after)))
  {
    var x := RunRecord(s.origin, s.sh, s.h, t, phase, status, after);
    RecordAdvances(s, t, phase, status, after);
    RecordLines(s.origin, s.sh, s.h, t, phase, status, after);
    RecordTallies(s.origin, s.sh, s.h, t, phase, status, after);
    TallyAdvanced(s, t, phase, status, x);
  }

  lemma TallyAdvanced(s: State, t: Tid, phase: Phase, status: Status, x: Effect)
    requires Tally(s) && t in s.threads && s.threads[t].Record? && !x.pc.Rec?
    requires x.sh.log == if phase.Append? then s.sh.log + [Line(Body, status)] else s.sh.log
    requires x.h.appended == s.h.appended && x.h.straddlers == s.h.straddlers && x.h.monitorLines == s.h.monitorLines
    requires if phase.Append? then Stage(s) == 1 && Stage(With(s, t, x)) == 2
             else Stage(With(s, t, x)) >= 2 <==> Stage(s) >= 2
    ensures Tally(With(s, t, x))
  {
  }

  lemma TallyOther(s: State, t: Tid, x: Effect)
    requires OneBody(s) && Tally(s) && t in s.threads && !s.threads[t].Record?
    requires OtherStep(s.sh, s.h, t, s.threads[t], x)
    ensures Tally(With(s, t, x))
  {
    OthersDoNotAdvance(s, t, x);
  }

  lemma BodyFirstRecord(s: State, t: Tid, phase: Phase, status: Status, after: After)
    requires BodyFirst(s) && t in s.threads && s.threads[t] == Record(phase, status, after)
    ensures BodyFirst(With(s, t, RunRecord(s.origin, s.sh, s.h, t, phase, status, after)))
  {
    var x := RunRecord(s.origin, s.sh, s.h, t, phase, status, after);
    RecordLines(s.origin, s.sh, s.h, t, phase, status, after);
    assert !x.pc.Rec? && x.pc != Mon(MonAppendLost);
    assert x.h.trail == s.h.trail || (s.h.trail != [] && x.h.trail[0] == s.h.trail[0])
        || (s.h.trail == [] && x.h.trail == [Deleted]);
  }

  lemma RecordLines(o: Origin, sh: Shared, h: History, t: Tid, phase: Phase, status: Status, after: After)
    ensures var x := RunRecord(o, sh, h, t, phase, status, after);
            && x.sh.log == (if phase.Append? then sh.log + [Line(Body, status)] else sh.log)
            && x.h.trail == (if phase.Delete? then h.trail + [Deleted] else h.trail) && x.h.blind == h.blind
            && !x.pc.Rec? && x.pc != Mon(MonAppendLost)
  {
  }

  lemma BodyFirstOther(s: State, t: Tid, x: Effect)
    requires OneBody(s) && Turnover(s) && BodyFirst(s) && t in s.threads && !s.threads[t].Record?
    requires OtherStep(s.sh, s.h, t, s.threads[t], x)
    requires Stage(s) >= 2 ==> s.sh.log != []
    ensures BodyFirst(With(s, t, x))
  {
  }

  lemma StatusRecord(s: State, t: Tid, phase: Phase, status: Status, after: After)
    requires OneBody(s) && BodyWrote(s) && StatusKept(s) && t in s.threads
    requires s.threads[t] == Record(phase, status, after)
    requires CanRun(s.sh, s.threads[t])
    ensures StatusKept(With(s, t, RunRecord(s.origin, s.sh, s.h, t, phase, status, after)))
  {
    RecordAdvances(s, t, phase, status, after);
  }

  lemma StatusOther(s: State, t: Tid, x: Effect)
    requires OneBody(s) && StatusKept(s) && t in s.threads && !s.threads[t].Record?
    requires OtherStep(s.sh, s.h, t, s.threads[t], x)
    ensures StatusKept(With(s, t, x))
  {
    OthersDoNotAdvance(s, t, x);
  }

  lemma BooksRecord(s: State, t: Tid, phase: Phase, status: Status, after: After)
    requires Books(s) && t in s.threads && s.threads[t] == Record(phase, status, after) && CanRun(s.sh, s.threads[t])
    ensures Books(With(s, t, RunRecord(s.origin, s.sh, s.h, t, phase, status, after)))
  {
    RecordAdvances(s, t, phase, status, after);
    WroteRecord(s, t, phase, status, after);
    TurnoverRecord(s, t, phase, status, after);
    TallyRecord(s, t, phase, status, after);
    BodyFirstRecord(s, t, phase, status, after);
    StatusRecord(s, t, phase, status, after);
  }

  lemma BooksOther(s: State, t: Tid, x: Effect)
    requires Books(s) && t in s.threads && !s.threads[t].Record? && OtherStep(s.sh, s.h, t, s.threads[t], x)
    ensures Books(With(s, t, x))
  {
    OthersDoNotAdvance(s, t, x);
    WroteOther(s, t, x);
    TurnoverOther(s, t, x);
    TallyOther(s, t, x);
    BodyFirstOther(s, t, x);
    StatusOther(s, t, x);
  }

  /** Every step of a participant keeps the books. */
  lemma BooksRun(s: State, t: Tid)
    requires Books(s) && t in s.threads && CanRun(s.sh, s.threads[t])
    ensures Books(After1(s, t))
  {
    match s.threads[t]
    case Record(phase, status, after) => BooksRecord(s, t, phase, status, after);
    case pc =>
      OtherStepOf(s.origin, s.sh, s.h, t, pc);
      BooksOther(s, t, RunPc(s.origin, s.sh, s.h, t, pc));
  }

  /** A goroutine that appears, or takes the other outcome of its step. */
  lemma BooksMove(s: State, t: Tid, pc: Pc, alive: bool)
    requires Books(s) && MayMove(s, t, pc)
    ensures Books(s.(threads := s.threads[t := pc], sh := s.sh.(alive := alive)))
  {
    var s' := s.(threads := s.threads[t := pc], sh := s.sh.(alive := alive));
    assert Stage(s') == Stage(s);
    assert OneBody(s') && BodyWrote(s') && Turnover(s') && StatusKept(s');
    TallyMove(s, t, pc, alive);
  }

  predicate MayMove(s: State, t: Tid, pc: Pc) {
    && !pc.InBody() && pc != Mon(MonAppendLost)
    && if t in s.threads then
         && !s.threads[t].InBody() && !s.threads[t].Gone? && !pc.Rec?
         && (s.threads[t].Rec? ==> pc.Gone? && !Appending(s.threads[t]))
       else pc.Rec? ==> pc.r.RecRead?
  }

  lemma TallyMove(s: State, t: Tid, pc: Pc, alive: bool)
    requires Tally(s) && MayMove(s, t, pc)
    requires Stage(s.(threads := s.threads[t := pc], sh := s.sh.(alive := alive))) == Stage(s)
    ensures Tally(s.(threads := s.threads[t := pc], sh := s.sh.(alive := alive)))
  {
  }

  lemma BooksEnvironment(s: State, sh: Shared)
    requires Books(s) && sh == s.sh.(ctxDone := sh.ctxDone, alive := sh.alive, handoff := sh.handoff)
    ensures Books(s.(sh := sh))
  {
    assert Stage(s.(sh := sh)) == Stage(s);
  }

  lemma BooksAskUser(s: State)
    requires Books(s)
    ensures Books(s.(sh := s.sh.(agentStatus := NeedsUser), h := s.h.(late := Some(NeedsUser))))
  {
    assert Stage(s.(sh := s.sh.(agentStatus := NeedsUser), h := s.h.(late := Some(NeedsUser)))) == Stage(s);
  }

  lemma BooksTurn(s: State, turn: Turn)
    requires Books(s)
    requires turn == Evicted || turn == Registered || turn == Ended
    requires (turn == Evicted <==> s.sh.entry == Mine) && (turn == Ended <==> s.sh.entry == Other)
    ensures Books(s.(sh := s.sh.(entry := if turn == Registered then Other else Vacant), h := s.h.Turned(turn)))
  {
    var s' := s.(sh := s.sh.(entry := if turn == Registered then Other else Vacant), h := s.h.Turned(turn));
    assert Stage(s') == Stage(s);
    EvictionsSnoc(s.h.trail, turn);
    assert s'.h.trail == s.h.trail + [turn];
  }
}
