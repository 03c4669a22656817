/** The recovery passes that end a run once more, told from the order of events. */
module RunOrder {
  import opened Wrappers
  import opened RunLifecycle
  import opened RunBooks
  import opened RunOutcomes

  // A pass's reading of the log and its lookup of the entry are set against the first record and
  // the end of the entry; nothing else of the history is looked at.

  /** The first two happen to the run: a record is appended, its entry goes. The others are a
      pass's doings: it reads the log, and will or will not ask for the entry; it asks; it
      takes the process for alive. */
  datatype Mark = Recorded | Went | Read(t: Tid) | ReadBlindly(t: Tid) | Asked(t: Tid) | Spared(t: Tid)

  function MarkOf(s: State, st: Step): Option<Mark>
    requires Enabled(s, st)
  {
    var s' := Apply(s, st);
    if |s'.sh.log| > |s.sh.log| then Some(Recorded)
    else if s.sh.entry == Mine && s'.sh.entry != Mine then Some(Went)
    else
      match st
      case Run(t) => if s.threads[t].Rec? then PassMark(t, s.threads[t].r) else None
      case Alternative(t) => if s.threads[t].Rec? && s.threads[t].r.RecProbe? then Some(Spared(t)) else None
      case _ => None
  }

  function PassMark(t: Tid, r: RecoveryPc): Option<Mark> {
    match r
    case RecRead(skipTracked, _) => Some(if skipTracked then Read(t) else ReadBlindly(t))
    case RecLook(_) => Some(Asked(t))
    case _ => None
  }

  function Listed(m: Option<Mark>): seq<Mark> { if m.Some? then [m.value] else [] }

  function Marks(s: State, steps: seq<Step>): seq<Mark>
    requires Schedule(s, steps)
    decreases |steps|
  {
    if steps == [] then [] else Listed(MarkOf(s, steps[0])) + Marks(Apply(s, steps[0]), steps[1..])
  }

  // ---------------------------------------------------------------- what the order says of a pass

  /** It read the log before the first record. */
  predicate ReadEarly(order: seq<Mark>, t: Tid) {
    exists i :: 0 <= i < |order| && (order[i] == Read(t) || order[i] == ReadBlindly(t)) && Recorded !in order[..i]
  }

  /** It did not ask for the entry, or asked when the entry had gone. */
  predicate AskedLate(order: seq<Mark>, t: Tid) {
    ReadBlindly(t) in order || exists i :: 0 <= i < |order| && order[i] == Asked(t) && Went in order[..i]
  }

  predicate Straddled(order: seq<Mark>, t: Tid) { ReadEarly(order, t) && AskedLate(order, t) && Spared(t) !in order }

  ghost predicate NoneStraddled(order: seq<Mark>) { forall t :: !Straddled(order, t) }

  predicate Unmarked(order: seq<Mark>, t: Tid) {
    Read(t) !in order && ReadBlindly(t) !in order && Asked(t) !in order && Spared(t) !in order
  }

  lemma ReadEarlySnoc(order: seq<Mark>, m: Mark, t: Tid)
    ensures ReadEarly(order + [m], t)
            <==> ReadEarly(order, t) || ((m == Read(t) || m == ReadBlindly(t)) && Recorded !in order)
  {
    var more := order + [m];
    assert more[|order|] == m && more[..|order|] == order;
    forall i | 0 <= i < |order|
      ensures more[i] == order[i] && more[..i] == order[..i]
    {
    }
    if ReadEarly(order, t) {
      var i :| 0 <= i < |order| && (order[i] == Read(t) || order[i] == ReadBlindly(t)) && Recorded !in order[..i];
      assert more[i] == order[i] && more[..i] == order[..i];
    }
  }

  lemma AskedLateSnoc(order: seq<Mark>, m: Mark, t: Tid)
    ensures AskedLate(order + [m], t)
            <==> AskedLate(order, t) || m == ReadBlindly(t) || (m == Asked(t) && Went in order)
  {
    var more := order + [m];
    assert more[|order|] == m && more[..|order|] == order;
    forall i | 0 <= i < |order|
      ensures more[i] == order[i] && more[..i] == order[..i]
    {
    }
    if i :| 0 <= i < |order| && order[i] == Asked(t) && Went in order[..i] {
      assert more[i] == order[i] && more[..i] == order[..i];
    }
  }

  predicate About(m: Mark, t: Tid) { m == Read(t) || m == ReadBlindly(t) || m == Asked(t) || m == Spared(t) }

  /** What one more mark does to what the order says of `t`. */
  lemma OneMoreMark(order: seq<Mark>, m: Mark, t: Tid)
    ensures var more := order + [m];
            && (ReadEarly(more, t)
                <==> ReadEarly(order, t) || ((m == Read(t) || m == ReadBlindly(t)) && Recorded !in order))
            && (AskedLate(more, t) <==> AskedLate(order, t) || m == ReadBlindly(t) || (m == Asked(t) && Went in order))
            && (Spared(t) in more <==> Spared(t) in order || m == Spared(t))
            && (Unmarked(more, t) <==> Unmarked(order, t) && !About(m, t))
  {
    ReadEarlySnoc(order, m, t);
    AskedLateSnoc(order, m, t);
  }

  lemma UnmarkedIsNothing(order: seq<Mark>, t: Tid)
    requires Unmarked(order, t)
    ensures !ReadEarly(order, t) && !AskedLate(order, t)
  {
  }

  // ---------------------------------------------------------------- the order and the passes

  /** Where a goroutine is, and what the order says of it. */
  predicate PassKept(order: seq<Mark>, straddlers: set<Tid>, t: Tid, pc: Pc) {
    if pc.Rec? && pc.r.RecRead? then Unmarked(order, t) && t !in straddlers
    else if pc.Rec? && pc.r.RecLook? then
      ReadEarly(order, t) && !AskedLate(order, t) && Spared(t) !in order && t !in straddlers
    else if pc.Rec? && pc.r.RecProbe? then Straddled(order, t) && t !in straddlers
    else t in straddlers <==> Straddled(order, t)
  }

  ghost predicate Ordered(s: State, order: seq<Mark>) {
    && (Recorded in order <==> s.sh.log != [])
    && (Went in order <==> s.sh.entry != Mine)
    && (forall t :: t !in s.threads ==> Unmarked(order, t) && t !in s.h.straddlers)
    && (forall t :: t in s.threads ==> PassKept(order, s.h.straddlers, t, s.threads[t]))
  }

  lemma OrderedInit(origin: Origin)
    ensures Ordered(Init(origin), [])
  {
  }

  /** What the order says of a goroutine that does not move. */
  lemma OthersPassKept(order: seq<Mark>, straddlers: set<Tid>, u: Tid, pc: Pc, m: Option<Mark>, straddlers': set<Tid>)
    requires PassKept(order, straddlers, u, pc)
    requires (m.Some? ==> !About(m.value, u)) && (u in straddlers <==> u in straddlers')
    ensures PassKept(order + Listed(m), straddlers', u, pc)
  {
    if m.Some? {
      OneMoreMark(order, m.value, u);
    } else {
      assert order + [] == order;
    }
  }

  /** The mark of a participant's step. */
  function MarkOfRun(sh: Shared, t: Tid, pc: Pc, x: Effect): Option<Mark> {
    if |x.sh.log| > |sh.log| then Some(Recorded)
    else if sh.entry == Mine && x.sh.entry != Mine then Some(Went)
    else if pc.Rec? then PassMark(t, pc.r)
    else None
  }

  /** A step of a pass, as the order sees it. */
  lemma PassRuns(order: seq<Mark>, sh: Shared, h: History, t: Tid, r: RecoveryPc)
    requires PassKept(order, h.straddlers, t, Rec(r))
    requires (Recorded in order <==> sh.log != []) && (Went in order <==> sh.entry != Mine)
    ensures var x := RunRecovery(sh, h, t, r);
            PassKept(order + Listed(MarkOfRun(sh, t, Rec(r), x)), x.h.straddlers, t, x.pc)
  {
    var x := RunRecovery(sh, h, t, r);
    var m := MarkOfRun(sh, t, Rec(r), x);
    if r.RecRead? {
      UnmarkedIsNothing(order, t);
    }
    if m.Some? {
      OneMoreMark(order, m.value, t);
    } else {
      assert order + [] == order;
    }
  }

  /** Other goroutines, and recordTerminal, do not touch the passes. */
  lemma NoPassRuns(o: Origin, sh: Shared, h: History, t: Tid, pc: Pc)
    requires !pc.Rec?
    ensures var x := RunPc(o, sh, h, t, pc); !x.pc.Rec? && x.h.straddlers == h.straddlers
  {
  }

  /** A step appends to the log or leaves it, and an entry that has gone does not come back. */
  predicate Grows(sh: Shared, sh': Shared) {
    && (sh'.log == sh.log || (|sh'.log| == |sh.log| + 1 && sh'.entry == sh.entry))
    && (sh'.entry == Mine ==> sh.entry == Mine)
  }

  lemma RunGrows(o: Origin, sh: Shared, h: History, t: Tid, pc: Pc)
    ensures Grows(sh, RunPc(o, sh, h, t, pc).sh)
  {
    if pc.Record? {
      RecordLines(o, sh, h, t, pc.phase, pc.status, pc.after);
      RecordTurns(o, sh, h, t, pc.phase, pc.status, pc.after);
    } else {
      OtherStepOf(o, sh, h, t, pc);
    }
  }

  lemma GlobalMarks(order: seq<Mark>, sh: Shared, sh': Shared, m: Option<Mark>)
    requires (Recorded in order <==> sh.log != []) && (Went in order <==> sh.entry != Mine) && Grows(sh, sh')
    requires m == Some(Recorded) <==> |sh'.log| > |sh.log|
    requires m == Some(Went) <==> sh.entry == Mine && sh'.entry != Mine
    ensures (Recorded in order + Listed(m) <==> sh'.log != []) && (Went in order + Listed(m) <==> sh'.entry != Mine)
  {
  }

  lemma StillUnmarked(order: seq<Mark>, m: Option<Mark>, u: Tid)
    requires Unmarked(order, u) && (m.Some? ==> !About(m.value, u))
    ensures Unmarked(order + Listed(m), u)
  {
  }

  /** One goroutine moves, and the order gains at most one mark, about nobody else. */
  lemma OrderedMove(s: State, s': State, t: Tid, order: seq<Mark>, m: Option<Mark>)
    requires Ordered(s, order) && t in s'.threads && s'.threads == s.threads[t := s'.threads[t]]
    requires (Recorded in order + Listed(m) <==> s'.sh.log != [])
    requires (Went in order + Listed(m) <==> s'.sh.entry != Mine)
    requires PassKept(order + Listed(m), s'.h.straddlers, t, s'.threads[t])
    requires forall u :: u != t ==> (u in s'.h.straddlers <==> u in s.h.straddlers)
    requires m.Some? ==> forall u :: u != t ==> !About(m.value, u)
    ensures Ordered(s', order + Listed(m))
  {
    forall u | u !in s'.threads
      ensures Unmarked(order + Listed(m), u) && u !in s'.h.straddlers
    {
      StillUnmarked(order, m, u);
    }
    forall u | u in s'.threads
      ensures PassKept(order + Listed(m), s'.h.straddlers, u, s'.threads[u])
    {
      if u != t {
        OthersPassKept(order, s.h.straddlers, u, s.threads[u], m, s'.h.straddlers);
      }
    }
  }

  lemma MarkOfRunIs(s: State, t: Tid)
    requires Enabled(s, Run(t))
    ensures MarkOf(s, Run(t)) == MarkOfRun(s.sh, t, s.threads[t], RunPc(s.origin, s.sh, s.h, t, s.threads[t]))
  {
  }

  lemma RunOrdered(s: State, t: Tid, order: seq<Mark>)
    requires Ordered(s, order) && Enabled(s, Run(t))
    ensures Ordered(After1(s, t), order + Listed(MarkOf(s, Run(t))))
  {
    var pc := s.threads[t];
    var x := RunPc(s.origin, s.sh, s.h, t, pc);
    var m := MarkOfRun(s.sh, t, pc, x);
    MarkOfRunIs(s, t);
    RunGrows(s.origin, s.sh, s.h, t, pc);
    GlobalMarks(order, s.sh, x.sh, m);
    if pc.Rec? {
      PassRuns(order, s.sh, s.h, t, pc.r);
    } else {
      NoPassRuns(s.origin, s.sh, s.h, t, pc);
      OthersPassKept(order, s.h.straddlers, t, x.pc, m, x.h.straddlers);
    }
    OrderedMove(s, After1(s, t), t, order, m);
  }

  lemma ArrivalOrdered(s: State, t: Tid, pc: Pc, order: seq<Mark>)
    requires Ordered(s, order) && t !in s.threads && (pc.Rec? ==> pc.r.RecRead?)
    ensures Ordered(s.(threads := s.threads[t := pc]), order + Listed(None))
  {
    UnmarkedIsNothing(order, t);
    assert order + [] == order;
    OrderedMove(s, s.(threads := s.threads[t := pc]), t, order, None);
  }

  lemma AlternativeOrdered(s: State, t: Tid, order: seq<Mark>)
    requires Ordered(s, order) && Enabled(s, Alternative(t))
    ensures Ordered(Apply(s, Alternative(t)), order + Listed(MarkOf(s, Alternative(t))))
  {
    var pc, m := s.threads[t], MarkOf(s, Alternative(t));
    if m.Some? {
      OneMoreMark(order, m.value, t);
    } else {
      assert order + [] == order;
    }
    OrderedMove(s, Apply(s, Alternative(t)), t, order, m);
  }

  lemma OutcomeOrdered(s: State, status: Status, order: seq<Mark>)
    requires Ordered(s, order) && Enabled(s, Outcome(status))
    ensures Ordered(Apply(s, Outcome(status)), order + Listed(MarkOf(s, Outcome(status))))
  {
    assert order + [] == order;
    OrderedMove(s, Apply(s, Outcome(status)), EXIT, order, None);
  }

  /** The environment's steps leave the goroutines where they are. */
  lemma EnvironmentOrdered(s: State, st: Step, order: seq<Mark>)
    requires Ordered(s, order) && Enabled(s, st) && EXIT in s.threads
    requires !st.Run? && !st.Cancel? && !st.Recover? && !st.Alternative? && !st.Outcome?
    ensures Ordered(Apply(s, st), order + Listed(MarkOf(s, st)))
  {
    var m := MarkOf(s, st);
    GlobalMarks(order, s.sh, Apply(s, st).sh, m);
    OthersPassKept(order, s.h.straddlers, EXIT, s.threads[EXIT], m, s.h.straddlers);
    assert s.threads[EXIT := s.threads[EXIT]] == s.threads;
    OrderedMove(s, Apply(s, st), EXIT, order, m);
  }

  lemma StepOrdered(s: State, st: Step, order: seq<Mark>)
    requires Ordered(s, order) && Enabled(s, st) && EXIT in s.threads
    ensures Ordered(Apply(s, st), order + Listed(MarkOf(s, st))) && EXIT in Apply(s, st).threads
  {
    match st
    case Run(t) => RunOrdered(s, t, order);
    case Cancel(t) => ArrivalOrdered(s, t, Canc(CancelLookup), order);
    case Recover(t, skipTracked, verdict) => ArrivalOrdered(s, t, Rec(RecRead(skipTracked, verdict)), order);
    case Alternative(t) => AlternativeOrdered(s, t, order);
    case Outcome(status) => OutcomeOrdered(s, status, order);
    case _ => EnvironmentOrdered(s, st, order);
  }

  lemma {:induction false} RunsOrdered(s: State, steps: seq<Step>, order: seq<Mark>)
    requires Ordered(s, order) && Schedule(s, steps) && EXIT in s.threads
    ensures Ordered(Final(s, steps), order + Marks(s, steps))
    decreases |steps|
  {
    if steps == [] {
      assert order + [] == order;
    } else {
      StepOrdered(s, steps[0], order);
      RunsOrdered(Apply(s, steps[0]), steps[1..], order + Listed(MarkOf(s, steps[0])));
      OneMoreStep(s, steps, order);
    }
  }

  lemma OneMoreStep(s: State, steps: seq<Step>, order: seq<Mark>)
    requires steps != [] && Schedule(s, steps)
    ensures var s', m := Apply(s, steps[0]), Listed(MarkOf(s, steps[0]));
            && Final(s, steps) == Final(s', steps[1..])
            && order + Marks(s, steps) == order + m + Marks(s', steps[1..])
  {
  }

  // ---------------------------------------------------------------- the law

  /** Once every participant is done, whoever started the run: a pass has straddled the end
      exactly when it read the log before the first record, asked for the entry after that
      had gone or not at all, and did not take the process for alive. */
  lemma StraddlersByOrder(origin: Origin, steps: seq<Step>)
    requires Schedule(Init(origin), steps) && AllGone(Final(Init(origin), steps))
    ensures forall t :: t in Final(Init(origin), steps).h.straddlers <==> Straddled(Marks(Init(origin), steps), t)
  {
    var s, order := Final(Init(origin), steps), Marks(Init(origin), steps);
    OrderedInit(origin);
    RunsOrdered(Init(origin), steps, []);
    assert [] + order == order;
    forall t
      ensures t in s.h.straddlers <==> Straddled(order, t)
    {
      if t !in s.threads {
        UnmarkedIsNothing(order, t);
      }
    }
  }

  /** So a launched run has exactly one record if and only if every pass that read the log
      before the first record asked for the entry, and before the entry had gone, or took the
      process for alive. */
  lemma OneRecordByOrder(origin: Origin, steps: seq<Step>)
    requires origin != Adopted && Schedule(Init(origin), steps) && AllGone(Final(Init(origin), steps))
    ensures |Final(Init(origin), steps).sh.log| == 1 <==> NoneStraddled(Marks(Init(origin), steps))
  {
    var s := Final(Init(origin), steps);
    assert Reachable(s, origin);
    LaunchedRunEndsOnce(s, origin);
    StraddlersByOrder(origin, steps);
    NoStraddlers(s.h.straddlers, Marks(Init(origin), steps));
  }

  lemma NoStraddlers(straddlers: set<Tid>, order: seq<Mark>)
    requires forall t :: t in straddlers <==> Straddled(order, t)
    ensures straddlers == {} <==> NoneStraddled(order)
  {
    if straddlers != {} {
      var t :| t in straddlers;
      assert Straddled(order, t);
    }
  }
}
