/** Runs of RunLifecycle that end badly: each law there has a condition, and here is what
    happens without it. */
module RunRaces {
  import opened Wrappers
  import opened RunLifecycle

  ghost predicate Leads(s: State, s': State) {
    exists steps :: Schedule(s, steps) && Final(s, steps) == s'
  }

  lemma {:induction false} ScheduleSnoc(s: State, steps: seq<Step>, st: Step)
    requires Schedule(s, steps) && Enabled(Final(s, steps), st)
    ensures Schedule(s, steps + [st]) && Final(s, steps + [st]) == Apply(Final(s, steps), st)
    decreases |steps|
  {
    if steps == [] {
      assert steps + [st] == [st];
    } else {
      ScheduleSnoc(Apply(s, steps[0]), steps[1..], st);
      assert (steps + [st])[1..] == steps[1..] + [st];
    }
  }

  lemma Then(s: State, mid: State, st: Step, s': State)
    requires Leads(s, mid) && Enabled(mid, st) && Apply(mid, st) == s'
    ensures Leads(s, s')
  {
    var steps :| Schedule(s, steps) && Final(s, steps) == mid;
    ScheduleSnoc(s, steps, st);
  }

  /** Goroutine `t` is at `pc`, the others as in `rest`. */
  function At(o: Origin, rest: map<Tid, Pc>, t: Tid, x: Effect): State { State(o, x.sh, rest[t := x.pc], x.h) }

  /** `n` steps of goroutine `t`, with nobody in between. */
  function Walk(o: Origin, t: Tid, x: Effect, n: nat): Effect
    decreases n
  {
    if n == 0 then x else Walk(o, t, RunPc(o, x.sh, x.h, t, x.pc), n - 1)
  }

  predicate CanWalk(o: Origin, t: Tid, x: Effect, n: nat)
    decreases n
  {
    n == 0 || (CanRun(x.sh, x.pc) && CanWalk(o, t, RunPc(o, x.sh, x.h, t, x.pc), n - 1))
  }

  lemma {:induction false} Walks(s: State, o: Origin, rest: map<Tid, Pc>, t: Tid, x: Effect, n: nat)
    requires Leads(s, At(o, rest, t, x)) && CanWalk(o, t, x, n)
    ensures Leads(s, At(o, rest, t, Walk(o, t, x, n)))
    decreases n
  {
    if n > 0 {
      var next := RunPc(o, x.sh, x.h, t, x.pc);
      assert rest[t := x.pc][t := next.pc] == rest[t := next.pc];
      Then(s, At(o, rest, t, x), Run(t), At(o, rest, t, next));
      Walks(s, o, rest, t, next, n - 1);
    }
  }

  /** One step of it. */
  lemma Go(s: State, o: Origin, rest: map<Tid, Pc>, t: Tid, x: Effect) returns (next: Effect)
    requires Leads(s, At(o, rest, t, x)) && CanRun(x.sh, x.pc)
    ensures next == RunPc(o, x.sh, x.h, t, x.pc) && Leads(s, At(o, rest, t, next))
  {
    next := RunPc(o, x.sh, x.h, t, x.pc);
    assert rest[t := x.pc][t := next.pc] == rest[t := next.pc];
    Then(s, At(o, rest, t, x), Run(t), At(o, rest, t, next));
  }

  lemma Starts(o: Origin)
    ensures Leads(Init(o), Init(o))
  {
    assert Schedule(Init(o), []) && Final(Init(o), []) == Init(o);
  }

  // ---------------------------------------------------------------- a direct run

  function Began(): Shared { Init(Direct).sh.(agentStatus := Running) }
  function BeganHistory(): History { NoHistory().(late := Some(Running)) }

  /** The agent is running, and nobody else is there. */
  lemma DirectBegins()
    ensures Leads(Init(Direct), At(Direct, map[], EXIT, Effect(Began(), Exit(ExitRunning), BeganHistory())))
  {
    Starts(Direct);
    var x := Effect(Init(Direct).sh, Exit(ExitStart), NoHistory());
    assert At(Direct, map[], EXIT, x) == Init(Direct);
    assert CanWalk(Direct, EXIT, x, 3);
    Walks(Init(Direct), Direct, map[], EXIT, x, 3);
    assert Walk(Direct, EXIT, x, 3) == Effect(Began(), Exit(ExitRunning), BeganHistory());
  }

  /** It exits with `status` and is on its way into the terminal body. */
  lemma DirectExits(rest: map<Tid, Pc>, sh: Shared, h: History, status: Status)
    requires Leads(Init(Direct), At(Direct, rest, EXIT, Effect(sh, Exit(ExitRunning), h)))
    requires (status == Success || status == Failed) && !sh.cancelled && sh.once == Fresh
    ensures Leads(Init(Direct), At(Direct, rest, EXIT,
                Effect(sh.(alive := false, once := Busy(EXIT)), Record(Append, status, AfterExit),
                       h.(saw := SawRunning, bodies := h.bodies + 1))))
  {
    var x := Effect(sh.(alive := false), Exit(ExitCheck(status)), h);
    assert rest[EXIT := Exit(ExitRunning)][EXIT := Exit(ExitCheck(status))] == rest[EXIT := Exit(ExitCheck(status))];
    Then(Init(Direct), At(Direct, rest, EXIT, Effect(sh, Exit(ExitRunning), h)), Outcome(status),
         At(Direct, rest, EXIT, x));
    var x1 := Go(Init(Direct), Direct, rest, EXIT, x);
    var x2 := Go(Init(Direct), Direct, rest, EXIT, x1);
  }

  function Settled(sh: Shared, status: Status): Shared {
    var w := Carved(Glance(sh.agentStatus, sh.handoff), status);
    sh.(log := sh.log + [Line(Body, status)], agentStatus := if w.Put? then w.status else sh.agentStatus)
  }

  function SettledHistory(sh: Shared, h: History, status: Status): History {
    h.(record := Some(status), look := Some(Glance(sh.agentStatus, sh.handoff)), late := None)
  }

  /** The body up to AgentStatus, undisturbed. */
  lemma DirectSettles(rest: map<Tid, Pc>, sh: Shared, h: History, status: Status)
    requires Leads(Init(Direct), At(Direct, rest, EXIT, Effect(sh, Record(Append, status, AfterExit), h)))
    ensures Leads(Init(Direct), At(Direct, rest, EXIT,
              Effect(Settled(sh, status), Record(Delete, status, AfterExit), SettledHistory(sh, h, status))))
  {
    var x1 := Go(Init(Direct), Direct, rest, EXIT, Effect(sh, Record(Append, status, AfterExit), h));
    var x2 := Go(Init(Direct), Direct, rest, EXIT, x1);
    var x3 := Go(Init(Direct), Direct, rest, EXIT, x2);
    Settling(sh, h, status, x1, x2, x3);
  }

  lemma Settling(sh: Shared, h: History, status: Status, x1: Effect, x2: Effect, x3: Effect)
    requires x1 == RunRecord(Direct, sh, h, EXIT, Append, status, AfterExit)
    requires x1.pc.Record? && x2 == RunRecord(Direct, x1.sh, x1.h, EXIT, x1.pc.phase, x1.pc.status, x1.pc.after)
    requires x2.pc.Record? && x3 == RunRecord(Direct, x2.sh, x2.h, EXIT, x2.pc.phase, x2.pc.status, x2.pc.after)
    ensures x3 == Effect(Settled(sh, status), Record(Delete, status, AfterExit), SettledHistory(sh, h, status))
  {
    assert x1.sh.agentStatus == sh.agentStatus && x1.sh.handoff == sh.handoff;
  }

  /** The rest of it, and of the run. */
  lemma DirectEnds(rest: map<Tid, Pc>, sh: Shared, h: History, status: Status)
    requires Leads(Init(Direct), At(Direct, rest, EXIT, Effect(sh, Record(Delete, status, AfterExit), h)))
    ensures Leads(Init(Direct), At(Direct, rest, EXIT,
              Effect(sh.(entry := Vacant, once := Closed, doneClosed := true), Gone,
                     h.(evictions := h.evictions + if sh.entry == Other then 1 else 0,
                        trail := h.trail + [Deleted], releases := h.releases + 1))))
  {
    var x1 := Go(Init(Direct), Direct, rest, EXIT, Effect(sh, Record(Delete, status, AfterExit), h));
    var x2 := Go(Init(Direct), Direct, rest, EXIT, x1);
    var x3 := Go(Init(Direct), Direct, rest, EXIT, x2);
    var x4 := Go(Init(Direct), Direct, rest, EXIT, x3);
  }

  lemma DirectRecords(rest: map<Tid, Pc>, sh: Shared, h: History, status: Status)
    requires Leads(Init(Direct), At(Direct, rest, EXIT, Effect(sh, Record(Append, status, AfterExit), h)))
    ensures Leads(Init(Direct), At(Direct, rest, EXIT,
              Effect(Settled(sh, status).(entry := Vacant, once := Closed, doneClosed := true), Gone,
                     SettledHistory(sh, h, status).(evictions := h.evictions + if sh.entry == Other then 1 else 0,
                        trail := h.trail + [Deleted], releases := h.releases + 1))))
  {
    DirectSettles(rest, sh, h, status);
    DirectEnds(rest, Settled(sh, status), SettledHistory(sh, h, status), status);
  }

  /** The agent has asked for the user and exits: the record says success, AgentStatus stays. */
  lemma NeedsUserIsKept()
    ensures exists s :: Reachable(s, Direct) && AllGone(s)
                        && s.h.record == Some(Success) && s.sh.agentStatus == NeedsUser && s.h.late.None?
  {
    DirectBegins();
    var sh, h := Began().(agentStatus := NeedsUser), BeganHistory().(late := Some(NeedsUser));
    Then(Init(Direct), At(Direct, map[], EXIT, Effect(Began(), Exit(ExitRunning), BeganHistory())), AskUser,
         At(Direct, map[], EXIT, Effect(sh, Exit(ExitRunning), h)));
    DirectExits(map[], sh, h, Success);
    DirectRecords(map[], sh.(alive := false, once := Busy(EXIT)), h.(saw := SawRunning, bodies := 1), Success);
  }

  /** A successful review has sent the task back: the record says success, AgentStatus is
      cleared. */
  lemma HandoffIsCleared()
    ensures exists s :: Reachable(s, Direct) && AllGone(s)
                        && s.h.record == Some(Success) && s.sh.agentStatus == Blank && s.h.late.None?
  {
    DirectBegins();
    var sh, h := Began().(handoff := true), BeganHistory();
    Then(Init(Direct), At(Direct, map[], EXIT, Effect(Began(), Exit(ExitRunning), BeganHistory())), FailReview,
         At(Direct, map[], EXIT, Effect(sh, Exit(ExitRunning), h)));
    DirectExits(map[], sh, h, Success);
    DirectRecords(map[], sh.(alive := false, once := Busy(EXIT)), h.(saw := SawRunning, bodies := 1), Success);
  }

  /** An older run's body deletes this run's entry, a third run registers, and this launched
      run's own end deletes that one's. */
  lemma LaunchedEndCanEvict()
    ensures exists s :: Reachable(s, Direct) && AllGone(s)
                        && s.h.evictions == 1 && s.h.trail == [Evicted, Registered, Deleted]
  {
    EntryChanges();
    var sh, h := Began().(entry := Other), BeganHistory().(trail := [Evicted, Registered]);
    DirectExits(map[], sh, h, Success);
    DirectRecords(map[], sh.(alive := false, once := Busy(EXIT)), h.(saw := SawRunning, bodies := 1), Success);
    assert h.trail + [Deleted] == [Evicted, Registered, Deleted];
  }

  /** While the agent runs, its entry goes and another run's comes. */
  lemma EntryChanges()
    ensures Leads(Init(Direct), At(Direct, map[], EXIT,
              Effect(Began().(entry := Other), Exit(ExitRunning), BeganHistory().(trail := [Evicted, Registered]))))
  {
    DirectBegins();
    var s0 := Init(Direct);
    var sh1, h1 := Began().(entry := Vacant), BeganHistory().(trail := [Evicted]);
    assert [] + [Evicted] == [Evicted] && [Evicted] + [Registered] == [Evicted, Registered];
    Then(s0, At(Direct, map[], EXIT, Effect(Began(), Exit(ExitRunning), BeganHistory())), Evict,
         At(Direct, map[], EXIT, Effect(sh1, Exit(ExitRunning), h1)));
    Then(s0, At(Direct, map[], EXIT, Effect(sh1, Exit(ExitRunning), h1)), OtherStarts,
         At(Direct, map[], EXIT, Effect(sh1.(entry := Other), Exit(ExitRunning), h1.(trail := [Evicted, Registered]))));
  }

  /** A periodic recovery pass reads the log before the body's append, and asks for the entry
      after the body's delete: the run has a second record, and AgentStatus repeats that. */
  lemma RecoveryCanAddARecord()
    ensures exists s :: Reachable(s, Direct) && AllGone(s) && !s.h.blind
                        && s.sh.log == [Line(Body, Success), Line(Recovery, Lost)] && s.sh.agentStatus == Lost
  {
    PassReads();
    var rest, x := map[2 := Rec(RecLook(Lost))], Effect(Began(), Exit(ExitRunning), BeganHistory());
    DirectExits(rest, x.sh, x.h, Success);
    var sh, h := x.sh.(alive := false, once := Busy(EXIT)), x.h.(saw := SawRunning, bodies := 1);
    DirectRecords(rest, sh, h, Success);
    PassFinishes(sh.(log := sh.log + [Line(Body, Success)], agentStatus := Success, entry := Vacant, once := Closed,
                     doneClosed := true),
                 h.(record := Some(Success), look := Some(Glance(Running, false)), late := None,
                    trail := h.trail + [Deleted], releases := 1));
  }

  /** While the agent runs, a pass reads a log without a record. */
  lemma PassReads()
    ensures Leads(Init(Direct),
                  At(Direct, map[2 := Rec(RecLook(Lost))], EXIT, Effect(Began(), Exit(ExitRunning), BeganHistory())))
  {
    var s0, p, x := Init(Direct), RecRead(true, Lost), Effect(Began(), Exit(ExitRunning), BeganHistory());
    DirectBegins();
    Then(s0, At(Direct, map[], EXIT, x), Recover(2, true, Lost), At(Direct, map[2 := Rec(p)], EXIT, x));
    var rest := map[2 := Rec(RecLook(Lost))];
    assert map[2 := Rec(p)][EXIT := x.pc][2 := Rec(RecLook(Lost))] == rest[EXIT := x.pc];
    Then(s0, At(Direct, map[2 := Rec(p)], EXIT, x), Run(2), At(Direct, rest, EXIT, x));
  }

  lemma PassFinishes(sh: Shared, h: History)
    requires sh.entry == Vacant && !sh.alive && sh.log == [Line(Body, Success)] && !h.blind
    requires Leads(Init(Direct), At(Direct, map[2 := Rec(RecLook(Lost))], EXIT, Effect(sh, Gone, h)))
    ensures exists s :: Reachable(s, Direct) && AllGone(s) && !s.h.blind
                        && s.sh.log == [Line(Body, Success), Line(Recovery, Lost)] && s.sh.agentStatus == Lost
  {
    var x := Effect(sh, Rec(RecLook(Lost)), h);
    assert map[2 := Rec(RecLook(Lost))][EXIT := Gone] == map[EXIT := Gone][2 := Rec(RecLook(Lost))];
    assert At(Direct, map[EXIT := Gone], 2, x) == At(Direct, map[2 := Rec(RecLook(Lost))], EXIT, Effect(sh, Gone, h));
    var x1 := Go(Init(Direct), Direct, map[EXIT := Gone], 2, x);
    var x2 := Go(Init(Direct), Direct, map[EXIT := Gone], 2, x1);
    var x3 := Go(Init(Direct), Direct, map[EXIT := Gone], 2, x2);
    var x4 := Go(Init(Direct), Direct, map[EXIT := Gone], 2, x3);
    var end := At(Direct, map[EXIT := Gone], 2, x4);
    assert end.sh.log == [Line(Body, Success), Line(Recovery, Lost)];
    assert Reachable(end, Direct) && AllGone(end);
  }

  // ---------------------------------------------------------------- an adopted run and one canceller

  function Marked(): Shared { Init(Adopted).sh.(cancelled := true, doneClosed := true) }

  /** CancelRun finds the run, marks it, outwaits the grace and closes Done; the monitor
      meanwhile stays at `m`. */
  lemma CancelMarks(m: MonitorPc)
    requires Leads(Init(Adopted),
                   At(Adopted, map[EXIT := Mon(m)], 2, Effect(Init(Adopted).sh, Canc(CancelLookup), NoHistory())))
    ensures Leads(Init(Adopted),
                  At(Adopted, map[EXIT := Mon(m)], 2,
                     Effect(Marked(), Record(Enter, Cancelled, AfterCancel), NoHistory())))
  {
    var rest, x := map[EXIT := Mon(m)], Effect(Init(Adopted).sh, Canc(CancelLookup), NoHistory());
    assert CanWalk(Adopted, 2, x, 3);
    Walks(Init(Adopted), Adopted, rest, 2, x, 3);
    var marked := Init(Adopted).sh.(cancelled := true);
    assert Walk(Adopted, 2, x, 3) == Effect(marked, Canc(CancelGrace), NoHistory());
    var y := Effect(marked, Canc(CancelHard), NoHistory());
    assert rest[2 := Canc(CancelGrace)][2 := Canc(CancelHard)] == rest[2 := Canc(CancelHard)];
    Then(Init(Adopted), At(Adopted, rest, 2, Effect(marked, Canc(CancelGrace), NoHistory())), Alternative(2),
         At(Adopted, rest, 2, y));
    assert CanWalk(Adopted, 2, y, 2);
    Walks(Init(Adopted), Adopted, rest, 2, y, 2);
  }

  function Recorded(): Shared { Marked().(once := Busy(2), log := [Line(Body, Cancelled)], agentStatus := Cancelled) }

  function RecordedHistory(): History {
    NoHistory().(bodies := 1, record := Some(Cancelled), look := Some(Glance(Running, false)))
  }

  /** It writes its record and AgentStatus, and has yet to delete the entry. */
  lemma CancelRecords(m: MonitorPc)
    requires Leads(Init(Adopted),
                   At(Adopted, map[EXIT := Mon(m)], 2, Effect(Init(Adopted).sh, Canc(CancelLookup), NoHistory())))
    ensures Leads(Init(Adopted),
                  At(Adopted, map[EXIT := Mon(m)], 2,
                     Effect(Recorded(), Record(Delete, Cancelled, AfterCancel), RecordedHistory())))
  {
    CancelMarks(m);
    var x := Effect(Marked(), Record(Enter, Cancelled, AfterCancel), NoHistory());
    assert CanWalk(Adopted, 2, x, 4);
    Walks(Init(Adopted), Adopted, map[EXIT := Mon(m)], 2, x, 4);
    assert [] + [Line(Body, Cancelled)] == [Line(Body, Cancelled)];
    assert Walk(Adopted, 2, x, 4) == Effect(Recorded(), Record(Delete, Cancelled, AfterCancel), RecordedHistory());
  }

  lemma CancelCalled()
    ensures forall m :: m == MonPoll || m == MonProbe ==>
              Leads(Init(Adopted),
                    At(Adopted, map[EXIT := Mon(m)], 2, Effect(Init(Adopted).sh, Canc(CancelLookup), NoHistory())))
  {
    var s := Init(Adopted);
    Starts(Adopted);
    var called := At(Adopted, map[EXIT := Mon(MonPoll)], 2, Effect(s.sh, Canc(CancelLookup), NoHistory()));
    Then(s, s, Cancel(2), called);
    assert map[EXIT := Mon(MonPoll)][2 := Canc(CancelLookup)][EXIT := Mon(MonProbe)]
        == map[EXIT := Mon(MonProbe)][2 := Canc(CancelLookup)];
    Then(s, called, Run(EXIT),
         At(Adopted, map[EXIT := Mon(MonProbe)], 2, Effect(s.sh, Canc(CancelLookup), NoHistory())));
  }

  function Finished(): Shared { Recorded().(once := Closed, entry := Vacant, alive := false) }

  function FinishedHistory(): History { RecordedHistory().(trail := [Deleted]) }

  lemma CancelFinishes()
    requires Leads(Init(Adopted),
                   At(Adopted, map[EXIT := Mon(MonProbe)], 2,
                      Effect(Recorded(), Record(Delete, Cancelled, AfterCancel), RecordedHistory())))
    ensures Leads(Init(Adopted),
                  At(Adopted, map[2 := Gone], EXIT, Effect(Finished(), Mon(MonProbe), FinishedHistory())))
  {
    var x := Effect(Recorded(), Record(Delete, Cancelled, AfterCancel), RecordedHistory());
    assert CanWalk(Adopted, 2, x, 3);
    Walks(Init(Adopted), Adopted, map[EXIT := Mon(MonProbe)], 2, x, 3);
    assert [] + [Deleted] == [Deleted];
    var y := Effect(Finished().(alive := true), Gone, FinishedHistory());
    assert Walk(Adopted, 2, x, 3) == y;
    assert map[EXIT := Mon(MonProbe)][2 := Gone] == map[2 := Gone][EXIT := Mon(MonProbe)];
    Then(Init(Adopted), At(Adopted, map[EXIT := Mon(MonProbe)], 2, y), Die,
         At(Adopted, map[2 := Gone], EXIT, Effect(Finished(), Mon(MonProbe), FinishedHistory())));
  }

  /** The monitor reads a log without a record, CancelRun then writes `cancelled` and
      removes the entry, and the monitor, finding the process dead and no entry, appends
      `lost`: the task ends as lost although the user cancelled it. */
  lemma MonitorCanOverwriteACancel()
    ensures exists s :: Reachable(s, Adopted) && AllGone(s)
                        && s.sh.log == [Line(Body, Cancelled), Line(Monitor, Lost)] && s.sh.agentStatus == Lost
  {
    CancelCalled();
    CancelRecords(MonProbe);
    CancelFinishes();
    MonitorOverwrites(Effect(Finished(), Mon(MonProbe), FinishedHistory()));
  }

  lemma MonitorOverwrites(x: Effect)
    requires x == Effect(Finished(), Mon(MonProbe), FinishedHistory())
    requires Leads(Init(Adopted), At(Adopted, map[2 := Gone], EXIT, x))
    ensures exists s :: Reachable(s, Adopted) && AllGone(s)
                        && s.sh.log == [Line(Body, Cancelled), Line(Monitor, Lost)] && s.sh.agentStatus == Lost
  {
    assert CanWalk(Adopted, EXIT, x, 4);
    Walks(Init(Adopted), Adopted, map[2 := Gone], EXIT, x, 4);
    var end := At(Adopted, map[2 := Gone], EXIT, Walk(Adopted, EXIT, x, 4));
    assert end.sh.log == [Line(Body, Cancelled), Line(Monitor, Lost)];
    assert Reachable(end, Adopted) && AllGone(end);
  }

  /** The delete by task id can evict a newer run: the monitor sees the canceller's record
      and removes the entry, a new run takes the task, and only then does the canceller's
      body reach its delete. */
  lemma CancelCanEvictANewerRun()
    ensures exists s :: Reachable(s, Adopted) && s.h.evictions == 1 && s.h.trail == [Removed, Registered, Deleted]
  {
    var c := Record(Delete, Cancelled, AfterCancel);
    CancelCalled();
    CancelRecords(MonPoll);
    assert map[EXIT := Mon(MonPoll)][2 := c] == map[2 := c][EXIT := Mon(MonPoll)];
    MonitorLeaves(c, Effect(Recorded(), Mon(MonPoll), RecordedHistory()));
    TakenOver(RecordedHistory().(trail := [Removed], late := Some(Cancelled)));
  }

  lemma MonitorLeaves(c: Pc, x: Effect)
    requires x == Effect(Recorded(), Mon(MonPoll), RecordedHistory())
    requires Leads(Init(Adopted), At(Adopted, map[2 := c], EXIT, x))
    ensures Leads(Init(Adopted), At(Adopted, map[2 := c], EXIT,
              Effect(Recorded().(entry := Vacant), Gone,
                     RecordedHistory().(trail := [Removed], late := Some(Cancelled)))))
  {
    assert CanWalk(Adopted, EXIT, x, 5);
    Walks(Init(Adopted), Adopted, map[2 := c], EXIT, x, 5);
    MonitorReleases(x);
  }

  lemma MonitorReleases(x: Effect)
    requires x == Effect(Recorded(), Mon(MonPoll), RecordedHistory())
    ensures Walk(Adopted, EXIT, x, 5)
            == Effect(Recorded().(entry := Vacant), Gone,
                      RecordedHistory().(trail := [Removed], late := Some(Cancelled)))
  {
    assert [] + [Removed] == [Removed];
  }

  lemma TakenOver(h: History)
    requires h == RecordedHistory().(trail := [Removed], late := Some(Cancelled))
    requires Leads(Init(Adopted),
                   At(Adopted, map[2 := Record(Delete, Cancelled, AfterCancel)], EXIT,
                      Effect(Recorded().(entry := Vacant), Gone, h)))
    ensures exists s :: Reachable(s, Adopted) && s.h.evictions == 1 && s.h.trail == [Removed, Registered, Deleted]
  {
    var s, c := Init(Adopted), Record(Delete, Cancelled, AfterCancel);
    assert [Removed] + [Registered] == [Removed, Registered];
    var taken := At(Adopted, map[2 := c], EXIT,
                    Effect(Recorded().(entry := Other), Gone, h.(trail := [Removed, Registered])));
    Then(s, At(Adopted, map[2 := c], EXIT, Effect(Recorded().(entry := Vacant), Gone, h)), OtherStarts, taken);
    var end := Apply(taken, Run(2));
    Then(s, taken, Run(2), end);
    assert end.h.trail == [Removed, Registered, Deleted];
    assert Reachable(end, Adopted);
  }
}
