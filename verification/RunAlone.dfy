/** What each participant of a run does when no other moves: from its first step to its last, in
    the log, AgentStatus and the entry (gui/app/agent_run.go, agent_cancel.go,
    agent_recovery.go). */
module RunAlone {
  import opened Wrappers
  import opened RunLifecycle
  import opened AgentRuns

  /** `n` steps in a row, each of which may be taken. */
  predicate Goes<E(==)>(next: E -> E, can: E -> bool, x: E, n: nat, y: E)
    decreases n
  {
    if n == 0 then x == y else can(x) && Goes(next, can, next(x), n - 1, y)
  }

  lemma {:induction false} GoesOn<E>(next: E -> E, can: E -> bool, x: E, n: nat, y: E, m: nat, z: E)
    requires Goes(next, can, x, n, y) && Goes(next, can, y, m, z)
    ensures Goes(next, can, x, n + m, z)
    decreases n
  {
    if n > 0 {
      GoesOn(next, can, next(x), n - 1, y, m, z);
    }
  }

  /** A step of goroutine `t`, and that it does not have to wait. */
  function Moves(o: Origin, t: Tid): Effect -> Effect { (x: Effect) => RunPc(o, x.sh, x.h, t, x.pc) }

  function Ready(): Effect -> bool { (x: Effect) => CanRun(x.sh, x.pc) }

  ghost predicate Reaches(o: Origin, x: Effect, t: Tid, sh: Shared, pc: Pc) {
    exists n: nat, h :: Goes(Moves(o, t), Ready(), x, n, Effect(sh, pc, h))
  }

  /** The goroutine comes from `pc` to `pc'` without waiting, leaving that. */
  ghost predicate Leads(o: Origin, sh: Shared, t: Tid, pc: Pc, sh': Shared, pc': Pc) {
    forall h :: Reaches(o, Effect(sh, pc, h), t, sh', pc')
  }

  lemma OneStep(o: Origin, sh: Shared, t: Tid, pc: Pc, sh': Shared, pc': Pc)
    requires CanRun(sh, pc) && forall h :: RunPc(o, sh, h, t, pc).sh == sh' && RunPc(o, sh, h, t, pc).pc == pc'
    ensures Leads(o, sh, t, pc, sh', pc')
  {
    forall h
      ensures Reaches(o, Effect(sh, pc, h), t, sh', pc')
    {
      var y := RunPc(o, sh, h, t, pc);
      assert Moves(o, t)(Effect(sh, pc, h)) == y && Ready()(Effect(sh, pc, h));
      assert Goes(Moves(o, t), Ready(), y, 0, Effect(sh', pc', y.h));
      assert Goes(Moves(o, t), Ready(), Effect(sh, pc, h), 1, Effect(sh', pc', y.h));
    }
  }

  lemma Then(o: Origin, t: Tid, sh: Shared, pc: Pc, sh': Shared, pc': Pc, sh'': Shared, pc'': Pc)
    requires Leads(o, sh, t, pc, sh', pc') && Leads(o, sh', t, pc', sh'', pc'')
    ensures Leads(o, sh, t, pc, sh'', pc'')
  {
    forall h
      ensures Reaches(o, Effect(sh, pc, h), t, sh'', pc'')
    {
      assert Reaches(o, Effect(sh, pc, h), t, sh', pc');
      var n: nat, h1 :| Goes(Moves(o, t), Ready(), Effect(sh, pc, h), n, Effect(sh', pc', h1));
      assert Reaches(o, Effect(sh', pc', h1), t, sh'', pc'');
      var m: nat, h2 :| Goes(Moves(o, t), Ready(), Effect(sh', pc', h1), m, Effect(sh'', pc'', h2));
      GoesOn(Moves(o, t), Ready(), Effect(sh, pc, h), n, Effect(sh', pc', h1), m, Effect(sh'', pc'', h2));
      assert Goes(Moves(o, t), Ready(), Effect(sh, pc, h), n + m, Effect(sh'', pc'', h2));
    }
  }

  /** A step, and then the rest. */
  lemma First(o: Origin, t: Tid, sh: Shared, pc: Pc, sh': Shared, pc': Pc, sh'': Shared, pc'': Pc)
    requires CanRun(sh, pc) && forall h :: RunPc(o, sh, h, t, pc).sh == sh' && RunPc(o, sh, h, t, pc).pc == pc'
    requires Leads(o, sh', t, pc', sh'', pc'')
    ensures Leads(o, sh, t, pc, sh'', pc'')
  {
    OneStep(o, sh, t, pc, sh', pc');
    Then(o, t, sh, pc, sh', pc', sh'', pc'');
  }

  // ---------------------------------------------------------------- recordTerminal

  /** AgentStatus after a record: needs-user stays when the run exits, and the task of a review that
      sent it back is blank again; anything else is the record's own status. */
  function Settled(sh: Shared, status: Status): Status {
    if (status == Success || status == Failed) && sh.agentStatus == NeedsUser then NeedsUser
    else if status == Success && sh.handoff then Blank
    else status
  }

  /** The record is the last line, and the task has no entry. */
  function Ended(sh: Shared, status: Status): Shared {
    sh.(once := Closed, log := sh.log + [Line(Body, status)], entry := Vacant, agentStatus := Settled(sh, status))
  }

  /** A second record is none. */
  function EndedOnce(sh: Shared, status: Status): Shared { if sh.once == Closed then sh else Ended(sh, status) }

  /** The terminal body writes its record, settles AgentStatus and drops the task's entry, once; a
      later call does nothing. */
  lemma RecordLeads(o: Origin, t: Tid, sh: Shared, status: Status, after: RunLifecycle.After)
    requires !sh.once.Busy?
    ensures Leads(o, sh, t, Record(Enter, status, after), EndedOnce(sh, status), Continue(after))
  {
    if sh.once == Closed {
      OneStep(o, sh, t, Record(Enter, status, after), sh, Continue(after));
    } else {
      var in1, end := sh.(once := Busy(t)), Ended(sh, status);
      BodyAppends(o, t, in1, status, after, end);
      First(o, t, sh, Record(Enter, status, after), in1, Record(Append, status, after), end, Continue(after));
    }
  }

  lemma BodyAppends(o: Origin, t: Tid, sh: Shared, status: Status, after: RunLifecycle.After, end: Shared)
    requires end == Ended(sh, status)
    ensures Leads(o, sh, t, Record(Append, status, after), end, Continue(after))
  {
    var x := sh.(log := sh.log + [Line(Body, status)]);
    BodyLooks(o, t, x, status, after, end);
    First(o, t, sh, Record(Append, status, after), x, Record(Look, status, after), end, Continue(after));
  }

  lemma BodyLooks(o: Origin, t: Tid, sh: Shared, status: Status, after: RunLifecycle.After, end: Shared)
    requires end == sh.(once := Closed, entry := Vacant, agentStatus := Settled(sh, status))
    ensures Leads(o, sh, t, Record(Look, status, after), end, Continue(after))
  {
    var w := Carved(Glance(sh.agentStatus, sh.handoff), status);
    BodyEnds(o, t, sh, status, w, after, end);
    First(o, t, sh, Record(Look, status, after), sh, Record(Edit(w), status, after), end, Continue(after));
  }

  lemma BodyEnds(o: Origin, t: Tid, sh: Shared, status: Status, w: Write, after: RunLifecycle.After, end: Shared)
    requires end == sh.(once := Closed, entry := Vacant, agentStatus := if w.Put? then w.status else sh.agentStatus)
    ensures Leads(o, sh, t, Record(Edit(w), status, after), end, Continue(after))
  {
    var x := sh.(agentStatus := if w.Put? then w.status else sh.agentStatus);
    BodyReleases(o, t, x, status, after, end);
    First(o, t, sh, Record(Edit(w), status, after), x, Record(Delete, status, after), end, Continue(after));
  }

  lemma BodyReleases(o: Origin, t: Tid, sh: Shared, status: Status, after: RunLifecycle.After, end: Shared)
    requires end == sh.(once := Closed, entry := Vacant)
    ensures Leads(o, sh, t, Record(Delete, status, after), end, Continue(after))
  {
    var x := sh.(entry := Vacant);
    OneStep(o, x, t, Record(Finish, status, after), end, Continue(after));
    First(o, t, x, Record(Release, status, after), x, Record(Finish, status, after), end, Continue(after));
    First(o, t, sh, Record(Delete, status, after), x, Record(Release, status, after), end, Continue(after));
  }

  // ---------------------------------------------------------------- the monitor

  /** A monitor that finds a record repeats the last one's status, and releases the run's entry if
      it is still there. */
  lemma MonitorFinds(o: Origin, t: Tid, sh: Shared, read: Status)
    requires sh.log != [] && read == sh.log[|sh.log| - 1].status
    ensures Leads(o, sh, t, Mon(MonPoll),
                  if sh.entry == Mine then sh.(agentStatus := read, doneClosed := true, entry := Vacant)
                  else sh.(agentStatus := read), Gone)
  {
    if sh.entry == Mine {
      var end := sh.(agentStatus := read, doneClosed := true, entry := Vacant);
      MonitorReleases(o, t, sh, read, end);
      First(o, t, sh, Mon(MonPoll), sh, Mon(MonFound(read)), end, Gone);
    } else {
      OneStep(o, sh, t, Mon(MonSync(read)), sh.(agentStatus := read), Gone);
      First(o, t, sh, Mon(MonFound(read)), sh, Mon(MonSync(read)), sh.(agentStatus := read), Gone);
      First(o, t, sh, Mon(MonPoll), sh, Mon(MonFound(read)), sh.(agentStatus := read), Gone);
    }
  }

  lemma MonitorReleases(o: Origin, t: Tid, sh: Shared, read: Status, end: Shared)
    requires sh.entry == Mine && end == sh.(agentStatus := read, doneClosed := true, entry := Vacant)
    ensures Leads(o, sh, t, Mon(MonFound(read)), end, Gone)
  {
    var x := sh.(doneClosed := true);
    OneStep(o, x.(entry := Vacant), t, Mon(MonSync(read)), end, Gone);
    First(o, t, x, Mon(MonFoundRemove(read)), x.(entry := Vacant), Mon(MonSync(read)), end, Gone);
    First(o, t, sh, Mon(MonFoundClose(read)), x, Mon(MonFoundRemove(read)), end, Gone);
    First(o, t, sh, Mon(MonFound(read)), sh, Mon(MonFoundClose(read)), end, Gone);
  }

  /** Without a record it polls on while the process lives. */
  lemma MonitorWaits(o: Origin, t: Tid, sh: Shared, h: History)
    requires sh.log == [] && sh.alive
    ensures RunPc(o, sh, h, t, Mon(MonPoll)) == Effect(sh, Mon(MonProbe), h)
    ensures RunPc(o, sh, h, t, Mon(MonProbe)) == Effect(sh, Mon(MonPoll), h)
  {
  }

  /** When the process is dead it records `lost`: through the terminal body when the run's entry is
      there and nobody has cancelled the run, past it when the entry has gone. A cancelled run it
      leaves to whoever cancelled it. */
  lemma MonitorMourns(o: Origin, t: Tid, sh: Shared)
    requires sh.log == [] && !sh.alive && !sh.once.Busy?
    ensures Leads(o, sh, t, Mon(MonPoll),
                  if sh.entry != Mine then sh.(log := [Line(Monitor, Lost)], agentStatus := Lost)
                  else if sh.cancelled then sh.(doneClosed := true)
                  else EndedOnce(sh.(doneClosed := true), Lost).(entry := Vacant), Gone)
  {
    if sh.entry == Mine {
      MonitorCloses(o, t, sh);
    } else {
      var x := sh.(log := [Line(Monitor, Lost)]);
      var end := x.(agentStatus := Lost);
      OneStep(o, x, t, Mon(MonEditLost), end, Gone);
      First(o, t, sh, Mon(MonAppendLost), x, Mon(MonEditLost), end, Gone);
      First(o, t, sh, Mon(MonGet), sh, Mon(MonAppendLost), end, Gone);
      First(o, t, sh, Mon(MonProbe), sh, Mon(MonGet), end, Gone);
      First(o, t, sh, Mon(MonPoll), sh, Mon(MonProbe), end, Gone);
    }
  }

  lemma MonitorCloses(o: Origin, t: Tid, sh: Shared)
    requires sh.log == [] && !sh.alive && !sh.once.Busy? && sh.entry == Mine
    ensures Leads(o, sh, t, Mon(MonPoll),
                  if sh.cancelled then sh.(doneClosed := true)
                  else EndedOnce(sh.(doneClosed := true), Lost).(entry := Vacant), Gone)
  {
    var x := sh.(doneClosed := true);
    var end := if sh.cancelled then x else EndedOnce(x, Lost).(entry := Vacant);
    if sh.cancelled {
      OneStep(o, x, t, Mon(MonCheck), end, Gone);
    } else {
      OneStep(o, EndedOnce(x, Lost), t, Mon(MonRemove), end, Gone);
      RecordLeads(o, t, x, Lost, AfterMonitor);
      Then(o, t, x, Record(Enter, Lost, AfterMonitor), EndedOnce(x, Lost), Mon(MonRemove), end, Gone);
      First(o, t, x, Mon(MonCheck), x, Record(Enter, Lost, AfterMonitor), end, Gone);
    }
    First(o, t, sh, Mon(MonClose), x, Mon(MonCheck), end, Gone);
    First(o, t, sh, Mon(MonGet), sh, Mon(MonClose), end, Gone);
    First(o, t, sh, Mon(MonProbe), sh, Mon(MonGet), end, Gone);
    First(o, t, sh, Mon(MonPoll), sh, Mon(MonProbe), end, Gone);
  }

  // ---------------------------------------------------------------- a recovery pass

  /** A pass repeats the status of the last record; without one it ends a dead run with its verdict,
      unless it asks what is tracked and finds the run's entry. */
  lemma PassLeads(o: Origin, t: Tid, sh: Shared, skipTracked: bool, verdict: Status)
    requires sh.log == [] && !(skipTracked && sh.entry == Mine) ==> !sh.alive
    ensures Leads(o, sh, t, Rec(RecRead(skipTracked, verdict)),
                  if sh.log != [] then sh.(agentStatus := sh.log[|sh.log| - 1].status)
                  else if skipTracked && sh.entry == Mine then sh
                  else sh.(log := [Line(Recovery, verdict)], agentStatus := verdict), Gone)
  {
    var start := Rec(RecRead(skipTracked, verdict));
    if sh.log != [] {
      var read := sh.log[|sh.log| - 1].status;
      OneStep(o, sh, t, Rec(RecEdit(read)), sh.(agentStatus := read), Gone);
      First(o, t, sh, start, sh, Rec(RecEdit(read)), sh.(agentStatus := read), Gone);
    } else if skipTracked && sh.entry == Mine {
      OneStep(o, sh, t, Rec(RecLook(verdict)), sh, Gone);
      First(o, t, sh, start, sh, Rec(RecLook(verdict)), sh, Gone);
    } else {
      PassEnds(o, t, sh, skipTracked, verdict, sh.(log := [Line(Recovery, verdict)], agentStatus := verdict));
    }
  }

  lemma PassEnds(o: Origin, t: Tid, sh: Shared, skipTracked: bool, verdict: Status, end: Shared)
    requires sh.log == [] && !(skipTracked && sh.entry == Mine) && !sh.alive
    requires end == sh.(log := [Line(Recovery, verdict)], agentStatus := verdict)
    ensures Leads(o, sh, t, Rec(RecRead(skipTracked, verdict)), end, Gone)
  {
    PassAppends(o, t, sh, verdict, end);
    if skipTracked {
      First(o, t, sh, Rec(RecLook(verdict)), sh, Rec(RecProbe(verdict)), end, Gone);
      First(o, t, sh, Rec(RecRead(skipTracked, verdict)), sh, Rec(RecLook(verdict)), end, Gone);
    } else {
      First(o, t, sh, Rec(RecRead(skipTracked, verdict)), sh, Rec(RecProbe(verdict)), end, Gone);
    }
  }

  lemma PassAppends(o: Origin, t: Tid, sh: Shared, verdict: Status, end: Shared)
    requires sh.log == [] && !sh.alive && end == sh.(log := [Line(Recovery, verdict)], agentStatus := verdict)
    ensures Leads(o, sh, t, Rec(RecProbe(verdict)), end, Gone)
  {
    var x := sh.(log := [Line(Recovery, verdict)]);
    OneStep(o, x, t, Rec(RecEdit(verdict)), end, Gone);
    First(o, t, sh, Rec(RecAppend(verdict)), x, Rec(RecEdit(verdict)), end, Gone);
    First(o, t, sh, Rec(RecProbe(verdict)), sh, Rec(RecAppend(verdict)), end, Gone);
  }

  /** A dead process is the only one it ends: it never gets past the probe of a live one. */
  lemma PassStopsAtALiveRun(sh: Shared, verdict: Status)
    requires sh.alive
    ensures !CanRun(sh, Rec(RecProbe(verdict)))
  {
  }

  // ---------------------------------------------------------------- a cancel

  /** A cancel without the run's entry does nothing; with it, it marks the run and waits until Done
      is closed. */
  lemma CancelLeads(o: Origin, t: Tid, sh: Shared)
    ensures sh.entry != Mine ==> Leads(o, sh, t, Canc(CancelLookup), sh, Gone)
    ensures sh.entry == Mine ==> Leads(o, sh, t, Canc(CancelLookup), sh.(cancelled := true), Canc(CancelGrace))
    ensures CanRun(sh, Canc(CancelGrace)) == CanRun(sh, Canc(CancelWait)) == sh.doneClosed
  {
    if sh.entry != Mine {
      OneStep(o, sh, t, Canc(CancelLookup), sh, Gone);
    } else {
      var x := sh.(cancelled := true);
      OneStep(o, sh, t, Canc(CancelMark), x, Canc(CancelGrace));
      First(o, t, sh, Canc(CancelVerify), sh, Canc(CancelMark), x, Canc(CancelGrace));
      First(o, t, sh, Canc(CancelLookup), sh, Canc(CancelVerify), x, Canc(CancelGrace));
    }
  }

  /** Once Done is closed it records `cancelled`. When the grace expires it closes Done itself for an
      adopted run, and waits on for a launched one. */
  lemma CancelRecords(o: Origin, t: Tid, sh: Shared)
    requires !sh.once.Busy?
    ensures sh.doneClosed ==> Leads(o, sh, t, Canc(CancelGrace), EndedOnce(sh, Cancelled), Gone)
    ensures sh.doneClosed || o == Adopted ==>
              Leads(o, sh, t, Canc(CancelHard), EndedOnce(sh.(doneClosed := true), Cancelled), Gone)
    ensures !sh.doneClosed && o != Adopted ==> Leads(o, sh, t, Canc(CancelHard), sh, Canc(CancelWait))
  {
    var x := sh.(doneClosed := sh.doneClosed || o == Adopted);
    RecordLeads(o, t, sh, Cancelled, AfterCancel);
    RecordLeads(o, t, x, Cancelled, AfterCancel);
    if sh.doneClosed {
      First(o, t, sh, Canc(CancelGrace), sh, Record(Enter, Cancelled, AfterCancel), EndedOnce(sh, Cancelled), Gone);
    }
    if sh.doneClosed || o == Adopted {
      First(o, t, x, Canc(CancelWait), x, Record(Enter, Cancelled, AfterCancel), EndedOnce(x, Cancelled), Gone);
      First(o, t, sh, Canc(CancelHard), x, Canc(CancelWait), EndedOnce(x, Cancelled), Gone);
    } else {
      assert x == sh;
      OneStep(o, sh, t, Canc(CancelHard), sh, Canc(CancelWait));
    }
  }

  // ---------------------------------------------------------------- the exit path

  /** A run that nobody cancels is marked running when its process has started. */
  lemma ExitStarts(o: Origin, t: Tid, sh: Shared)
    requires !sh.cancelled
    ensures Leads(o, sh, t, Exit(ExitStart), sh.(agentStatus := Running), Exit(ExitRunning))
  {
    var end := sh.(agentStatus := Running);
    OneStep(o, sh, t, Exit(ExitMark), end, Exit(ExitRunning));
    First(o, t, sh, Exit(ExitSpawn), sh, Exit(ExitMark), end, Exit(ExitRunning));
    First(o, t, sh, Exit(ExitStart), sh, Exit(ExitSpawn), end, Exit(ExitRunning));
  }

  /** What is left when the exit path closes Done: on the daemon's path `cancelled` is recorded for a
      cancelled run, and the context's watcher is stopped. */
  function Closing(o: Origin, sh: Shared): Shared {
    var x := sh.(doneClosed := true);
    if o != Queued then x else (if sh.cancelled then EndedOnce(x, Cancelled) else x).(watchStopped := true)
  }

  lemma ExitCloses(o: Origin, t: Tid, sh: Shared)
    requires !sh.once.Busy?
    ensures Leads(o, sh, t, Exit(ExitClose), Closing(o, sh), Gone)
  {
    var x, end := sh.(doneClosed := true), Closing(o, sh);
    if o != Queued {
      OneStep(o, sh, t, Exit(ExitClose), end, Gone);
    } else {
      if sh.cancelled {
        var y := EndedOnce(x, Cancelled);
        OneStep(o, y, t, Exit(MainStop), end, Gone);
        RecordLeads(o, t, x, Cancelled, AfterMain);
        Then(o, t, x, Record(Enter, Cancelled, AfterMain), y, Exit(MainStop), end, Gone);
        First(o, t, x, Exit(MainCheck), x, Record(Enter, Cancelled, AfterMain), end, Gone);
      } else {
        OneStep(o, x, t, Exit(MainStop), end, Gone);
        First(o, t, x, Exit(MainCheck), x, Exit(MainStop), end, Gone);
      }
      First(o, t, sh, Exit(ExitClose), x, Exit(MainCheck), end, Gone);
    }
  }

  /** A run that exits uncancelled records its outcome and then closes Done. */
  lemma ExitRecords(o: Origin, t: Tid, sh: Shared, outcome: Status, x: Shared)
    requires !sh.once.Busy? && !sh.cancelled && x == EndedOnce(sh, outcome)
    ensures Leads(o, sh, t, Exit(ExitCheck(outcome)), Closing(o, x), Gone)
  {
    ExitCloses(o, t, x);
    RecordLeads(o, t, sh, outcome, AfterExit);
    Then(o, t, sh, Record(Enter, outcome, AfterExit), x, Exit(ExitClose), Closing(o, x), Gone);
    First(o, t, sh, Exit(ExitCheck(outcome)), sh, Record(Enter, outcome, AfterExit), Closing(o, x), Gone);
  }

  /** One that has been cancelled, before it started or since, leaves the record to whoever did it. */
  lemma ExitLeavesARecord(o: Origin, t: Tid, sh: Shared, outcome: Status)
    requires !sh.once.Busy? && sh.cancelled
    ensures Leads(o, sh, t, Exit(ExitStart), Closing(o, sh), Gone)
    ensures Leads(o, sh, t, Exit(ExitCheck(outcome)), Closing(o, sh), Gone)
  {
    ExitCloses(o, t, sh);
    First(o, t, sh, Exit(ExitStart), sh, Exit(ExitClose), Closing(o, sh), Gone);
    First(o, t, sh, Exit(ExitCheck(outcome)), sh, Exit(ExitClose), Closing(o, sh), Gone);
  }

  /** The watcher cancels the run when the daemon's context ends, and then waits for Done. */
  lemma WatcherCancels(o: Origin, t: Tid, sh: Shared)
    ensures CanRun(sh, Watch(WatchWait)) == sh.ctxDone && CanRun(sh, Watch(WatchKill)) == sh.doneClosed
    ensures sh.ctxDone ==> Leads(o, sh, t, Watch(WatchWait), sh.(cancelled := true), Watch(WatchKill))
    ensures sh.doneClosed ==> Leads(o, sh, t, Watch(WatchKill), sh, Gone)
  {
    var x := sh.(cancelled := true);
    if sh.ctxDone {
      OneStep(o, sh, t, Watch(WatchMark), x, Watch(WatchKill));
      First(o, t, sh, Watch(WatchWait), sh, Watch(WatchMark), x, Watch(WatchKill));
    }
    if sh.doneClosed {
      OneStep(o, sh, t, Watch(WatchKill), sh, Gone);
    }
  }
}
