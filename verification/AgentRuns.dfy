/** The objects behind RunLifecycle: an activeRun and the AgentService that holds it
    (gui/app/agent_service.go, agent_run.go, agent_cancel.go, agent_recovery.go). */
module AgentRuns {
  import opened Wrappers

  // Each method is one or more steps of that protocol, taken by a goroutine that meets no
  // other; its contract says which.

  import opened RunLifecycle

  type TaskId = string

  class ActiveRun {
    const taskId: TaskId
    const hasReservation: bool
    const recovered: bool
    var cancelled: bool
    var doneClosed: bool
    var finishOnceDone: bool
    /** This run's `finished` lines in the task's event log. */
    var finishedLines: seq<Line>

    constructor (taskId: TaskId, hasReservation: bool, recovered: bool)
      ensures this.taskId == taskId && this.hasReservation == hasReservation && this.recovered == recovered
      ensures !cancelled && !doneClosed && !finishOnceDone && finishedLines == []
    {
      this.taskId, this.hasReservation, this.recovered := taskId, hasReservation, recovered;
      cancelled, doneClosed, finishOnceDone, finishedLines := false, false, false, [];
    }

    ghost predicate CameFrom(o: Origin) { (hasReservation <==> o == Direct) && (recovered <==> o == Adopted) }

    method MarkCancelled()
      modifies this`cancelled
      ensures cancelled
    {
      cancelled := true;
    }

    method CloseDone()
      modifies this`doneClosed
      ensures doneClosed
    {
      if !doneClosed {
        doneClosed := true;
      }
    }
  }

  /** What is left of a goroutine's steps once it is inside the terminal body. */
  function Left(pc: Pc): nat { if pc.InBody() then 7 - PhaseNumber(pc.phase) else 0 }

  /** The effect of the terminal body when nothing runs beside it. */
  function RestAlone(o: Origin, x: Effect, t: Tid): Effect
    decreases Left(x.pc)
  {
    if x.pc.InBody() then RestAlone(o, RunPc(o, x.sh, x.h, t, x.pc), t) else x
  }

  /** recordTerminal called with `status`, from its gate to its return. */
  function RecordAlone(o: Origin, sh: Shared, h: History, t: Tid, status: Status, after: RunLifecycle.After): Effect {
    RestAlone(o, RunPc(o, sh, h, t, Record(Enter, status, after)), t)
  }

  /** AgentStatus after recordTerminal's write. */
  function Written(g: Glance, status: Status): Status {
    match Carved(g, status)
    case Keep => g.cursor
    case Put(v) => v
  }

  function Recorded(sh: Shared, status: Status): Shared {
    sh.(once := Closed, log := sh.log + [Line(Body, status)], entry := Vacant,
        agentStatus := Written(Glance(sh.agentStatus, sh.handoff), status))
  }

  /** What recordTerminal leaves: the record, the status unless it is carved out, and the
      entry's removal once, and from then on nothing. */
  lemma RecordAloneIs(o: Origin, sh: Shared, h: History, t: Tid, status: Status, after: RunLifecycle.After)
    requires !sh.once.Busy?
    ensures var x := RecordAlone(o, sh, h, t, status, after);
            && x.pc == Continue(after)
            && x.sh == (if sh.once == Closed then sh else Recorded(sh, status))
            && x.h.releases == h.releases + (if sh.once == Fresh && o == Direct then 1 else 0)
            && x.h.evictions == h.evictions + (if sh.once == Fresh && sh.entry == Other then 1 else 0)
  {
    if sh.once == Fresh {
      var x1 := RunPc(o, sh, h, t, Record(Enter, status, after));
      var x3 := HalfBody(o, x1.sh, x1.h, t, status, after);
      OtherHalf(o, x3.sh, x3.h, t, Carved(Glance(sh.agentStatus, sh.handoff), status), status, after);
    }
  }

  lemma OtherHalf(o: Origin, sh: Shared, h: History, t: Tid, write: Write, status: Status, after: RunLifecycle.After)
    ensures var x := RestAlone(o, Effect(sh, Record(Edit(write), status, after), h), t);
            && x.pc == Continue(after)
            && x.sh == sh.(once := Closed, entry := Vacant,
                           agentStatus := if write.Put? then write.status else sh.agentStatus)
            && x.h.releases == h.releases + (if o == Direct then 1 else 0)
            && x.h.evictions == h.evictions + (if sh.entry == Other then 1 else 0)
  {
    var x3 := Effect(sh, Record(Edit(write), status, after), h);
    var x4 := RunPc(o, x3.sh, x3.h, t, x3.pc);
    var x5 := RunPc(o, x4.sh, x4.h, t, x4.pc);
    var x6 := RunPc(o, x5.sh, x5.h, t, x5.pc);
    var x7 := RunPc(o, x6.sh, x6.h, t, x6.pc);
    assert RestAlone(o, x3, t) == RestAlone(o, x4, t) == RestAlone(o, x5, t) == RestAlone(o, x6, t)
        == RestAlone(o, x7, t) == x7;
  }

  /** The body up to the write of AgentStatus. */
  lemma HalfBody(o: Origin, sh: Shared, h: History, t: Tid, status: Status,
                 after: RunLifecycle.After) returns (x: Effect)
    ensures var g := Glance(sh.agentStatus, sh.handoff);
            x == Effect(sh.(log := sh.log + [Line(Body, status)]), Record(Edit(Carved(g, status)), status, after),
                        h.(record := Some(status), look := Some(g),
                           late := if Carved(g, status) == Keep then None else h.late))
    ensures RestAlone(o, Effect(sh, Record(Append, status, after), h), t) == RestAlone(o, x, t)
  {
    var x0 := Effect(sh, Record(Append, status, after), h);
    var x1 := RunPc(o, x0.sh, x0.h, t, x0.pc);
    x := RunPc(o, x1.sh, x1.h, t, x1.pc);
    assert RestAlone(o, x0, t) == RestAlone(o, x1, t) == RestAlone(o, x, t);
  }

  /** A second call changes nothing. */
  lemma RecordTwice(o: Origin, sh: Shared, h: History, t: Tid, status: Status, after: RunLifecycle.After, next: Status)
    requires !sh.once.Busy?
    ensures var x := RecordAlone(o, sh, h, t, status, after); RecordAlone(o, x.sh, x.h, t, next, after) == x
  {
    RecordAloneIs(o, sh, h, t, status, after);
  }

  /** Two maps agree on every key but one. */
  ghost predicate SameElsewhere<V>(was: map<TaskId, V>, now: map<TaskId, V>, except: TaskId) {
    was - {except} == now - {except}
  }

  datatype CancelResult = NotRunning | IdentityMismatch | CancelDone

  class AgentService {
    var active: map<TaskId, ActiveRun>
    var agentStatus: map<TaskId, Status>
    var workersReleased: nat
    var notices: nat

    constructor ()
      ensures active == map[] && agentStatus == map[] && workersReleased == 0 && notices == 0
    {
      active, agentStatus, workersReleased, notices := map[], map[], 0, 0;
    }

    ghost function EntryOf(ar: ActiveRun): Entry
      reads this
    {
      if ar.taskId !in active then Vacant else if active[ar.taskId] == ar then Mine else Other
    }

    /** The run as the protocol sees it; the process and the daemon's context are not here, and
        whether a review has sent the task back is read from the board. */
    ghost function Fields(ar: ActiveRun, handoff: bool): Shared
      reads this, ar
    {
      Shared(ar.cancelled, ar.doneClosed, if ar.finishOnceDone then Closed else Fresh, EntryOf(ar),
             false, false, true, handoff,
             ar.finishedLines, StatusOf(ar.taskId))
    }

    /** The insertion of startAgentRun, resumeAgent and RunQueuedAgentSync. */
    method Register(ar: ActiveRun) returns (ok: bool)
      modifies this
      ensures ok <==> ar.taskId !in old(active)
      ensures active == if ok then old(active)[ar.taskId := ar] else old(active)
      ensures agentStatus == old(agentStatus) && workersReleased == old(workersReleased)
      ensures notices == old(notices) + if ok then 1 else 0
    {
      if ar.taskId in active {
        return false;
      }
      active := active[ar.taskId := ar];
      notices := notices + 1;
      ok := true;
    }

    method AdoptRecoveredRun(stub: ActiveRun) returns (ar: ActiveRun)
      modifies this
      ensures ar == if stub.taskId in old(active) then old(active)[stub.taskId] else stub
      ensures active == old(active)[stub.taskId := ar]
      ensures agentStatus == old(agentStatus) && workersReleased == old(workersReleased)
      ensures notices == old(notices) + if stub.taskId in old(active) then 0 else 1
    {
      if stub.taskId in active {
        ar := active[stub.taskId];
        assert active[stub.taskId := ar] == active;
        return;
      }
      active := active[stub.taskId := stub];
      notices := notices + 1;
      ar := stub;
    }

    /** Removes by pointer: another run's entry stays. */
    method RemoveActiveRun(ar: ActiveRun)
      modifies this
      ensures forall handoff :: Fields(ar, handoff) == RunMonitor(old(Fields(ar, handoff)), NoHistory(), MonRemove).sh
      ensures forall other: ActiveRun :: old(allocated(other)) && other != ar ==>
                EntryMeans(other, old(EntryOf(other)), ar)
      ensures SameElsewhere(old(active), active, ar.taskId)
      ensures agentStatus == old(agentStatus) && workersReleased == old(workersReleased)
      ensures notices == old(notices) + if old(EntryOf(ar)) == Mine then 1 else 0
    {
      if ar.taskId in active && active[ar.taskId] == ar {
        active := active - {ar.taskId};
        notices := notices + 1;
      }
    }

    /** Another run's entry is still its own; at most it now finds the place empty. */
    ghost predicate EntryMeans(other: ActiveRun, was: Entry, ar: ActiveRun)
      reads this
    {
      (was == Mine <==> EntryOf(other) == Mine) && (other.taskId != ar.taskId ==> EntryOf(other) == was)
    }

    ghost function StatusOf(id: TaskId): Status
      reads this
    {
      if id in agentStatus then agentStatus[id] else Pending
    }

    /** The two carve-outs and the edit. */
    method WriteStatus(id: TaskId, status: Status, handoff: bool)
      modifies this`agentStatus
      ensures StatusOf(id) == Written(Glance(old(StatusOf(id)), handoff), status)
      ensures SameElsewhere(old(agentStatus), agentStatus, id)
    {
      if (status == Success || status == Failed) && id in agentStatus && agentStatus[id] == NeedsUser {
        return;
      }
      agentStatus := agentStatus[id := if status == Success && handoff then Blank else status];
    }

    /** recordTerminal: one pass of the terminal body, or nothing after the first. `handoff` is
        what the board says of the task. It deletes
        by task, so of the other tasks' runs it touches none. */
    method RecordTerminal(ar: ActiveRun, status: Status, handoff: bool, ghost o: Origin,
                          ghost after: RunLifecycle.After)
      requires ar.CameFrom(o)
      modifies this, ar
      ensures Fields(ar, handoff) == RecordAlone(o, old(Fields(ar, handoff)), NoHistory(), EXIT, status, after).sh
      ensures workersReleased == old(workersReleased)
              + RecordAlone(o, old(Fields(ar, handoff)), NoHistory(), EXIT, status, after).h.releases
      ensures notices == old(notices) + if old(ar.finishOnceDone) then 0 else 1
      ensures SameElsewhere(old(active), active, ar.taskId) && SameElsewhere(old(agentStatus), agentStatus, ar.taskId)
    {
      RecordAloneIs(o, Fields(ar, handoff), NoHistory(), EXIT, status, after);
      if ar.finishOnceDone {
        return;
      }
      ar.finishedLines := ar.finishedLines + [Line(Body, status)];
      WriteStatus(ar.taskId, status, handoff);
      active := active - {ar.taskId};
      notices := notices + 1;
      if ar.hasReservation {
        workersReleased := workersReleased + 1;
      }
      ar.finishOnceDone := true;
    }

    /** postRun: a cancelled run is left to whoever cancelled it. */
    method PostRun(ar: ActiveRun, status: Status, handoff: bool, ghost o: Origin)
      requires ar.CameFrom(o)
      modifies this, ar
      ensures old(ar.cancelled) ==>
                Fields(ar, handoff) == old(Fields(ar, handoff)) && active == old(active) && notices == old(notices)
      ensures !old(ar.cancelled) ==>
                Fields(ar, handoff) == RecordAlone(o, old(Fields(ar, handoff)), NoHistory(), EXIT, status, AfterExit).sh
      ensures workersReleased == old(workersReleased)
              + if old(ar.cancelled) then 0
                else RecordAlone(o, old(Fields(ar, handoff)), NoHistory(), EXIT, status, AfterExit).h.releases
      ensures SameElsewhere(old(active), active, ar.taskId) && SameElsewhere(old(agentStatus), agentStatus, ar.taskId)
    {
      if ar.cancelled {
        return;
      }
      RecordTerminal(ar, status, handoff, o, AfterExit);
    }

    /** CancelRun without its signals and its waits for Done, which are steps of the protocol.
        `verified` is the identity check of an adopted process. An adopted run has no goroutine
        to close Done, so the canceller does. */
    method CancelRun(id: TaskId, verified: bool, handoff: bool, ghost o: Origin) returns (r: CancelResult)
      requires id in active ==> active[id].taskId == id && active[id].CameFrom(o)
      modifies this, if id in active then {active[id]} else {}
      ensures r == if id !in old(active) then NotRunning else if !verified then IdentityMismatch else CancelDone
      ensures r != CancelDone ==>
                && active == old(active) && agentStatus == old(agentStatus) && notices == old(notices)
                && (id in active ==> Fields(active[id], handoff) == old(Fields(active[id], handoff)))
      ensures r == CancelDone ==>
                var ar := old(active)[id];
                var marked := RunCancel(o, old(Fields(ar, handoff)), NoHistory(), CancelMark).sh;
                var killed := RunCancel(o, marked, NoHistory(), CancelHard).sh;
                && Fields(ar, handoff) == RecordAlone(o, killed, NoHistory(), EXIT, Cancelled, AfterCancel).sh
                && var record := RecordAlone(o, killed, NoHistory(), EXIT, Cancelled, AfterCancel);
                   workersReleased == old(workersReleased) + record.h.releases
      ensures SameElsewhere(old(active), active, id) && SameElsewhere(old(agentStatus), agentStatus, id)
    {
      if id !in active {
        return NotRunning;
      }
      var ar := active[id];
      if !verified {
        return IdentityMismatch;
      }
      ar.MarkCancelled();
      if ar.recovered {
        ar.CloseDone();
      }
      RecordTerminal(ar, Cancelled, handoff, o, AfterCancel);
      r := CancelDone;
    }

    /** reconcileOrphanExit for the run `ar`, whose process is dead. With its own stub in place
        it unblocks the canceller and, unless there is one, records `lost` through the terminal
        body; without, it appends and edits directly. */
    method ReconcileOrphanExit(ar: ActiveRun, handoff: bool)
      requires ar.CameFrom(Adopted)
      modifies this, ar
      ensures old(EntryOf(ar)) != Mine ==>
                var appended := RunMonitor(old(Fields(ar, handoff)), NoHistory(), MonAppendLost).sh;
                Fields(ar, handoff) == RunMonitor(appended, NoHistory(), MonEditLost).sh && active == old(active)
      ensures old(EntryOf(ar)) == Mine && old(ar.cancelled) ==>
                Fields(ar, handoff) == old(Fields(ar, handoff)).(doneClosed := true)
      ensures old(EntryOf(ar)) == Mine && !old(ar.cancelled) ==>
                Fields(ar, handoff) == RecordAlone(Adopted, old(Fields(ar, handoff)).(doneClosed := true), NoHistory(),
                                          EXIT, Lost, AfterMonitor).sh.(entry := Vacant)
      ensures SameElsewhere(old(active), active, ar.taskId) && SameElsewhere(old(agentStatus), agentStatus, ar.taskId)
      ensures workersReleased == old(workersReleased)
    {
      if ar.taskId !in active || active[ar.taskId] != ar {
        ar.finishedLines := ar.finishedLines + [Line(Monitor, Lost)];
        agentStatus := agentStatus[ar.taskId := Lost];
        return;
      }
      ar.CloseDone();
      if ar.cancelled {
        return;
      }
      RecordAloneIs(Adopted, Fields(ar, handoff), NoHistory(), EXIT, Lost, AfterMonitor);
      RecordTerminal(ar, Lost, handoff, Adopted, AfterMonitor);
      RemoveActiveRun(ar);
    }
  }
}
