/** The daemon's shared state (gui/internal/daemon/daemon.go), its critical sections, and the
    class that owns them. */
module DaemonState {
  // Every function below is one critical section: the part of a Go function that runs under
  // one mutex. `Daemon` is the sequential object built from them; module `DaemonProtocol`
  // interleaves the same sections between any number of goroutines.

  type TaskId = string

  /** Identity of a context.Context created by one activation. */
  type Ctx = nat

  /** A queued task stamped with the generation that enqueued it. */
  datatype Item = Item(id: TaskId, generation: nat)

  /** The fields guarded by workerLimitMu. `wake` names the channel now stored in
      workerLimitChanged: a goroutine that captured channel `w` is woken once `w < wake`. */
  datatype Gate = Gate(max: int, running: int, wake: nat)
  {
    predicate HasRoom(extra: nat) { running + extra < max }

    function Take(): Gate { this.(running := running + 1) }

    function Signal(): Gate { this.(wake := wake + 1) }

    // The guard mirrors the source; `DaemonProtocol.GuardNeverHidesUnderflow` shows that
    // it is never the reason a decrement is skipped.
    function Give(): Gate { this.(running := if running > 0 then running - 1 else running).Signal() }

    function Resize(n: int): Gate { this.(max := n).Signal() }
  }

  /** The fields guarded by activeMu. */
  datatype Roster = Roster(active: set<TaskId>, automation: set<TaskId>)
  {
    function Add(id: TaskId): Roster { this.(active := active + {id}) }

    function Remove(id: TaskId): Roster { this.(active := active - {id}) }

    function Reserve(id: TaskId): Roster { Roster(active + {id}, automation + {id}) }

    // ReleaseAutomationRun: ids outside the automation set are left alone.
    function Unreserve(id: TaskId): Roster {
      if id in automation then Roster(active - {id}, automation - {id}) else this
    }

    // unreservedAgentActiveCount, given the snapshot of AgentService.active.
    function Unreserved(ids: set<TaskId>): nat { |ids - active - {""}| }
  }

  /** A listed run that an active id stands for is counted once, under that id. */
  lemma ListedCountOnce(r: Roster, ids: set<TaskId>)
    ensures r.Unreserved(ids) == |set x | x in ids && x != "" && x !in r.active|
    ensures |r.active| + r.Unreserved(ids) == |r.active + (ids - {""})|
  {
    assert (set x | x in ids && x != "" && x !in r.active) == ids - r.active - {""};
    assert r.active + (ids - {""}) == r.active + (ids - r.active - {""});
  }

  /** The fields guarded by boardMu. `ctx` is meaningful only while activated. */
  datatype Board = Board(activated: bool, generation: nat, ctx: Ctx)
  {
    function Activate(c: Ctx): Board { Board(true, generation + 1, c) }

    function Deactivate(): Board { this.(activated := false) }

    predicate Current(g: nat) { activated && generation == g }
  }

  /** SetMaxWorkers clamps its argument to [1, NumCPU], and NumCPU to at least 1. */
  function ClampWorkers(n: int, cpus: int): (m: int)
    ensures 1 <= m && (m <= cpus || m == 1)
    ensures 1 <= n <= cpus ==> m == n
    ensures n > cpus >= 1 ==> m == cpus
    ensures n < 1 || cpus < 1 ==> m == 1
  {
    var low := if n < 1 then 1 else n;
    var limit := if cpus < 1 then 1 else cpus;
    if low > limit then limit else low
  }

  datatype EnqueueResult = Enqueued | Dropped | NotActivated | EmptyId | RootCancelled

  /** One daemon instance, run by a single caller at a time. The context flags and the
      snapshot of AgentService.active are what the environment would answer. */
  class Daemon {
    var maxWorkers: int
    var runningWorkers: int
    var workerLimitChanged: nat
    var active: set<TaskId>
    var automationActive: set<TaskId>
    var activated: bool
    var generation: nat
    var activationCtx: Ctx
    var queue: seq<Item>
    const queueBuffer: nat
    const cpus: int

    ghost function GateView(): Gate reads this { Gate(maxWorkers, runningWorkers, workerLimitChanged) }
    ghost function RosterView(): Roster reads this { Roster(active, automationActive) }
    ghost function BoardView(): Board reads this { Board(activated, generation, activationCtx) }

    constructor (workers: int, buffer: int, cpus: int)
      ensures GateView() == Gate(if workers < 1 then 1 else workers, 0, 0)
      ensures RosterView() == Roster({}, {}) && queue == []
      ensures !activated && generation == 0
      ensures queueBuffer == (if buffer < 1 then 256 else buffer) && this.cpus == cpus
    {
      maxWorkers := if workers < 1 then 1 else workers;
      runningWorkers, workerLimitChanged := 0, 0;
      active, automationActive := {}, {};
      activated, generation, activationCtx := false, 0, 0;
      queue := [];
      queueBuffer := if buffer < 1 then 256 else buffer;
      this.cpus := cpus;
    }

    method SetMaxWorkers(n: int)
      modifies this`maxWorkers, this`workerLimitChanged
      ensures GateView() == old(GateView()).Resize(ClampWorkers(n, cpus))
    {
      var m := ClampWorkers(n, cpus);
      if maxWorkers != m {
        maxWorkers := m;
      }
      workerLimitChanged := workerLimitChanged + 1;
    }

    method NotifyAgentActiveChanged()
      modifies this`workerLimitChanged
      ensures GateView() == old(GateView()).Signal()
    {
      workerLimitChanged := workerLimitChanged + 1;
    }

    method TryAcquireWorkerSlotNow(extraActive: nat) returns (ok: bool)
      modifies this`runningWorkers
      ensures ok <==> old(runningWorkers) + extraActive < maxWorkers
      ensures GateView() == if ok then old(GateView()).Take() else old(GateView())
    {
      if runningWorkers + extraActive >= maxWorkers {
        return false;
      }
      runningWorkers := runningWorkers + 1;
      ok := true;
    }

    method ReleaseWorkerSlot()
      modifies this`runningWorkers, this`workerLimitChanged
      ensures GateView() == old(GateView()).Give()
    {
      if runningWorkers > 0 {
        runningWorkers := runningWorkers - 1;
      }
      workerLimitChanged := workerLimitChanged + 1;
    }

    method TryEnqueue(id: TaskId, hasActiveRun: bool) returns (ok: bool)
      modifies this`active
      ensures ok <==> !hasActiveRun && id !in old(active)
      ensures RosterView() == if ok then old(RosterView()).Add(id) else old(RosterView())
    {
      if hasActiveRun || id in active {
        return false;
      }
      active := active + {id};
      ok := true;
    }

    method Release(id: TaskId)
      modifies this`active
      ensures RosterView() == old(RosterView()).Remove(id)
    {
      active := active - {id};
    }

    /** Enqueue with `id` already trimmed. An id is in the active set afterwards exactly
        when it was before or this call queued it: every other exit undoes its insertion. */
    method Enqueue(id: TaskId, hasActiveRun: bool, ctxDone: bool, rootDone: bool) returns (r: EnqueueResult)
      modifies this`active, this`queue
      ensures r == NotActivated ==> !activated || ctxDone
      ensures r == RootCancelled ==> activated && rootDone
      ensures r == Dropped && !hasActiveRun && id !in old(active) ==>
                |old(queue)| >= queueBuffer && !ctxDone && !rootDone
      ensures !activated ==> r == NotActivated
      ensures activated ==> (r == EmptyId <==> id == "")
      ensures r == Enqueued ==>
                && id !in old(active) && !hasActiveRun && |old(queue)| < queueBuffer
                && active == old(active) + {id} && queue == old(queue) + [Item(id, generation)]
      ensures r != Enqueued ==> active == old(active) && queue == old(queue)
      ensures activated && id != "" && !ctxDone && !rootDone ==>
                (r == Enqueued <==> !hasActiveRun && id !in old(active) && |old(queue)| < queueBuffer)
    {
      if !activated {
        return NotActivated;
      }
      if id == "" {
        return EmptyId;
      }
      var owned := TryEnqueue(id, hasActiveRun);
      if !owned {
        return Dropped;
      }
      // With several ready cases, Go's select may pick any of them.
      var send := *;
      if |queue| < queueBuffer && (send || !(ctxDone || rootDone)) {
        queue := queue + [Item(id, generation)];
        return Enqueued;
      }
      Release(id);
      var stop := *;
      r := if ctxDone && (stop || !rootDone) then NotActivated else if rootDone then RootCancelled else Dropped;
    }

    /** The end of TryReserveAutomationRun: the slot is held, and the roster may have
        changed since the first checks. A refusal gives the slot back. */
    method CommitReservation(id: TaskId, limit: int) returns (ok: bool)
      modifies this`active, this`automationActive, this`runningWorkers, this`workerLimitChanged
      ensures ok <==> id !in old(active) && |old(active)| < limit
      ensures RosterView() == if ok then old(RosterView()).Reserve(id) else old(RosterView())
      ensures GateView() == if ok then old(GateView()) else old(GateView()).Give()
    {
      if id in active || |active| >= limit {
        ReleaseWorkerSlot();
        return false;
      }
      active := active + {id};
      automationActive := automationActive + {id};
      ok := true;
    }

    /** TryReserveAutomationRun run without interference, `agentIds` being the ids that
        AgentService.ActiveTaskIDs returns. It succeeds exactly when the id is free and
        unlisted, the active ids and the listed ones together are fewer than the limit, and so
        are the slots taken and the listed runs that no active id stands for. A refused
        reservation changes nothing. */
    method TryReserveAutomationRun(id: TaskId, agentIds: set<TaskId>) returns (ok: bool)
      modifies this`active, this`automationActive, this`runningWorkers, this`workerLimitChanged
      ensures ok <==> id != "" && id !in old(active) && id !in agentIds
                      && |old(active) + (agentIds - {""})| < maxWorkers
                      && old(runningWorkers) + |set x | x in agentIds && x != "" && x !in old(active)| < maxWorkers
      ensures ok ==> active == old(active) + {id} && automationActive == old(automationActive) + {id}
      ensures ok ==> runningWorkers == old(runningWorkers) + 1
      ensures ok ==> RosterView() == old(RosterView()).Reserve(id) && GateView() == old(GateView()).Take()
      ensures !ok ==> RosterView() == old(RosterView()) && GateView() == old(GateView())
    {
      if id == "" || id in active || id in agentIds {
        return false;
      }
      var extra := |agentIds - active - {""}|;
      ListedCountOnce(RosterView(), agentIds);
      if |active| + extra >= maxWorkers {
        return false;
      }
      ok := TryAcquireWorkerSlotNow(extra);
      if ok {
        ok := CommitReservation(id, maxWorkers);
      }
    }

    method ReleaseAutomationRun(id: TaskId)
      modifies this`active, this`automationActive, this`runningWorkers, this`workerLimitChanged
      ensures RosterView() == if id == "" then old(RosterView()) else old(RosterView()).Unreserve(id)
      ensures GateView() == if id != "" && id in old(automationActive) then old(GateView()).Give() else old(GateView())
    {
      if id == "" {
        return;
      }
      var ok := id in automationActive;
      if ok {
        automationActive := automationActive - {id};
        active := active - {id};
        ReleaseWorkerSlot();
      }
    }

    /** The boardMu section of ActivateWithStartupGrace; false is "already activated". */
    method Activate(c: Ctx) returns (ok: bool)
      modifies this`activated, this`generation, this`activationCtx
      ensures ok == !old(activated)
      ensures BoardView() == if ok then old(BoardView()).Activate(c) else old(BoardView())
    {
      if activated {
        return false;
      }
      generation := generation + 1;
      activated := true;
      activationCtx := c;
      ok := true;
    }

    /** The final section of deactivate, once the wait has seen an empty active set. */
    method ResetActive()
      modifies this`active, this`automationActive
      ensures RosterView() == Roster({}, {})
    {
      active, automationActive := {}, {};
    }
  }
}
