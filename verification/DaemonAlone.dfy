/** What the daemon's calls do when nothing comes in between. */
module DaemonAlone {
  import opened Wrappers
  import opened DaemonState
  import opened DaemonProtocol

  // The protocol's invariants say what no interleaving breaks. The laws here say what each call
  // is for: what is admitted, what is refused, and that work gets done while there is room.

  ghost predicate Reaches(s: State, s': State, buffer: nat) {
    exists steps :: Schedule(s, steps, buffer) && Final(s, steps, buffer) == s'
  }

  lemma Stays(s: State, buffer: nat)
    ensures Reaches(s, s, buffer)
  {
    assert Schedule(s, [], buffer) && Final(s, [], buffer) == s;
  }

  lemma Then(s: State, mid: State, st: Step, s': State, buffer: nat)
    requires Reaches(s, mid, buffer) && Leads(mid, st, s', buffer)
    ensures Reaches(s, s', buffer)
  {
    var steps :| Schedule(s, steps, buffer) && Final(s, steps, buffer) == mid;
    assert Schedule(mid, [st], buffer) && Final(mid, [st], buffer) == s' by {
      assert [st][1..] == [];
    }
    SchedulesJoin(s, steps, [st], buffer);
  }

  // ---------------------------------------------------------------- one goroutine's sections

  /** Goroutine `t` stands at `pc`, or is gone; the others are as in `rest`. */
  function At(rest: map<Tid, Pc>, disp: Dispatcher, t: Tid, x: Effect): State {
    State(x.sh, Moved(rest, t, x.next), disp, x.h)
  }

  lemma Go(s: State, rest: map<Tid, Pc>, disp: Dispatcher, t: Tid, x: Effect, buffer: nat) returns (next: Effect)
    requires Reaches(s, At(rest, disp, t, x), buffer)
    requires x.next.Some? && CanRun(At(rest, disp, t, x), x.next.value, buffer)
    ensures next == RunPc(x.sh, x.h, x.next.value) && Reaches(s, At(rest, disp, t, next), buffer)
  {
    next := RunPc(x.sh, x.h, x.next.value);
    assert Moved(Moved(rest, t, x.next), t, next.next) == Moved(rest, t, next.next);
    Then(s, At(rest, disp, t, x), Run(t), At(rest, disp, t, next), buffer);
  }

  lemma Starts(s: State, t: Tid, pc: Pc, buffer: nat)
    requires t in s.threads && s.threads[t] == pc
    ensures Reaches(s, At(s.threads, s.disp, t, Effect(s.sh, Some(pc), s.h)), buffer)
  {
    assert s.threads[t := pc] == s.threads;
    Stays(s, buffer);
  }

  // ---------------------------------------------------------------- Enqueue

  /** Enqueue admits an id exactly when the daemon is activated and the id is neither empty, nor
      running, nor active already. */
  predicate Admits(sh: Shared, id: TaskId) {
    sh.board.activated && id != "" && id !in sh.agentRuns && id !in sh.roster.active
  }

  lemma EnqueueStarts(s: State, t: Tid, id: TaskId, buffer: nat)
    requires t in s.threads && s.threads[t] == Enq(EnqStart(id)) && Admits(s.sh, id)
    ensures Reaches(s, At(s.threads, s.disp, t,
                          Effect(s.sh.(roster := s.sh.roster.(active := s.sh.roster.active + {id})),
                                 Some(Enq(EnqOwned(id, s.sh.board.generation, s.sh.board.ctx))), s.h)), buffer)
  {
    Starts(s, t, Enq(EnqStart(id)), buffer);
    var x1 := Go(s, s.threads, s.disp, t, Effect(s.sh, Some(Enq(EnqStart(id))), s.h), buffer);
    var x2 := Go(s, s.threads, s.disp, t, x1, buffer);
    var x3 := Go(s, s.threads, s.disp, t, x2, buffer);
  }

  /** With room in the queue, an admitted id is active and last in the queue, under the present
      generation. */
  lemma EnqueueAlone(s: State, t: Tid, id: TaskId, buffer: nat)
    requires t in s.threads && s.threads[t] == Enq(EnqStart(id)) && Admits(s.sh, id) && |s.sh.queue| < buffer
    ensures var item := Item(id, s.sh.board.generation);
            var roster := s.sh.roster.(active := s.sh.roster.active + {id});
            Reaches(s, State(s.sh.(roster := roster, queue := s.sh.queue + [item]),
                             s.threads - {t}, s.disp, s.h.(enqueued := s.h.enqueued + [item])), buffer)
  {
    EnqueueStarts(s, t, id, buffer);
    var x := Go(s, s.threads, s.disp, t,
                Effect(s.sh.(roster := s.sh.roster.(active := s.sh.roster.active + {id})),
                       Some(Enq(EnqOwned(id, s.sh.board.generation, s.sh.board.ctx))), s.h), buffer);
  }

  /** Otherwise, or when it is not admitted, nothing is left of the call. */
  lemma EnqueueRefused(s: State, t: Tid, id: TaskId, buffer: nat)
    requires t in s.threads && s.threads[t] == Enq(EnqStart(id)) && (Admits(s.sh, id) ==> |s.sh.queue| >= buffer)
    ensures Reaches(s, s.(threads := s.threads - {t}), buffer)
  {
    var rest, disp := s.threads, s.disp;
    if Admits(s.sh, id) {
      EnqueueStarts(s, t, id, buffer);
      QueueIsFull(s, t, id, buffer);
    } else {
      Starts(s, t, Enq(EnqStart(id)), buffer);
      var x := Go(s, rest, disp, t, Effect(s.sh, Some(Enq(EnqStart(id))), s.h), buffer);
      if x.next.Some? {
        var x2 := Go(s, rest, disp, t, x, buffer);
        if x2.next.Some? {
          var x3 := Go(s, rest, disp, t, x2, buffer);
        }
      }
    }
  }

  lemma QueueIsFull(s: State, t: Tid, id: TaskId, buffer: nat)
    requires t in s.threads && Admits(s.sh, id) && |s.sh.queue| >= buffer
    requires Reaches(s, At(s.threads, s.disp, t,
                          Effect(s.sh.(roster := s.sh.roster.(active := s.sh.roster.active + {id})),
                                 Some(Enq(EnqOwned(id, s.sh.board.generation, s.sh.board.ctx))), s.h)), buffer)
    ensures Reaches(s, s.(threads := s.threads - {t}), buffer)
  {
    var sh := s.sh.(roster := s.sh.roster.(active := s.sh.roster.active + {id}));
    var x := Effect(sh, Some(Enq(EnqOwned(id, s.sh.board.generation, s.sh.board.ctx))), s.h);
    var y := Effect(sh, Some(Enq(EnqUndo(id))), s.h);
    assert Moved(Moved(s.threads, t, x.next), t, y.next) == Moved(s.threads, t, y.next);
    Then(s, At(s.threads, s.disp, t, x), Bail(t), At(s.threads, s.disp, t, y), buffer);
    var z := Go(s, s.threads, s.disp, t, y, buffer);
    assert s.sh.roster.active + {id} - {id} == s.sh.roster.active;
  }

  // ---------------------------------------------------------------- reservations

  /** The listed runs that no active id stands for. */
  function Outside(sh: Shared, ids: set<TaskId>): set<TaskId> { set x | x in ids && x != "" && x !in sh.roster.active }

  /** A reservation succeeds exactly when the id is neither empty, nor active, nor running, and
      both the active and listed ids together and the slots taken together with the listed
      runs outside the active set leave room. */
  predicate Reservable(sh: Shared, id: TaskId) {
    && id != "" && id !in sh.roster.active && id !in sh.agentRuns
    && |sh.roster.active + (sh.agentRuns - {""})| < sh.gate.max
    && sh.gate.running + |Outside(sh, sh.agentRuns)| < sh.gate.max
  }

  lemma OutsideIsCounted(sh: Shared, ids: set<TaskId>)
    ensures sh.roster.Unreserved(ids) == |Outside(sh, ids)|
    ensures |sh.roster.active| + |Outside(sh, ids)| == |sh.roster.active + (ids - {""})|
  {
    ListedCountOnce(sh.roster, ids);
  }

  /** The questions of TryReserveAutomationRun, up to the first sum. */
  lemma ReservationAsks(s: State, t: Tid, id: TaskId, buffer: nat)
    requires t in s.threads && s.threads[t] == Res(ResStart(id))
    requires id != "" && id !in s.sh.roster.active && id !in s.sh.agentRuns
    ensures var extra := |Outside(s.sh, s.sh.agentRuns)|;
            Reaches(s, At(s.threads, s.disp, t,
                          Effect(s.sh, Some(Res(ResCounted(id, extra, |s.sh.roster.active|))), s.h)), buffer)
  {
    Starts(s, t, Res(ResStart(id)), buffer);
    var x1 := Go(s, s.threads, s.disp, t, Effect(s.sh, Some(Res(ResStart(id))), s.h), buffer);
    var x2 := Go(s, s.threads, s.disp, t, x1, buffer);
    var x3 := Go(s, s.threads, s.disp, t, x2, buffer);
    ReservationCounts(s, t, id, x3, buffer);
  }

  lemma ReservationCounts(s: State, t: Tid, id: TaskId, x: Effect, buffer: nat)
    requires Reaches(s, At(s.threads, s.disp, t, x), buffer)
    requires x == Effect(s.sh, Some(Res(ResListed(id, s.sh.agentRuns))), s.h)
    ensures var extra := |Outside(s.sh, s.sh.agentRuns)|;
            Reaches(s, At(s.threads, s.disp, t,
                          Effect(s.sh, Some(Res(ResCounted(id, extra, |s.sh.roster.active|))), s.h)), buffer)
  {
    OutsideIsCounted(s.sh, s.sh.agentRuns);
    var y := Go(s, s.threads, s.disp, t, x, buffer);
    var z := Go(s, s.threads, s.disp, t, y, buffer);
  }

  lemma ReservationAlone(s: State, t: Tid, id: TaskId, buffer: nat)
    requires t in s.threads && s.threads[t] == Res(ResStart(id)) && !s.disp.HoldsGateLock() && Reservable(s.sh, id)
    ensures Reaches(s, State(s.sh.(gate := s.sh.gate.(running := s.sh.gate.running + 1),
                                   roster := Roster(s.sh.roster.active + {id}, s.sh.roster.automation + {id})),
                             s.threads - {t}, s.disp, s.h), buffer)
  {
    var extra := |Outside(s.sh, s.sh.agentRuns)|;
    OutsideIsCounted(s.sh, s.sh.agentRuns);
    ReservationAsks(s, t, id, buffer);
    var x1 := Go(s, s.threads, s.disp, t,
                 Effect(s.sh, Some(Res(ResCounted(id, extra, |s.sh.roster.active|))), s.h), buffer);
    var x2 := Go(s, s.threads, s.disp, t, x1, buffer);
    ReservationCommits(s, t, id, x2, buffer);
  }

  lemma ReservationCommits(s: State, t: Tid, id: TaskId, x: Effect, buffer: nat)
    requires Reaches(s, At(s.threads, s.disp, t, x), buffer) && !s.disp.HoldsGateLock()
    requires x == Effect(s.sh.(gate := s.sh.gate.(running := s.sh.gate.running + 1)), Some(Res(ResHolding(id))), s.h)
    requires id !in s.sh.roster.active && |s.sh.roster.active| < s.sh.gate.max
    ensures Reaches(s, State(s.sh.(gate := s.sh.gate.(running := s.sh.gate.running + 1),
                                   roster := Roster(s.sh.roster.active + {id}, s.sh.roster.automation + {id})),
                             s.threads - {t}, s.disp, s.h), buffer)
  {
    var y := Go(s, s.threads, s.disp, t, x, buffer);
    var z := Go(s, s.threads, s.disp, t, y, buffer);
  }

  lemma ReservationRefused(s: State, t: Tid, id: TaskId, buffer: nat)
    requires t in s.threads && s.threads[t] == Res(ResStart(id)) && !s.disp.HoldsGateLock() && !Reservable(s.sh, id)
    ensures Reaches(s, s.(threads := s.threads - {t}), buffer)
  {
    if id != "" && id !in s.sh.roster.active && id !in s.sh.agentRuns {
      NoRoom(s, t, id, buffer);
    } else {
      Starts(s, t, Res(ResStart(id)), buffer);
      var x1 := Go(s, s.threads, s.disp, t, Effect(s.sh, Some(Res(ResStart(id))), s.h), buffer);
      if x1.next.Some? {
        var x2 := Go(s, s.threads, s.disp, t, x1, buffer);
      }
    }
  }

  lemma NoRoom(s: State, t: Tid, id: TaskId, buffer: nat)
    requires t in s.threads && s.threads[t] == Res(ResStart(id)) && !s.disp.HoldsGateLock() && !Reservable(s.sh, id)
    requires id != "" && id !in s.sh.roster.active && id !in s.sh.agentRuns
    ensures Reaches(s, s.(threads := s.threads - {t}), buffer)
  {
    var extra := |Outside(s.sh, s.sh.agentRuns)|;
    OutsideIsCounted(s.sh, s.sh.agentRuns);
    ReservationAsks(s, t, id, buffer);
    var x1 := Go(s, s.threads, s.disp, t,
                 Effect(s.sh, Some(Res(ResCounted(id, extra, |s.sh.roster.active|))), s.h), buffer);
    if x1.next.Some? {
      var x2 := Go(s, s.threads, s.disp, t, x1, buffer);
    }
  }

  /** Releasing a reservation frees the id and a slot, and wakes whoever waits; an id that is
      not reserved is left alone. */
  lemma ReleaseAlone(s: State, t: Tid, id: TaskId, buffer: nat)
    requires t in s.threads && s.threads[t] == Rel(RelStart(id)) && !s.disp.HoldsGateLock() && s.sh.gate.running > 0
    ensures if id != "" && id in s.sh.roster.automation then
              Reaches(s, State(s.sh.(gate := Gate(s.sh.gate.max, s.sh.gate.running - 1, s.sh.gate.wake + 1),
                                     roster := Roster(s.sh.roster.active - {id}, s.sh.roster.automation - {id})),
                               s.threads - {t}, s.disp, s.h), buffer)
            else Reaches(s, s.(threads := s.threads - {t}), buffer)
  {
    Starts(s, t, Rel(RelStart(id)), buffer);
    var x := Go(s, s.threads, s.disp, t, Effect(s.sh, Some(Rel(RelStart(id))), s.h), buffer);
    if x.next.Some? {
      var y := Go(s, s.threads, s.disp, t, x, buffer);
    }
  }

  // ---------------------------------------------------------------- the dispatcher

  /** acquireWorkerSlot's decision: the slot is granted exactly when the slots taken, and the
      listed runs outside the active set, leave room; otherwise the dispatcher waits. */
  lemma GrantedIff(s: State, t: Tid, buffer: nat)
    requires s.disp.Listed? && t !in s.threads
    ensures Enabled(s, Dispatch(t), buffer)
    ensures var s' := Apply(s, Dispatch(t), buffer);
            if s.sh.gate.running + |Outside(s.sh, s.disp.ids)| < s.sh.gate.max then
              s' == State(s.sh.(gate := s.sh.gate.(running := s.sh.gate.running + 1)),
                          s.threads[t := Job(JobStart(s.disp.item))], Idle,
                          s.h.(granted := s.h.granted + [s.h.taken - 1]))
            else s'.sh == s.sh && s'.threads == s.threads && s'.disp.Parked? && s'.disp.item == s.disp.item
  {
    OutsideIsCounted(s.sh, s.disp.ids);
  }

  /** In particular, the daemon's own jobs do not stand in their own way. */
  lemma OwnJobsAreNotCountedTwice(s: State, t: Tid, buffer: nat)
    requires s.disp.Listed? && t !in s.threads && s.disp.ids - {""} <= s.sh.roster.active
    requires s.sh.gate.running < s.sh.gate.max
    ensures Enabled(s, Dispatch(t), buffer) && Apply(s, Dispatch(t), buffer).sh.gate.running == s.sh.gate.running + 1
  {
    GrantedIff(s, t, buffer);
    assert Outside(s.sh, s.disp.ids) == {};
  }

  /** A queued item of the present activation becomes a running job when there is room. */
  lemma DispatchAlone(s: State, t: Tid, buffer: nat)
    requires s.disp.Idle? && s.sh.queue != [] && t !in s.threads
    requires s.sh.board.activated && s.sh.queue[0].generation == s.sh.board.generation
    requires s.sh.gate.running + |Outside(s.sh, s.sh.agentRuns)| < s.sh.gate.max
    ensures Reaches(s, State(s.sh.(gate := s.sh.gate.(running := s.sh.gate.running + 1), queue := s.sh.queue[1..]),
                             s.threads[t := Job(JobRun(s.sh.queue[0], s.sh.board.ctx))], Idle,
                             s.h.(taken := s.h.taken + 1, granted := s.h.granted + [s.h.taken])), buffer)
  {
    var item, c := s.sh.queue[0], s.sh.board.ctx;
    var s1 := s.(sh := s.sh.(queue := s.sh.queue[1..]), disp := Got(item), h := s.h.(taken := s.h.taken + 1));
    var s4 := s1.(disp := Listed(item, c, s.sh.agentRuns));
    Stays(s, buffer);
    Then(s, s, Dispatch(t), s1, buffer);
    DispatcherLooks(s, s1, t, item, buffer);
    GrantedIff(s4, t, buffer);
    var s5 := Apply(s4, Dispatch(t), buffer);
    Then(s, s4, Dispatch(t), s5, buffer);
    JobBegins(s, s5, t, item, buffer);
  }

  lemma DispatcherLooks(s: State, s1: State, t: Tid, item: Item, buffer: nat)
    requires Reaches(s, s1, buffer) && s1.disp == Got(item)
    requires s1.sh.board.activated && item.generation == s1.sh.board.generation
    ensures Reaches(s, s1.(disp := Listed(item, s1.sh.board.ctx, s1.sh.agentRuns)), buffer)
  {
    var c := s1.sh.board.ctx;
    Then(s, s1, Dispatch(t), s1.(disp := Acquiring(item, c)), buffer);
    Then(s, s1.(disp := Acquiring(item, c)), Dispatch(t), s1.(disp := Locked(item, c)), buffer);
    Then(s, s1.(disp := Locked(item, c)), Dispatch(t), s1.(disp := Listed(item, c, s1.sh.agentRuns)), buffer);
  }

  lemma JobBegins(s: State, s5: State, t: Tid, item: Item, buffer: nat)
    requires Reaches(s, s5, buffer) && t in s5.threads && s5.threads[t] == Job(JobStart(item))
    requires s5.sh.board.activated && item.generation == s5.sh.board.generation
    ensures Reaches(s, s5.(threads := s5.threads[t := Job(JobRun(item, s5.sh.board.ctx))]), buffer)
  {
    Then(s, s5, Run(t), s5.(threads := s5.threads[t := Job(JobRun(item, s5.sh.board.ctx))]), buffer);
  }

  /** An item of an earlier activation is dropped, and its id is free again. */
  lemma StaleItemIsDropped(s: State, t: Tid, buffer: nat)
    requires s.disp.Idle? && s.sh.queue != []
    requires !s.sh.board.activated || s.sh.queue[0].generation != s.sh.board.generation
    ensures Reaches(s, s.(sh := s.sh.(queue := s.sh.queue[1..],
                                      roster := s.sh.roster.(active := s.sh.roster.active - {s.sh.queue[0].id})),
                          h := s.h.(taken := s.h.taken + 1)), buffer)
  {
    var item := s.sh.queue[0];
    var s1 := s.(sh := s.sh.(queue := s.sh.queue[1..]), disp := Got(item), h := s.h.(taken := s.h.taken + 1));
    Stays(s, buffer);
    Then(s, s, Dispatch(t), s1, buffer);
    Then(s, s1, Dispatch(t), s1.(disp := Dropping(item)), buffer);
    var s3 := s1.(sh := s1.sh.(roster := s1.sh.roster.(active := s.sh.roster.active - {item.id})), disp := Idle);
    Then(s, s1.(disp := Dropping(item)), Dispatch(t), s3, buffer);
    assert s3 == s.(sh := s3.sh, h := s3.h);
  }

  /** A job that is over frees its id and its slot, and wakes whoever waits. */
  lemma JobAlone(s: State, t: Tid, item: Item, c: Ctx, buffer: nat)
    requires t in s.threads && s.threads[t] == Job(JobRun(item, c)) && !s.disp.HoldsGateLock() && s.sh.gate.running > 0
    ensures Reaches(s, State(s.sh.(gate := Gate(s.sh.gate.max, s.sh.gate.running - 1, s.sh.gate.wake + 1),
                                   roster := s.sh.roster.(active := s.sh.roster.active - {item.id})),
                             s.threads - {t}, s.disp, s.h), buffer)
  {
    Starts(s, t, Job(JobRun(item, c)), buffer);
    var x1 := Go(s, s.threads, s.disp, t, Effect(s.sh, Some(Job(JobRun(item, c))), s.h), buffer);
    var x2 := Go(s, s.threads, s.disp, t, x1, buffer);
    var x3 := Go(s, s.threads, s.disp, t, x2, buffer);
  }

  // ---------------------------------------------------------------- limit, activations, agent runs

  /** A new limit counts at once, between 1 and the number of processors, and wakes whoever waits;
      the slots taken stay taken. */
  lemma ResizeAlone(s: State, n: int, cpus: int, buffer: nat)
    requires !s.disp.HoldsGateLock()
    ensures Enabled(s, SetMax(n, cpus), buffer)
    ensures var limit := if n < 1 || cpus < 1 then 1 else if n < cpus then n else cpus;
            Apply(s, SetMax(n, cpus), buffer)
            == s.(sh := s.sh.(gate := Gate(limit, s.sh.gate.running, s.sh.gate.wake + 1)))
  {
  }

  /** An activation is the next generation, under a context of its own. */
  lemma ActivateAlone(s: State, c: Ctx, buffer: nat)
    requires !s.sh.board.activated && c !in s.h.stamp
    ensures Enabled(s, Activate(c), buffer)
    ensures var g := s.sh.board.generation + 1;
            Apply(s, Activate(c), buffer)
            == s.(sh := s.sh.(board := Board(true, g, c)), h := s.h.(stamp := s.h.stamp[c := g]))
  {
  }

  /** A deactivation ends the present activation and cancels its context; when nothing is active
      any more, the reservations are forgotten too. Queue and slots stay. */
  lemma DeactivateAlone(s: State, t: Tid, buffer: nat)
    requires s.sh.board.activated && t !in s.threads && s.sh.roster.active == {}
    ensures Reaches(s, s.(sh := s.sh.(board := Board(false, s.sh.board.generation, s.sh.board.ctx),
                                      cancelled := s.sh.cancelled + {s.sh.board.ctx}, roster := Roster({}, {}))),
                    buffer)
  {
    var s1 := Apply(s, Deactivate(t), buffer);
    Stays(s, buffer);
    Then(s, s, Deactivate(t), s1, buffer);
    var start := Effect(s1.sh, Some(Dea(DeaCancel(s.sh.board.ctx))), s.h);
    assert At(s.threads, s.disp, t, start) == s1;
    var x1 := Go(s, s.threads, s.disp, t, start, buffer);
    var x2 := Go(s, s.threads, s.disp, t, x1, buffer);
    var x3 := Go(s, s.threads, s.disp, t, x2, buffer);
    assert s.threads - {t} == s.threads;
  }

  /** An agent run that begins or ends is listed or no longer listed, and wakes whoever waits. */
  lemma AgentRunAlone(s: State, t: Tid, id: TaskId, buffer: nat)
    requires t !in s.threads && !s.disp.HoldsGateLock()
    ensures var woken := s.sh.gate.(wake := s.sh.gate.wake + 1);
            var ids := if id in s.sh.agentRuns then s.sh.agentRuns - {id} else s.sh.agentRuns + {id};
            Reaches(s, s.(sh := s.sh.(agentRuns := ids, gate := woken)), buffer)
  {
    var st := if id in s.sh.agentRuns then AgentRemove(t, id) else AgentAdd(t, id);
    var s1 := Apply(s, st, buffer);
    Stays(s, buffer);
    Then(s, s, st, s1, buffer);
    assert At(s.threads, s.disp, t, Effect(s1.sh, Some(AgentOwes(id)), s.h)) == s1;
    var x := Go(s, s.threads, s.disp, t, Effect(s1.sh, Some(AgentOwes(id)), s.h), buffer);
    assert s.threads - {t} == s.threads;
  }
}
