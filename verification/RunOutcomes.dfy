/** How agent runs end, in every race. */
module RunOutcomes {
  import opened Wrappers
  import opened RunLifecycle
  import opened RunLaunched
  import opened RunAdopted

  ghost predicate Inv(s: State) { (Launched(s) || AdoptedRun(s)) && MarkKept(s) }

  lemma StepKeepsInv(s: State, st: Step)
    requires Inv(s) && Enabled(s, st)
    ensures Inv(Apply(s, st)) && Apply(s, st).origin == s.origin
  {
    if Launched(s) { LaunchedStep(s, st); } else { AdoptedStep(s, st); }
  }

  lemma {:induction false} InvSchedule(s: State, steps: seq<Step>)
    requires Inv(s) && Schedule(s, steps)
    ensures Inv(Final(s, steps)) && Final(s, steps).origin == s.origin
    decreases |steps|
  {
    if steps != [] {
      StepKeepsInv(s, steps[0]);
      InvSchedule(Apply(s, steps[0]), steps[1..]);
    }
  }

  lemma ReachableInv(s: State, origin: Origin)
    requires Reachable(s, origin)
    ensures Inv(s) && s.origin == origin && (origin == Adopted <==> AdoptedRun(s))
  {
    var steps :| Schedule(Init(origin), steps) && Final(Init(origin), steps) == s;
    if origin == Adopted { AdoptedInit(); } else { LaunchedInit(origin); }
    InvSchedule(Init(origin), steps);
  }

  // ---------------------------------------------------------------- what the runs guarantee

  /** At every moment of every race the terminal body has begun at most once and the worker
      was released at most once. */
  lemma AtMostOneBody(s: State, origin: Origin)
    requires Reachable(s, origin)
    ensures s.h.bodies <= 1 && s.h.releases <= s.h.bodies
    ensures s.h.releases == 1 ==> origin == Direct
    ensures forall t, u :: t in s.threads && u in s.threads && s.threads[t].InBody() && s.threads[u].InBody() ==> t == u
  {
    ReachableInv(s, origin);
  }

  /** Another run registered right before the body's delete. */
  predicate TookOver(trail: seq<Turn>) {
    exists i :: 0 <= i < |trail| - 1 && trail[i] == Registered && trail[i + 1] == Deleted
  }

  lemma {:induction false} EvictionsCount(trail: seq<Turn>)
    ensures Evictions(trail) > 0 <==> TookOver(trail)
  {
    if |trail| >= 2 {
      var n := |trail| - 1;
      EvictionsCount(trail[..n]);
      assert forall i :: 0 <= i < n ==> trail[..n][i] == trail[i];
    }
  }

  /** The body deletes another run's entry exactly when that run was the last to register
      before it, and that takes an entry that had already gone: to an older run's body or,
      for an adopted run, to its monitor, which had read a record in the log. */
  lemma EvictsIffTakenOver(s: State, origin: Origin)
    requires Reachable(s, origin)
    ensures s.h.evictions <= 1 && (s.h.evictions == 1 <==> TookOver(s.h.trail))
    ensures TookOver(s.h.trail) ==> s.h.trail[0] == Evicted || (s.h.trail[0] == Removed && origin == Adopted)
    ensures StartsRemoved(s.h.trail) ==> s.h.record.Some? || s.h.appended != {}
  {
    ReachableInv(s, origin);
    EvictionsCount(s.h.trail);
    if TookOver(s.h.trail) { FirstIsNoDelete(s); }
  }

  lemma FirstIsNoDelete(s: State)
    requires Turnover(s) && s.h.evictions > 0
    ensures s.h.trail != [] && s.h.trail[0] != Deleted
  {
  }

  /** A launched run, once every participant is done: one terminal body, the worker back
      exactly once, Done closed and the entry gone. The body's record says `cancelled` exactly
      when the mark preceded the exit path's look at it. It is the run's only record if and
      only if no recovery pass straddled the end: read a log without it and afterwards,
      finding no entry or not asking for one, the process dead. */
  lemma LaunchedRunEndsOnce(s: State, origin: Origin)
    requires origin != Adopted && Reachable(s, origin) && AllGone(s)
    ensures s.sh.once == Closed && s.h.bodies == 1 && s.sh.doneClosed && s.sh.entry != Mine
    ensures s.h.releases == if origin == Direct then 1 else 0
    ensures s.h.record.Some? && Line(Body, s.h.record.value) in s.sh.log
    ensures |s.sh.log| == 1 <==> s.h.straddlers == {}
    ensures |s.sh.log| == 1 + |s.h.straddlers|
    ensures forall l :: l in s.sh.log && l.writer == Body ==> l.status == s.h.record.value
    ensures s.h.record == Some(Cancelled) <==> s.h.saw == SawCancelled
    ensures s.h.saw == SawRunning ==> s.h.record == Some(Success) || s.h.record == Some(Failed)
  {
    ReachableInv(s, origin);
    assert LaunchedPc(s, EXIT, s.threads[EXIT]);
    assert !CancelOwed(s);
    AllAppended(s);
  }

  lemma AllAppended(s: State)
    requires Tally(s) && AllGone(s)
    ensures s.h.appended == s.h.straddlers
  {
    forall t | t in s.h.straddlers
      ensures t in s.h.appended
    {
      assert !Appending(s.threads[t]);
    }
  }

  /** If the entry stayed until the body's own delete and every pass asked for it, the body's
      record comes first, and no other run lost its entry to this one. */
  lemma UndisturbedRunRecordsFirst(s: State, origin: Origin)
    requires origin != Adopted && Reachable(s, origin) && AllGone(s) && Evicted !in s.h.trail && !s.h.blind
    ensures s.sh.log != [] && s.h.record == Some(s.sh.log[0].status) && s.sh.log[0].writer == Body && s.h.evictions == 0
  {
    ReachableInv(s, origin);
    LaunchedRunEndsOnce(s, origin);
    assert s.sh.log[0] in s.sh.log;
  }

  /** When recordTerminal does not write the status it records: after an exit, if the agent
      has asked for the user, or a successful review has sent the task back. */
  predicate CarvedOut(g: Glance, status: Status) {
    (g.cursor == NeedsUser && (status == Success || status == Failed)) || (g.handoff && status == Success)
  }

  /** AgentStatus at the end is what was written last. Unless a recovery pass or an agent has
      written it since, it repeats the record if and only if neither carve-out applied to what
      recordTerminal saw. */
  lemma AgentStatusRepeatsIff(s: State, origin: Origin)
    requires origin != Adopted && Reachable(s, origin) && AllGone(s)
    ensures s.h.record.Some? && s.h.look.Some? && s.h.look.value.handoff == s.sh.handoff
    ensures s.sh.agentStatus == Ending(s.h)
    ensures s.h.late.None? ==>
              (s.sh.agentStatus == s.h.record.value <==> !CarvedOut(s.h.look.value, s.h.record.value))
    ensures s.h.late.Some? ==>
              (s.sh.agentStatus == s.h.record.value <==> s.h.late == s.h.record)
    ensures s.h.record == Some(Cancelled) && s.h.late.None? ==> s.sh.agentStatus == Cancelled
  {
    ReachableInv(s, origin);
    LaunchedRunEndsOnce(s, origin);
  }

  /** An adopted run: at most one terminal body, no worker released, the entry gone. Its
      records are the body's, one by a monitor that found the entry gone, and those of the
      passes that straddled the end. */
  lemma AdoptedRunEndsOnce(s: State)
    requires Reachable(s, Adopted) && AllGone(s)
    ensures s.h.bodies <= 1 && s.h.releases == 0 && s.sh.entry != Mine
    ensures |s.sh.log| == s.h.bodies + |s.h.straddlers| + if s.h.orphaned then 1 else 0
    ensures s.h.bodies == 1 ==>
              && s.h.record.Some? && Line(Body, s.h.record.value) in s.sh.log
              && (s.h.record == Some(Cancelled) || (s.h.record == Some(Lost) && s.h.saw == SawRunning))
              && (|s.sh.log| == 1 <==> s.h.straddlers == {} && !s.h.orphaned)
              && s.sh.agentStatus == (if s.h.late.Some? then s.h.late.value else s.h.record.value)
    ensures s.h.saw == SawCancelled ==> s.h.record == Some(Cancelled)
    ensures s.h.record == Some(Cancelled) ==> s.sh.cancelled
  {
    ReachableInv(s, Adopted);
    assert AdoptedPc(s, EXIT, s.threads[EXIT]);
    assert !CancelOwed(s);
    AllAppended(s);
  }

  /** The terminal body of an adopted run is missing only when its entry was deleted by an
      older run's body or a recovery pass ended the run first. A monitor that finds the entry
      gone although nothing evicted it adds its record to the canceller's. */
  lemma UndisturbedAdoptedRun(s: State)
    requires Reachable(s, Adopted) && AllGone(s) && Evicted !in s.h.trail && s.h.straddlers == {}
    ensures s.h.bodies == 1
    ensures s.h.orphaned ==> s.h.record == Some(Cancelled)
    ensures s.h.orphaned && !s.h.blind ==> s.sh.log == [Line(Body, Cancelled), Line(Monitor, Lost)]
  {
    ReachableInv(s, Adopted);
    assert AdoptedPc(s, EXIT, s.threads[EXIT]);
    assert !CancelOwed(s);
    AllAppended(s);
    AdoptedRunEndsOnce(s);
    if s.h.orphaned && !s.h.blind {
      assert |s.sh.log| == 2 && s.sh.log[0] in s.sh.log && s.sh.log[1] in s.sh.log;
      assert s.sh.log[0].writer == Body && s.sh.log[1].writer == Monitor;
    }
  }

  /** A step of a participant, as opposed to one of the environment. */
  predicate Own(st: Step) { st.Run? || st.Outcome? || st.Alternative? }

  /** No race deadlocks: while a participant is not done, some participant can move. */
  lemma NoDeadlock(s: State, origin: Origin, t: Tid)
    requires Reachable(s, origin) && t in s.threads && s.threads[t] != Gone
    ensures exists st :: Own(st) && Enabled(s, st)
  {
    ReachableInv(s, origin);
    if s.sh.once.Busy? {
      assert Enabled(s, Run(s.sh.once.t));
    } else if s.threads[t].Rec? {
      assert Enabled(s, if s.threads[t].r.RecProbe? then Alternative(t) else Run(t));
    } else if origin == Adopted {
      assert AdoptedPc(s, t, s.threads[t]);
      assert Enabled(s, if s.threads[t] == Canc(CancelGrace) then Alternative(t) else Run(t));
    } else {
      LaunchedMoves(s, t);
    }
  }

  lemma LaunchedMoves(s: State, t: Tid)
    requires Launched(s) && !s.sh.once.Busy? && t in s.threads && s.threads[t] != Gone && !s.threads[t].Rec?
    ensures exists st :: Own(st) && Enabled(s, st)
  {
    assert LaunchedPc(s, EXIT, s.threads[EXIT]);
    assert LaunchedPc(s, t, s.threads[t]);
    if s.threads[EXIT] == Exit(ExitRunning) {
      assert Enabled(s, Outcome(Success));
    } else if s.threads[EXIT] != Gone {
      assert Enabled(s, Run(EXIT));
    } else {
      assert Enabled(s, if s.threads[t] == Watch(WatchWait) then Alternative(t) else Run(t));
    }
  }
}
