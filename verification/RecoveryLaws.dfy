/** What a recovery pass writes, told from the task's history and the world. */
module RecoveryLaws {
  import opened Wrappers
  import opened EventLog
  import opened LogLaws
  import opened Recovery

  /** Some line captured a session of the run. */
  ghost predicate HasSession(log: seq<Event>, r: RunId) {
    exists i :: 0 <= i < |log| && log[i].run == r && log[i].kind == Session && log[i].session != ""
  }

  predicate Tracked(w: World, r: RunId) { w.skipTracked && w.tracked == Some(r) }

  /** The run's last known process, if there is one, is not alive as the run's agent, or as the
      task's when no line names one. */
  ghost predicate Dead(w: World, log: seq<Event>, r: RunId) {
    forall pid, agent :: SaysPid(log, r, pid) && SaysAgent(log, r, agent) ==>
      !(pid > 0 && w.live(pid, if agent == "" then w.taskAgent else agent))
  }

  /** Neither recorded, nor tracked, nor alive. */
  ghost predicate Abandoned(w: World, log: seq<Event>, r: RunId) {
    !Occurs(log, r, Finished) && !Tracked(w, r) && Dead(w, log, r)
  }

  /** The record a pass gives such a run: interrupted if a session was captured, so that it can
      be resumed, and lost otherwise. */
  ghost function Record(log: seq<Event>, r: RunId): Event {
    if HasSession(log, r) then
      Event(r, Finished, "", "", 0, Interrupted, -1, "interrupted by daemon restart", "", "", None, "", "", "", "")
    else Event(r, Finished, "", "", 0, Lost, -1, "stale after restart", "", "", None, "", "", "", "")
  }

  // ---------------------------------------------------------------- a run's view and its lines

  lemma SessionByLog(log: seq<Event>, r: RunId, session: string)
    requires SaysSession(log, r, session)
    ensures session != "" <==> HasSession(log, r)
  {
  }

  lemma FinishedByLog(log: seq<Event>, r: RunId, f: Option<FinishedEvent>)
    requires SaysFinished(log, r, f)
    ensures f.Some? <==> Occurs(log, r, Finished)
  {
  }

  lemma DeadByLog(w: World, log: seq<Event>, r: RunId, pid: int, agent: string)
    requires SaysPid(log, r, pid) && SaysAgent(log, r, agent)
    ensures Dead(w, log, r) <==> !(pid > 0 && w.live(pid, if agent == "" then w.taskAgent else agent))
  {
    forall p, a | SaysPid(log, r, p) && SaysAgent(log, r, a)
      ensures p == pid && a == agent
    {
      OneAnswer(log, r, (e: Event) => (e.kind == Started || e.kind == Session) && e.pid > 0, (e: Event) => e.pid,
                0, p, pid);
      OneAnswer(log, r, (e: Event) => (e.kind == Queued || e.kind == Started) && e.agent != "", (e: Event) => e.agent,
                "", a, agent);
    }
  }

  lemma StaleByLog(w: World, log: seq<Event>, k: nat)
    requires k < |Order(log)|
    ensures k < |Views(log)| && (w.Stale(Views(log)[k]) <==> Abandoned(w, log, Order(log)[k]))
    ensures var end := Record(log, Order(log)[k]);
            EndingOf(Views(log)[k]) == Append(Order(log)[k], end.status, end.reason)
  {
    var v, r := Views(log)[k], Order(log)[k];
    ViewByLog(log, k);
    SessionByLog(log, r, v.session);
    FinishedByLog(log, r, v.finished);
    DeadByLog(w, log, r, v.pid, v.agent);
  }

  // ---------------------------------------------------------------- the lines a pass adds

  function Flat(f: nat -> seq<Event>, n: nat): seq<Event> { if n == 0 then [] else Flat(f, n - 1) + f(n - 1) }

  lemma {:induction false} SamePieces(f: nat -> seq<Event>, g: nat -> seq<Event>, n: nat)
    requires forall k: nat :: k < n ==> f(k) == g(k)
    ensures Flat(f, n) == Flat(g, n)
  {
    if n > 0 {
      SamePieces(f, g, n - 1);
    }
  }

  /** The record of an abandoned run, for the run's place in the order. */
  ghost function RecordOf(w: World, log: seq<Event>): nat -> seq<Event> {
    (k: nat) => if k < |Order(log)| && Abandoned(w, log, Order(log)[k]) then [Record(log, Order(log)[k])] else []
  }

  /** One record for each abandoned run, in the order of the runs. */
  ghost function Records(w: World, log: seq<Event>): seq<Event> { Flat(RecordOf(w, log), |Order(log)|) }

  function LineOf(w: World, vs: seq<View>): nat -> seq<Event> {
    (k: nat) =>
      if k < |vs| && w.Stale(vs[k]) then [FinishedLine(vs[k].run, Verdict(vs[k]), VerdictReason(vs[k]))] else []
  }

  lemma TreatAdds(w: World, c: Disk, v: View, latest: bool)
    ensures DoAll(c, Treat(w, v, latest)).log
            == c.log + if w.Stale(v) then [FinishedLine(v.run, Verdict(v), VerdictReason(v))] else []
  {
    var e := Append(v.run, Verdict(v), VerdictReason(v));
    if w.Stale(v) {
      DoOneOrTwo(c, e, Edit(Verdict(v)));
    } else if v.finished.Some? && !w.Skips(v.run) && latest {
      DoOneOrTwo(c, Edit(v.finished.value.status), e);
    } else {
      assert Treat(w, v, latest) == [];
    }
  }

  lemma {:induction false} TreatAllAdds(w: World, d: Disk, vs: seq<View>, n: nat)
    requires n <= |vs|
    ensures DoAll(d, TreatAll(w, vs, n)).log == d.log + Flat(LineOf(w, vs), n)
  {
    if n == 0 {
      NothingAdded(d);
    } else {
      TreatAllAdds(w, d, vs, n - 1);
      OneRunAdds(w, d, vs, n, TreatAll(w, vs, n - 1), Flat(LineOf(w, vs), n - 1),
                 TreatAll(w, vs, n), Flat(LineOf(w, vs), n));
    }
  }

  lemma NothingAdded(d: Disk)
    ensures DoAll(d, []).log == d.log + []
  {
  }

  lemma OneRunAdds(w: World, d: Disk, vs: seq<View>, n: nat, es: seq<Effect>, lines: seq<Event>,
                   es': seq<Effect>, lines': seq<Event>)
    requires 0 < n <= |vs| && DoAll(d, es).log == d.log + lines
    requires es' == es + Treat(w, vs[n - 1], n == |vs|) && lines' == lines + LineOf(w, vs)(n - 1)
    ensures DoAll(d, es').log == d.log + lines'
  {
    DoAllConcat(d, es, Treat(w, vs[n - 1], n == |vs|));
    TreatAdds(w, DoAll(d, es), vs[n - 1], n == |vs|);
    assert d.log + lines + LineOf(w, vs)(n - 1) == d.log + lines';
  }

  lemma LineIsTheRecord(w: World, log: seq<Event>, k: nat)
    requires k < |Order(log)|
    ensures LineOf(w, Views(log))(k) == RecordOf(w, log)(k)
  {
    StaleByLog(w, log, k);
    assert Views(log)[k].run == Order(log)[k];
  }

  lemma LinesAreRecords(w: World, log: seq<Event>)
    ensures Flat(LineOf(w, Views(log)), |Order(log)|) == Records(w, log)
  {
    forall k: nat | k < |Order(log)|
      ensures LineOf(w, Views(log))(k) == RecordOf(w, log)(k)
    {
      LineIsTheRecord(w, log, k);
    }
    SamePieces(LineOf(w, Views(log)), RecordOf(w, log), |Order(log)|);
  }

  lemma {:induction false} Collected(f: nat -> seq<Event>, run: nat -> RunId, n: nat)
    requires forall k: nat :: k < n ==> |f(k)| <= 1 && forall l :: l in f(k) ==> l.run == run(k)
    requires forall i: nat, j: nat :: i < j < n ==> run(i) != run(j)
    ensures forall l :: l in Flat(f, n) <==> exists k: nat :: k < n && l in f(k)
    ensures forall i, j :: 0 <= i < j < |Flat(f, n)| ==> Flat(f, n)[i].run != Flat(f, n)[j].run
  {
    if n > 0 {
      Collected(f, run, n - 1);
      OneMoreCollected(Flat(f, n - 1), f, run, n);
    }
  }

  lemma OneMoreCollected(before: seq<Event>, f: nat -> seq<Event>, run: nat -> RunId, n: nat)
    requires n > 0 && |f(n - 1)| <= 1 && forall l :: l in f(n - 1) ==> l.run == run(n - 1)
    requires forall k: nat, l :: k < n - 1 && l in f(k) ==> l.run == run(k)
    requires forall i: nat, j: nat :: i < j < n ==> run(i) != run(j)
    requires forall l :: l in before <==> exists k: nat :: k < n - 1 && l in f(k)
    requires forall i, j :: 0 <= i < j < |before| ==> before[i].run != before[j].run
    ensures var all := before + f(n - 1);
            && (forall l :: l in all <==> exists k: nat :: k < n && l in f(k))
            && (forall i, j :: 0 <= i < j < |all| ==> all[i].run != all[j].run)
  {
    var all := before + f(n - 1);
    forall l
      ensures l in all <==> exists k: nat :: k < n && l in f(k)
    {
      if l in before {
        var k: nat :| k < n - 1 && l in f(k);
        assert k < n && l in f(k);
      }
    }
    forall i, j | 0 <= i < j < |all|
      ensures all[i].run != all[j].run
    {
      if j == |before| {
        assert all[j] in f(n - 1) && all[i] in before;
        var k: nat :| k < n - 1 && all[i] in f(k);
      }
    }
  }

  /** The records are those of exactly the abandoned runs, one each. */
  lemma RecordsAre(w: World, log: seq<Event>)
    ensures forall l :: l in Records(w, log) <==>
              l.run in Order(log) && Abandoned(w, log, l.run) && l == Record(log, l.run)
    ensures forall i, j :: 0 <= i < j < |Records(w, log)| ==> Records(w, log)[i].run != Records(w, log)[j].run
  {
    var f, n := RecordOf(w, log), |Order(log)|;
    OrderIsFirstAppearances(log);
    Collected(f, (k: nat) => if k < |Order(log)| then Order(log)[k] else "", n);
    forall l
      ensures l in Flat(f, n) <==> l.run in Order(log) && Abandoned(w, log, l.run) && l == Record(log, l.run)
    {
      if l in Flat(f, n) {
        var k: nat :| k < n && l in f(k);
        PieceIs(w, log, k, l);
      }
      if l.run in Order(log) {
        var k: nat :| k < n && Order(log)[k] == l.run;
        PieceIs(w, log, k, l);
      }
    }
  }

  lemma PieceIs(w: World, log: seq<Event>, k: nat, l: Event)
    requires k < |Order(log)|
    ensures l in RecordOf(w, log)(k) <==> Abandoned(w, log, Order(log)[k]) && l == Record(log, Order(log)[k])
    ensures l in RecordOf(w, log)(k) ==> l.run == Order(log)[k]
  {
  }

  // ---------------------------------------------------------------- a whole pass

  /** A pass over a task with runs adds exactly one record for each abandoned run and no other
      line. */
  lemma PassAddsRecords(w: World, d: Disk)
    requires d.agentStatus == Running && Order(d.log) != []
    ensures Pass(w, d).log == d.log + Records(w, d.log)
  {
    TreatAllAdds(w, d, Views(d.log), |Views(d.log)|);
    LinesAreRecords(w, d.log);
  }

  /** A tracked or living run leaves AgentStatus alone, a recorded one gives it its last status,
      an abandoned one the status of its new record. */
  ghost predicate StatusAfter(w: World, log: seq<Event>, last: RunId, status: AgentStatus) {
    if Tracked(w, last) then status == Running
    else if Occurs(log, last, Finished) then
      exists f :: SaysFinished(log, last, Some(f)) && status == Ended(f.status)
    else status == if Dead(w, log, last) then Ended(Record(log, last).status) else Running
  }

  /** And AgentStatus follows the latest run. */
  lemma PassSetsStatus(w: World, d: Disk)
    requires d.agentStatus == Running && Order(d.log) != []
    ensures StatusAfter(w, d.log, Order(d.log)[|Order(d.log)| - 1], Pass(w, d).agentStatus)
  {
    PassSettles(w, d);
    LatestSettles(w, d.log, |Order(d.log)| - 1, Pass(w, d).agentStatus);
  }

  lemma LatestSettles(w: World, log: seq<Event>, k: nat, status: AgentStatus)
    requires k < |Order(log)|
    requires var s := Settled(w, Views(log)[k]);
             status == if s.finished.Some? && !w.Skips(s.run) then Ended(s.finished.value.status) else Running
    ensures StatusAfter(w, log, Order(log)[k], status)
  {
    ViewByLog(log, k);
    StaleByLog(w, log, k);
    FinishedByLog(log, Order(log)[k], Views(log)[k].finished);
    StatusOfView(w, log, Views(log)[k], status);
  }

  lemma StatusOfView(w: World, log: seq<Event>, v: View, status: AgentStatus)
    requires var s := Settled(w, v);
             status == if s.finished.Some? && !w.Skips(s.run) then Ended(s.finished.value.status) else Running
    requires SaysFinished(log, v.run, v.finished) && (v.finished.Some? <==> Occurs(log, v.run, Finished))
    requires w.Stale(v) <==> Abandoned(w, log, v.run)
    requires EndingOf(v) == Append(v.run, Record(log, v.run).status, Record(log, v.run).reason)
    ensures StatusAfter(w, log, v.run, status)
  {
    if v.finished.Some? {
      assert SaysFinished(log, v.run, Some(v.finished.value));
    }
  }

  // ---------------------------------------------------------------- the other two cases

  /** Without any run in the log, one is made up and lost, under a fresh id, unless some run of the
      task is tracked. */
  lemma PassMakesUpARun(w: World, d: Disk)
    requires d.agentStatus == Running && Order(d.log) == []
    ensures Pass(w, d)
            == if w.skipTracked && w.tracked.Some? then d
               else Disk(d.log + [Event(w.freshRun, Finished, "", "", 0, Lost, -1, "running without JSONL",
                                        "", "", None, "", "", "", "")], Ended(Lost))
  {
    if !(w.skipTracked && w.tracked.Some?) {
      DoOneOrTwo(d, Append(w.freshRun, Lost, "running without JSONL"), Edit(Lost));
    }
  }

  /** A task that is not running is left alone. */
  lemma PassLeavesOthers(w: World, d: Disk)
    requires d.agentStatus != Running
    ensures Pass(w, d) == d
  {
  }
}
