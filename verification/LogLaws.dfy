/** What the readers of a run history find, told from the log's lines. */
module LogLaws {
  import opened Wrappers
  import opened EventLog

  // Line `i` of the log is `log[i]`. The laws name the kinds of events and their fields, not the
  // readers' own predicates.

  /** Line `i` is the last of run `r` that `p` picks. */
  ghost predicate LastAt(log: seq<Event>, r: RunId, p: Event -> bool, i: nat) {
    && i < |log| && log[i].run == r && p(log[i])
    && forall j :: i < j < |log| && log[j].run == r ==> !p(log[j])
  }

  ghost predicate Nowhere(log: seq<Event>, r: RunId, p: Event -> bool) {
    forall i :: 0 <= i < |log| && log[i].run == r ==> !p(log[i])
  }

  /** `value` is what the last such line says, or `none` without one. */
  ghost predicate Says<T(!new)>(log: seq<Event>, r: RunId, p: Event -> bool, f: Event -> T, none: T, value: T) {
    (exists i: nat :: LastAt(log, r, p, i) && value == f(log[i])) || (Nowhere(log, r, p) && value == none)
  }

  /** `o` is the last of run `r`'s lines that `p` picks. */
  ghost predicate LastIs(log: seq<Event>, r: RunId, p: Event -> bool, o: Option<Event>) {
    match o
    case None => Nowhere(log, r, p)
    case Some(e) => exists i: nat :: LastAt(log, r, p, i) && log[i] == e
  }

  lemma {:induction false} LastLine(log: seq<Event>, r: RunId, p: Event -> bool)
    ensures LastIs(log, r, p, LastWhere(OfRun(log, r), p))
  {
    if log != [] {
      var n := |log| - 1;
      LastLine(log[..n], r, p);
      LastOfMore(log, r, p);
      OneLineMore(log[..n], log[n], r, p, LastWhere(OfRun(log[..n], r), p));
      assert log[..n] + [log[n]] == log;
    }
  }

  lemma OneLineMore(log: seq<Event>, e: Event, r: RunId, p: Event -> bool, o: Option<Event>)
    requires LastIs(log, r, p, o)
    ensures LastIs(log + [e], r, p, if e.run == r && p(e) then Some(e) else o)
  {
    if e.run == r && p(e) {
      assert LastAt(log + [e], r, p, |log|);
    } else if o.Some? {
      var i: nat :| LastAt(log, r, p, i) && log[i] == o.value;
      LastStays(log, e, r, p, i);
    }
  }

  lemma LastStays(log: seq<Event>, e: Event, r: RunId, p: Event -> bool, i: nat)
    requires LastAt(log, r, p, i) && !(e.run == r && p(e))
    ensures LastAt(log + [e], r, p, i) && (log + [e])[i] == log[i]
  {
  }

  lemma LastOfMore(log: seq<Event>, r: RunId, p: Event -> bool)
    requires log != []
    ensures var n := |log| - 1;
            LastWhere(OfRun(log, r), p)
            == if log[n].run == r && p(log[n]) then Some(log[n]) else LastWhere(OfRun(log[..n], r), p)
  {
    var n := |log| - 1;
    var before := OfRun(log[..n], r);
    if log[n].run == r {
      assert (before + [log[n]])[..|before|] == before;
    } else {
      assert before + [] == before;
    }
  }

  lemma SaysLast<T(!new)>(log: seq<Event>, r: RunId, p: Event -> bool, q: Event -> bool, f: Event -> T, none: T)
    requires forall e :: p(e) == q(e)
    ensures var o := LastWhere(OfRun(log, r), p); Says(log, r, q, f, none, if o.Some? then f(o.value) else none)
  {
    var o := LastWhere(OfRun(log, r), p);
    LastLine(log, r, p);
    if o.Some? {
      var i: nat :| LastAt(log, r, p, i) && log[i] == o.value;
      assert LastAt(log, r, q, i);
    }
  }

  /** There is one answer. */
  lemma OneAnswer<T(!new)>(log: seq<Event>, r: RunId, p: Event -> bool, f: Event -> T, none: T, a: T, b: T)
    requires Says(log, r, p, f, none, a) && Says(log, r, p, f, none, b)
    ensures a == b
  {
    if i: nat :| LastAt(log, r, p, i) && a == f(log[i]) {
      var j: nat :| LastAt(log, r, p, j) && b == f(log[j]);
      assert !(i < j) && !(j < i);
    }
  }

  // ---------------------------------------------------------------- the order of the runs

  /** The line with which run `r` first appears. */
  ghost predicate AppearsAt(log: seq<Event>, r: RunId, i: nat) {
    i < |log| && log[i].run == r && forall j :: 0 <= j < i ==> log[j].run != r
  }

  /** Runs are listed in the order of their first lines. */
  lemma {:induction false} OrderByFirstLine(log: seq<Event>, a: nat, b: nat, i: nat, j: nat)
    requires a < b < |Order(log)| && AppearsAt(log, Order(log)[a], i) && AppearsAt(log, Order(log)[b], j)
    ensures i < j
    decreases |log|
  {
    var n := |log| - 1;
    OrderIsFirstAppearances(log[..n]);
    if b < |Order(log[..n])| {
      FirstLineBefore(log, Order(log)[a], i);
      FirstLineBefore(log, Order(log)[b], j);
      OrderByFirstLine(log[..n], a, b, i, j);
    } else {
      FirstLineBefore(log, Order(log)[a], i);
      assert forall k :: 0 <= k < n ==> log[k] == log[..n][k];
    }
  }

  lemma FirstLineBefore(log: seq<Event>, r: RunId, i: nat)
    requires log != [] && AppearsAt(log, r, i) && r in Order(log[..|log| - 1])
    ensures AppearsAt(log[..|log| - 1], r, i)
  {
    var n := |log| - 1;
    OrderIsFirstAppearances(log[..n]);
    var k :| 0 <= k < n && log[..n][k].run == r;
    assert log[k].run == r && i <= k;
    assert forall j :: 0 <= j < n ==> log[..n][j] == log[j];
  }

  // ---------------------------------------------------------------- the readers

  /** The agent of the last queued or started line that has one. */
  ghost predicate SaysAgent(log: seq<Event>, r: RunId, agent: string) {
    Says(log, r, (e: Event) => (e.kind == Queued || e.kind == Started) && e.agent != "", (e: Event) => e.agent,
         "", agent)
  }

  /** The process of the last started or session line that has one. */
  ghost predicate SaysPid(log: seq<Event>, r: RunId, pid: int) {
    Says(log, r, (e: Event) => (e.kind == Started || e.kind == Session) && e.pid > 0, (e: Event) => e.pid, 0, pid)
  }

  /** The session of the last session line that has one. */
  ghost predicate SaysSession(log: seq<Event>, r: RunId, session: string) {
    Says(log, r, (e: Event) => e.kind == Session && e.session != "", (e: Event) => e.session, "", session)
  }

  /** The last record. */
  ghost predicate SaysFinished(log: seq<Event>, r: RunId, f: Option<FinishedEvent>) {
    Says(log, r, (e: Event) => e.kind == Finished,
         (e: Event) => Some(FinishedEvent(e.status, e.exitCode, e.reason)), None, f)
  }

  /** Recovery's view of a run; directory and environment are those of session lines, the mode
      that of queued lines. */
  lemma ViewByLog(log: seq<Event>, k: nat)
    requires k < |Order(log)|
    ensures k < |Views(log)| && Views(log)[k].run == Order(log)[k]
    ensures var v, r := Views(log)[k], Order(log)[k];
            && SaysAgent(log, r, v.agent) && SaysPid(log, r, v.pid)
            && SaysSession(log, r, v.session) && SaysFinished(log, r, v.finished)
            && Says(log, r, (e: Event) => e.kind == Session && e.cwd != "", (e: Event) => e.cwd, "", v.cwd)
            && Says(log, r, (e: Event) => e.kind == Session && e.env.Some?, (e: Event) => e.env, None, v.env)
            && Says(log, r, (e: Event) => e.kind == Queued && e.mode != "", (e: Event) => ParseMode(e.mode),
                    Unset, v.mode)
  {
    var r := Order(log)[k];
    ViewAgentAndPid(log, r);
    ViewSessionAndRecord(log, r);
    SaysLast(log, r, NamesCwd, (e: Event) => e.kind == Session && e.cwd != "", (e: Event) => e.cwd, "");
    SaysLast(log, r, NamesEnv, (e: Event) => e.kind == Session && e.env.Some?, (e: Event) => e.env, None);
    SaysLast(log, r, NamesMode, (e: Event) => e.kind == Queued && e.mode != "", (e: Event) => ParseMode(e.mode), Unset);
  }

  lemma ViewAgentAndPid(log: seq<Event>, r: RunId)
    ensures var v := ViewOf(r, OfRun(log, r)); SaysAgent(log, r, v.agent) && SaysPid(log, r, v.pid)
  {
    SaysLast(log, r, NamesAgent, (e: Event) => (e.kind == Queued || e.kind == Started) && e.agent != "",
             (e: Event) => e.agent, "");
    SaysLast(log, r, NamesPid, (e: Event) => (e.kind == Started || e.kind == Session) && e.pid > 0,
             (e: Event) => e.pid, 0);
  }

  lemma ViewSessionAndRecord(log: seq<Event>, r: RunId)
    ensures var v := ViewOf(r, OfRun(log, r)); SaysSession(log, r, v.session) && SaysFinished(log, r, v.finished)
  {
    SaysLast(log, r, NamesSession, (e: Event) => e.kind == Session && e.session != "", (e: Event) => e.session, "");
    SaysLast(log, r, IsFinished, (e: Event) => e.kind == Finished,
             (e: Event) => Some(FinishedEvent(e.status, e.exitCode, e.reason)), None);
  }

  ghost predicate Occurs(log: seq<Event>, r: RunId, k: Kind) {
    exists i :: 0 <= i < |log| && log[i].run == r && log[i].kind == k
  }

  lemma HasByLog(log: seq<Event>, r: RunId, k: Kind)
    ensures Has(OfRun(log, r), k) <==> Occurs(log, r, k)
  {
    var p := (e: Event) => e.kind == k;
    LastLine(log, r, p);
    assert Has(OfRun(log, r), k) == LastWhere(OfRun(log, r), p).Some?;
    if i: nat :| LastAt(log, r, p, i) {
      assert log[i].kind == k;
    }
  }

  /** The reconciler's record of a run: the mode of its last line with one, whatever its kind,
      the initiator of its last queued line, and the status of its last record. */
  lemma ReconcileByLog(log: seq<Event>, r: RunId)
    ensures var w := ReconcileOf(r, OfRun(log, r));
            && w.run == r
            && Says(log, r, (e: Event) => e.mode != "", (e: Event) => ParseMode(e.mode), Unset, w.mode)
            && Says(log, r, (e: Event) => e.kind == Queued, (e: Event) => e.initiator, "", w.initiator)
            && Says(log, r, (e: Event) => e.kind == Finished, (e: Event) => e.status, NoStatus, w.status)
            && (w.queued <==> Occurs(log, r, Queued))
            && (w.started <==> Occurs(log, r, Started))
            && (w.finished <==> Occurs(log, r, Finished))
  {
    SaysLast(log, r, CarriesMode, (e: Event) => e.mode != "", (e: Event) => ParseMode(e.mode), Unset);
    SaysLast(log, r, IsQueued, (e: Event) => e.kind == Queued, (e: Event) => e.initiator, "");
    SaysLast(log, r, IsFinished, (e: Event) => e.kind == Finished, (e: Event) => e.status, NoStatus);
    HasByLog(log, r, Queued);
    HasByLog(log, r, Started);
    HasByLog(log, r, Finished);
  }

  /** A run is open when a line queues it and none starts or finishes it. */
  lemma OpenByLog(log: seq<Event>, r: RunId)
    ensures Open(OfRun(log, r)) <==> Occurs(log, r, Queued) && !Occurs(log, r, Started) && !Occurs(log, r, Finished)
  {
    HasByLog(log, r, Queued);
    HasByLog(log, r, Started);
    HasByLog(log, r, Finished);
  }

  /** What the daemon learns of a queued run: mode and initiator from the last queued line, the
      others from the last queued line that has them. */
  lemma QueuedByLog(log: seq<Event>, r: RunId)
    ensures var q := QueuedOf(r, OfRun(log, r));
            && q.run == r
            && Says(log, r, (e: Event) => e.kind == Queued, (e: Event) => ParseMode(e.mode), Unset, q.mode)
            && Says(log, r, (e: Event) => e.kind == Queued, (e: Event) => e.initiator, "", q.initiator)
            && Says(log, r, (e: Event) => e.kind == Queued && e.resumedFrom != "", (e: Event) => e.resumedFrom, "",
                    q.resumedFrom)
            && Says(log, r, (e: Event) => e.kind == Queued && e.resumedFromRun != "", (e: Event) => e.resumedFromRun,
                    "", q.resumedFromRun)
            && Says(log, r, (e: Event) => e.kind == Queued && e.triageHash != "", (e: Event) => e.triageHash, "",
                    q.triageHash)
  {
    SaysLast(log, r, IsQueued, (e: Event) => e.kind == Queued, (e: Event) => ParseMode(e.mode), Unset);
    SaysLast(log, r, IsQueued, (e: Event) => e.kind == Queued, (e: Event) => e.initiator, "");
    SaysLast(log, r, NamesParent, (e: Event) => e.kind == Queued && e.resumedFrom != "",
             (e: Event) => e.resumedFrom, "");
    SaysLast(log, r, NamesParentRun, (e: Event) => e.kind == Queued && e.resumedFromRun != "",
             (e: Event) => e.resumedFromRun, "");
    SaysLast(log, r, NamesHash, (e: Event) => e.kind == Queued && e.triageHash != "", (e: Event) => e.triageHash, "");
  }

  // ---------------------------------------------------------------- modes

  /** A mode as it is written to the log. */
  function ModeString(m: Mode): string {
    match m
    case Unset => ""
    case Implement => "implement"
    case Groom => "groom"
    case Review => "review"
    case Resume => "resume"
  }

  /** Every mode reads back, and nothing else reads as another mode than implement. */
  lemma ModesRoundTrip(m: Mode, text: string)
    ensures m != Unset ==> ParseMode(ModeString(m)) == m
    ensures ParseMode(text) == Implement || text == ModeString(ParseMode(text))
  {
  }
}
