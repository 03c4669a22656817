/** Every run of the board-switch coordinator: opens start, their promises resolve or reject,
    opened-events arrive, and calls resume after an await, in any order. */
module BoardSwitchRuns {
  import opened Wrappers
  import opened BoardSwitch

  /** `pending` are the opens whose openBoard has not settled, by number; `conts` what is left
      to do after awaits; `commits` every commit made so far. */
  datatype State = State(c: Coord, pending: map<nat, string>, conts: multiset<Cont>, commits: seq<Made>)

  datatype Step =
    | OpenStep(root: string)
    | ResolveStep(num: nat)
    | RejectStep(num: nat)
    | EventStep(projectRoot: string, activeRoot: Option<string>)
    | ResumeStep(cont: Cont)

  function Start(): State { State(Initial(), map[], multiset{}, []) }

  predicate Enabled(s: State, step: Step) {
    match step
    case ResolveStep(n) => n in s.pending
    case RejectStep(n) => n in s.pending
    case ResumeStep(cont) => cont in s.conts
    case _ => true
  }

  /** The step's stretch of code. */
  function SegmentOf(s: State, step: Step): Segment
    requires Enabled(s, step)
  {
    match step
    case OpenStep(root) => Segment(Opened(s.c, root), None, Nothing)
    case ResolveStep(n) => Resolved(s.c, n, s.pending[n])
    case RejectStep(n) => Rejected(s.c, n, s.pending[n])
    case EventStep(projectRoot, activeRoot) => Event(s.c, projectRoot, activeRoot)
    case ResumeStep(cont) => Segment(Resumed(s.c, cont), None, Nothing)
  }

  function PendingAfter(s: State, step: Step): map<nat, string> {
    match step
    case OpenStep(root) => s.pending[s.c.sequence + 1 := root]
    case ResolveStep(n) => s.pending - {n}
    case RejectStep(n) => s.pending - {n}
    case _ => s.pending
  }

  function Apply(s: State, step: Step): State
    requires Enabled(s, step)
  {
    var g := SegmentOf(s, step);
    State(g.c,
          PendingAfter(s, step),
          (if step.ResumeStep? then s.conts - multiset{step.cont} else s.conts) + multiset{g.cont},
          if g.commit.Some? then s.commits + [g.commit.value] else s.commits)
  }

  predicate Runs(s: State, steps: seq<Step>)
    decreases |steps|
  {
    steps == [] || (Enabled(s, steps[0]) && Runs(Apply(s, steps[0]), steps[1..]))
  }

  function Run(s: State, steps: seq<Step>): State
    requires Runs(s, steps)
    decreases |steps|
  {
    if steps == [] then s else Run(Apply(s, steps[0]), steps[1..])
  }

  // ---------------------------------------------------------------- the invariant

  /** openingSequence is 0 or the latest number, and then that open is pending, with the
      target the coordinator shows, and nothing is committed under that number. */
  predicate Opening(c: Coord, pending: map<nat, string>) {
    c.openingSequence != 0 ==>
      && c.openingSequence == c.sequence && c.committedSequence == 0 && !c.allowStaleDirectReconcile
      && c.sequence in pending && pending[c.sequence] == c.openingTarget
  }

  predicate CommittedNow(c: Coord) { c.committedSequence == 0 || c.committedSequence == c.sequence }

  /** No pending open has a number from the future, and one that was committed early, by its
      event, was committed with its own root. */
  predicate Pending(c: Coord, pending: map<nat, string>) {
    forall n :: n in pending ==> 0 < n <= c.sequence && (n == c.committedSequence ==> pending[n] == c.committedRoot)
  }

  predicate Increasing(commits: seq<Made>) {
    forall i, j :: 0 <= i < j < |commits| ==> commits[i].num < commits[j].num
  }

  /** Numbers are committed in order, and the current one only if it is marked so. */
  predicate Logged(c: Coord, commits: seq<Made>) {
    && Increasing(commits)
    && (forall i :: 0 <= i < |commits| ==> 0 < commits[i].num <= c.sequence)
    && (commits != [] && commits[|commits| - 1].num == c.sequence ==> c.committedSequence == c.sequence)
    && (c.committedSequence != 0 ==>
        commits != [] && commits[|commits| - 1] == Made(c.committedSequence, c.committedRoot))
  }

  ghost predicate Inv(s: State) {
    Opening(s.c, s.pending) && CommittedNow(s.c) && Pending(s.c, s.pending) && Logged(s.c, s.commits)
  }

  /** The state after `g`, with the pending opens `p`. */
  function Log(commits: seq<Made>, g: Segment): seq<Made> {
    if g.commit.Some? then commits + [g.commit.value] else commits
  }

  ghost predicate InvAfter(g: Segment, p: map<nat, string>, commits: seq<Made>) {
    Opening(g.c, p) && CommittedNow(g.c) && Pending(g.c, p) && Logged(g.c, Log(commits, g))
  }

  /** A commit under a number just drawn. */
  lemma CommitFresh(c: Coord, p: map<nat, string>, commits: seq<Made>, root: string, cont: Cont)
    requires CommittedNow(c) && Logged(c, commits) && forall n :: n in p ==> 0 < n <= c.sequence
    ensures InvAfter(Commit(c.NextSequence(), c.sequence + 1, root, cont), p, commits)
    ensures Commit(c.NextSequence(), c.sequence + 1, root, cont).commit == Some(Made(c.sequence + 1, root))
  {
  }

  /** A commit under the current number, with the root that number was opened with. */
  lemma CommitCurrent(c: Coord, p: map<nat, string>, commits: seq<Made>, root: string, cont: Cont)
    requires CommittedNow(c) && Pending(c, p) && Logged(c, commits) && c.sequence > 0
    requires c.sequence in p ==> p[c.sequence] == root
    requires c.committedSequence == c.sequence ==> Opening(c, p)
    ensures InvAfter(Commit(c, c.sequence, root, cont), p, commits)
  {
    if c.committedSequence != c.sequence {
      CommitDone(c, p, commits, root, cont);
    }
  }

  lemma CommitDone(c: Coord, p: map<nat, string>, commits: seq<Made>, root: string, cont: Cont)
    requires Pending(c, p) && Logged(c, commits) && c.sequence > 0 && c.committedSequence != c.sequence
    requires c.sequence in p ==> p[c.sequence] == root
    ensures InvAfter(Commit(c, c.sequence, root, cont), p, commits)
  {
    var g, more := Commit(c, c.sequence, root, cont), commits + [Made(c.sequence, root)];
    LoggedOnce(commits, c.sequence, root);
    assert Log(commits, g) == more && more[|more| - 1] == Made(c.sequence, root);
    assert g.c.committedSequence == c.sequence && g.c.committedRoot == root && g.c.sequence == c.sequence;
    assert Logged(g.c, more);
  }

  /** One more commit, under a number that no commit has yet. */
  lemma LoggedOnce(commits: seq<Made>, num: nat, root: string)
    requires Increasing(commits) && (forall i :: 0 <= i < |commits| ==> 0 < commits[i].num <= num) && num > 0
    requires commits != [] ==> commits[|commits| - 1].num != num
    ensures var more := commits + [Made(num, root)];
            Increasing(more) && forall i :: 0 <= i < |more| ==> 0 < more[i].num <= num
  {
    forall i | 0 <= i < |commits|
      ensures commits[i].num < num
    {
      assert i < |commits| - 1 ==> commits[i].num < commits[|commits| - 1].num;
    }
  }

  lemma ResolveKeepsInv(s: State, n: nat)
    requires Inv(s) && n in s.pending
    ensures InvAfter(Resolved(s.c, n, s.pending[n]), s.pending - {n}, s.commits)
  {
    var c, p, root := s.c, s.pending - {n}, s.pending[n];
    if n == c.sequence {
      CommitCurrent(c, p, s.commits, root, Resolved(c, n, root).cont);
    } else if c.allowStaleDirectReconcile && c.Direct(root, n) {
      CommitFresh(c, p, s.commits, root, Resolved(c, n, root).cont);
    }
  }

  lemma RejectKeepsInv(s: State, n: nat)
    requires Inv(s) && n in s.pending
    ensures InvAfter(Rejected(s.c, n, s.pending[n]), s.pending - {n}, s.commits)
  {
    if n == s.c.sequence {
      RejectLatestKeepsInv(s.c, s.pending - {n}, s.commits, s.pending[n]);
    }
  }

  lemma SameCommits(c: Coord, c2: Coord, p: map<nat, string>, commits: seq<Made>)
    requires c2.sequence == c.sequence && c2.committedSequence == c.committedSequence
    requires c2.committedRoot == c.committedRoot
    requires CommittedNow(c) && Pending(c, p) && Logged(c, commits)
    ensures CommittedNow(c2) && Pending(c2, p) && Logged(c2, commits)
  {
  }

  function Cleared(c: Coord, root: string): Coord {
    c.Delete(root).(openingSequence := 0, openingTarget := "", allowStaleDirectReconcile := true)
  }

  lemma RejectLatestKeepsInv(c: Coord, p: map<nat, string>, commits: seq<Made>, root: string)
    requires CommittedNow(c) && Pending(c, p) && Logged(c, commits)
    ensures InvAfter(Rejected(c, c.sequence, root), p, commits)
  {
    var c2 := Cleared(c, root);
    var deferred := if c2.deferredCommittedRoot != "" then c2.deferredCommittedRoot else c2.deferredCompletedRoot;
    SameCommits(c, c2, p, commits);
    if deferred != "" {
      CommitFresh(c2, p, commits, deferred, Forget(deferred));
      assert Rejected(c, c.sequence, root) == Commit(c2.NextSequence(), c2.sequence + 1, deferred, Forget(deferred));
    } else {
      assert Rejected(c, c.sequence, root) == Segment(c2, None, Nothing);
    }
  }

  lemma EventKeepsInv(s: State, root: string, active: string)
    requires Inv(s)
    ensures InvAfter(EventFor(s.c, root, active), s.pending, s.commits)
  {
    var c := s.c;
    var g := EventFor(c, root, active);
    if g.commit.Some? {
      if c.openingSequence != 0 {
        CommitCurrent(c, s.pending, s.commits, root, g.cont);
      } else {
        CommitFresh(c, s.pending, s.commits, root, g.cont);
      }
    } else {
      assert g.c.openingSequence == c.openingSequence && g.c.openingTarget == c.openingTarget;
      SameCommits(c, g.c, s.pending, s.commits);
    }
  }

  lemma OpenKeepsInv(s: State, root: string)
    requires Inv(s)
    ensures Inv(Apply(s, OpenStep(root)))
  {
  }

  lemma ResumeKeepsInv(s: State, cont: Cont)
    requires Inv(s) && Enabled(s, ResumeStep(cont))
    ensures Inv(Apply(s, ResumeStep(cont)))
  {
  }

  lemma StepKeepsInv(s: State, step: Step)
    requires Inv(s) && Enabled(s, step)
    ensures Inv(Apply(s, step))
  {
    match step {
      case OpenStep(root) => OpenKeepsInv(s, root);
      case ResolveStep(n) => ResolveKeepsInv(s, n);
      case RejectStep(n) => RejectKeepsInv(s, n);
      case EventStep(projectRoot, activeRoot) =>
        if activeRoot.Some? {
          EventKeepsInv(s, if projectRoot != "" then projectRoot else activeRoot.value, activeRoot.value);
        }
      case ResumeStep(cont) => ResumeKeepsInv(s, cont);
    }
  }

  lemma {:induction false} RunKeepsInv(s: State, steps: seq<Step>)
    requires Inv(s) && Runs(s, steps)
    ensures Inv(Run(s, steps))
    decreases |steps|
  {
    if steps != [] {
      StepKeepsInv(s, steps[0]);
      RunKeepsInv(Apply(s, steps[0]), steps[1..]);
    }
  }

  // ---------------------------------------------------------------- what holds in every run

  /** The coordinator says it is opening exactly while the latest open is neither settled nor
      committed, and every number is committed at most once, in increasing order. */
  lemma OpeningIsTheLatestOpen(steps: seq<Step>)
    requires Runs(Start(), steps)
    ensures var s := Run(Start(), steps);
            && (s.c.openingSequence == 0 || s.c.openingSequence == s.c.sequence)
            && (s.c.IsOpening() ==> s.c.sequence in s.pending && s.pending[s.c.sequence] == s.c.openingTarget
                                    && forall i :: 0 <= i < |s.commits| ==> s.commits[i].num != s.c.sequence)
            && Increasing(s.commits)
  {
    RunKeepsInv(Start(), steps);
  }

  /** A commit made while an open is pending commits that open, under its own number: the
      only step that commits anything else is the rejection of that very open. */
  lemma CommitWhileOpeningIsItsOwn(steps: seq<Step>, step: Step)
    requires Runs(Start(), steps) && Enabled(Run(Start(), steps), step)
    requires Run(Start(), steps).c.IsOpening() && SegmentOf(Run(Start(), steps), step).commit.Some?
    ensures var s := Run(Start(), steps);
            || SegmentOf(s, step).commit == Some(Made(s.c.openingSequence, s.c.openingTarget))
            || step == RejectStep(s.c.openingSequence)
  {
    RunKeepsInv(Start(), steps);
  }

  /** Once the latest open resolves, its board is the committed one, committed under its own
      number and just once, whether its event came first or not. */
  lemma LatestOpenWins(steps: seq<Step>)
    requires Runs(Start(), steps) && Run(Start(), steps).c.sequence in Run(Start(), steps).pending
    ensures var s := Run(Start(), steps);
            var s' := Apply(s, ResolveStep(s.c.sequence));
            && s'.c.sequence == s.c.sequence == s'.c.committedSequence && s'.c.committedRoot == s.pending[s.c.sequence]
            && s'.commits != [] && s'.commits[|s'.commits| - 1] == Made(s.c.sequence, s.pending[s.c.sequence])
            && Increasing(s'.commits)
  {
    var s := Run(Start(), steps);
    RunKeepsInv(Start(), steps);
    StepKeepsInv(s, ResolveStep(s.c.sequence));
  }

  lemma {:induction false} RunSnoc(s: State, steps: seq<Step>, step: Step)
    requires Runs(s, steps) && Enabled(Run(s, steps), step)
    ensures Runs(s, steps + [step]) && Run(s, steps + [step]) == Apply(Run(s, steps), step)
    decreases |steps|
  {
    if steps == [] {
      assert ([] + [step])[1..] == [];
    } else {
      assert (steps + [step])[1..] == steps[1..] + [step];
      RunSnoc(Apply(s, steps[0]), steps[1..], step);
    }
  }

  lemma FirstTwoOpens(older: string, newer: string)
    requires older != newer
    ensures var s := Apply(Apply(Start(), OpenStep(older)), OpenStep(newer));
            && s.c == Coord(2, 2, 0, "", newer, "", "", false, map[older := 1, newer := 2])
            && s.pending == map[1 := older, 2 := newer]
  {
  }

  lemma ItsEventCommits(s: State, older: string, newer: string)
    requires s.c == Coord(2, 2, 0, "", newer, "", "", false, map[older := 1, newer := 2]) && newer != ""
    requires older != newer
    ensures Apply(s, EventStep(newer, Some(""))).c
            == Coord(2, 0, 2, newer, "", "", "", false, map[older := 1, newer := 2])
    ensures Apply(s, EventStep(newer, Some(""))).pending == s.pending
  {
  }

  lemma ThenItIsRejected(s: State, older: string, newer: string)
    requires s.c == Coord(2, 0, 2, newer, "", "", "", false, map[older := 1, newer := 2]) && newer != ""
    requires older != newer
    requires s.pending == map[1 := older, 2 := newer]
    ensures Apply(s, RejectStep(2)).c == Coord(2, 0, 2, newer, "", "", "", true, map[older := 1])
    ensures Apply(s, RejectStep(2)).pending == map[1 := older]
  {
    assert map[older := 1, newer := 2] - {newer} == map[older := 1];
    assert map[1 := older, 2 := newer] - {2} == map[1 := older];
  }

  lemma ThenTheOlderCommits(older: string, newer: string)
    ensures Resolved(Coord(2, 0, 2, newer, "", "", "", true, map[older := 1]), 1, older).c.committedRoot == older
  {
  }

  /** Nothing says that the latest open was not committed before it is rejected: when its
      event has come first, an older open can still replace the board the event committed. */
  lemma OlderOpenCanReplaceACommit(older: string, newer: string)
    requires newer != "" && older != newer
    ensures var steps := [OpenStep(older)] + [OpenStep(newer)] + [EventStep(newer, Some(""))] + [RejectStep(2)];
            && Runs(Start(), steps)
            && var s := Run(Start(), steps);
               && s.c.committedRoot == newer && s.c.committedSequence == s.c.sequence
               && 1 in s.pending && s.pending[1] == older
               && Resolved(s.c, 1, older).c.committedRoot == older
  {
    var a, b, e, r := OpenStep(older), OpenStep(newer), EventStep(newer, Some("")), RejectStep(2);
    FirstTwoOpens(older, newer);
    RunSnoc(Start(), [], a);
    assert [] + [a] == [a];
    RunSnoc(Start(), [a], b);
    ItsEventCommits(Run(Start(), [a] + [b]), older, newer);
    RunSnoc(Start(), [a] + [b], e);
    ThenItIsRejected(Run(Start(), [a] + [b] + [e]), older, newer);
    RunSnoc(Start(), [a] + [b] + [e], r);
    ThenTheOlderCommits(older, newer);
  }
}
