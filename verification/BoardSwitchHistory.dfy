/** What the coordinator's flag for stale opens remembers of a run. */
module BoardSwitchHistory {
  import opened Wrappers
  import opened BoardSwitch
  import opened BoardSwitchRuns

  predicate RejectsLatest(s: State, step: Step) { step.RejectStep? && step.num == s.c.sequence }

  predicate NoOpens(steps: seq<Step>) { forall i :: 0 <= i < |steps| ==> !steps[i].OpenStep? }

  /** The flag is up after a step exactly when the step opened and committed nothing, and the
      flag was up before or the step rejected the latest open. */
  lemma FlagStep(s: State, step: Step)
    requires Enabled(s, step)
    ensures Apply(s, step).c.allowStaleDirectReconcile
            <==> !step.OpenStep? && Apply(s, step).commits == s.commits
                 && (s.c.allowStaleDirectReconcile || RejectsLatest(s, step))
    ensures s.commits <= Apply(s, step).commits
  {
  }

  lemma {:induction false} CommitsGrow(s: State, steps: seq<Step>)
    requires Runs(s, steps)
    ensures s.commits <= Run(s, steps).commits
    decreases |steps|
  {
    if steps != [] {
      FlagStep(s, steps[0]);
      CommitsGrow(Apply(s, steps[0]), steps[1..]);
    }
  }

  lemma RunFirst(s: State, a: Step, rest: seq<Step>, steps: seq<Step>)
    requires steps == [a] + rest
    ensures Runs(s, steps) <==> Enabled(s, a) && Runs(Apply(s, a), rest)
    ensures Runs(s, steps) ==> Run(s, steps) == Run(Apply(s, a), rest)
  {
    assert steps[1..] == rest;
  }

  lemma {:induction false} Prefix(s: State, steps: seq<Step>, i: nat)
    requires Runs(s, steps) && i <= |steps|
    ensures Runs(s, steps[..i])
    ensures i < |steps| ==> Enabled(Run(s, steps[..i]), steps[i])
    ensures Runs(Run(s, steps[..i]), steps[i..]) && Run(Run(s, steps[..i]), steps[i..]) == Run(s, steps)
    decreases i
  {
    if i == 0 {
      assert steps[..0] == [] && steps[0..] == steps;
    } else {
      var a, rest := steps[0], steps[1..];
      RunFirst(s, a, rest, steps);
      Prefix(Apply(s, a), rest, i - 1);
      PrefixNext(s, a, rest, steps, i);
    }
  }

  lemma PrefixNext(s: State, a: Step, rest: seq<Step>, steps: seq<Step>, i: nat)
    requires steps == [a] + rest && 0 < i <= |steps| && Enabled(s, a) && Runs(Apply(s, a), rest[..i - 1])
    ensures Runs(s, steps[..i]) && Run(s, steps[..i]) == Run(Apply(s, a), rest[..i - 1])
    ensures steps[i..] == rest[i - 1..] && (i < |steps| ==> steps[i] == rest[i - 1])
  {
    assert steps[..i] == [a] + rest[..i - 1];
    RunFirst(s, a, rest[..i - 1], steps[..i]);
  }

  /** Step `i` rejected the latest open, and neither it nor anything since opened or committed. */
  ghost predicate RejectedAt(s: State, steps: seq<Step>, i: nat)
    requires Runs(s, steps)
  {
    && i < |steps| && Runs(s, steps[..i]) && RejectsLatest(Run(s, steps[..i]), steps[i])
    && NoOpens(steps[i..]) && Run(s, steps[..i]).commits == Run(s, steps).commits
  }

  lemma RejectedAtNext(s: State, steps: seq<Step>, i: nat)
    requires Runs(s, steps) && steps != []
    requires Runs(Apply(s, steps[0]), steps[1..]) && RejectedAt(Apply(s, steps[0]), steps[1..], i)
    ensures RejectedAt(s, steps, i + 1)
  {
    Prefix(s, steps, i + 1);
    assert steps[..i + 1][1..] == steps[1..][..i] && steps[1..][i..] == steps[i + 1..];
    assert steps[1..][i] == steps[i + 1];
  }

  lemma RejectedFirst(s: State, steps: seq<Step>)
    requires Runs(s, steps) && steps != [] && RejectsLatest(s, steps[0]) && NoOpens(steps)
    requires s.commits == Run(s, steps).commits
    ensures RejectedAt(s, steps, 0)
  {
    assert steps[..0] == [] && steps[0..] == steps;
  }

  /** If the flag is up at the end, it was up before and nothing has been opened or committed,
      or some step has rejected the latest open and nothing since has. */
  lemma {:induction false} FlagHasAReason(s: State, steps: seq<Step>)
    requires Runs(s, steps) && Run(s, steps).c.allowStaleDirectReconcile
    ensures || (s.c.allowStaleDirectReconcile && NoOpens(steps) && Run(s, steps).commits == s.commits)
            || exists i: nat :: RejectedAt(s, steps, i)
    decreases |steps|
  {
    if steps != [] {
      var s', rest := Apply(s, steps[0]), steps[1..];
      FlagStep(s, steps[0]);
      FlagHasAReason(s', rest);
      if i: nat :| RejectedAt(s', rest, i) {
        RejectedAtNext(s, steps, i);
      } else {
        assert NoOpens(steps) by { assert forall i :: 0 < i < |steps| ==> steps[i] == rest[i - 1]; }
        if !s.c.allowStaleDirectReconcile { RejectedFirst(s, steps); }
      }
    }
  }

  lemma {:induction false} FlagStaysUp(s: State, steps: seq<Step>)
    requires Runs(s, steps) && NoOpens(steps) && Run(s, steps).commits == s.commits
    requires s.c.allowStaleDirectReconcile || (steps != [] && RejectsLatest(s, steps[0]))
    ensures Run(s, steps).c.allowStaleDirectReconcile
    decreases |steps|
  {
    if steps != [] {
      FlagStep(s, steps[0]);
      CommitsGrow(Apply(s, steps[0]), steps[1..]);
      FlagStaysUp(Apply(s, steps[0]), steps[1..]);
    }
  }

  lemma FlagIff(steps: seq<Step>)
    requires Runs(Start(), steps)
    ensures Run(Start(), steps).c.allowStaleDirectReconcile <==> exists i: nat :: RejectedAt(Start(), steps, i)
  {
    if Run(Start(), steps).c.allowStaleDirectReconcile {
      FlagHasAReason(Start(), steps);
    }
    if i: nat :| RejectedAt(Start(), steps, i) {
      Prefix(Start(), steps, i);
      FlagStaysUp(Run(Start(), steps[..i]), steps[i..]);
    }
  }

  lemma OlderResolves(c: Coord, n: nat, root: string)
    requires n != c.sequence && CommittedNow(c)
    ensures var g := Resolved(c, n, root);
            && (g.commit.Some? <==> c.allowStaleDirectReconcile && c.Direct(root, n))
            && (g.commit.Some? ==> g.commit == Some(Made(c.sequence + 1, root)))
  {
  }

  /** An older open that resolves commits if and only if it was not forgotten and some step of
      the run rejected the latest open, nothing having been opened or committed since. */
  lemma OlderOpenCommitsIff(steps: seq<Step>, n: nat)
    requires Runs(Start(), steps) && n in Run(Start(), steps).pending && n != Run(Start(), steps).c.sequence
    ensures var s := Run(Start(), steps);
            var g := Resolved(s.c, n, s.pending[n]);
            && (g.commit.Some? <==> s.c.Direct(s.pending[n], n) && exists i: nat :: RejectedAt(Start(), steps, i))
            && (g.commit.Some? ==> g.commit == Some(Made(s.c.sequence + 1, s.pending[n])))
  {
    var s := Run(Start(), steps);
    RunKeepsInv(Start(), steps);
    FlagIff(steps);
    OlderResolves(s.c, n, s.pending[n]);
  }
}
