/** Which board an opened-event, or the failure of an open, makes the committed one. */
module BoardSwitchEvents {
  import opened Wrappers
  import opened BoardSwitch
  import opened BoardSwitchRuns

  // ---------------------------------------------------------------- the opens that are remembered

  /** A remembered open has its own number; the latest one is remembered for the board that is
      opening or, once it is committed, for the committed one. */
  predicate Remembered(c: Coord) {
    && (forall r :: r in c.directOpenSequences ==> 0 < c.directOpenSequences[r] <= c.sequence)
    && (forall r :: r in c.directOpenSequences && c.directOpenSequences[r] == c.sequence ==>
          if c.openingSequence != 0 then r == c.openingTarget
          else c.committedSequence == c.sequence && c.committedRoot == r)
    && (c.openingSequence != 0 && c.openingTarget in c.directOpenSequences ==>
          c.directOpenSequences[c.openingTarget] == c.sequence)
  }

  lemma ForgettingKeeps(c: Coord, root: string)
    requires Remembered(c)
    ensures Remembered(c.Delete(root))
  {
  }

  lemma CommitFreshKeeps(c: Coord, root: string)
    requires Remembered(c) && (c.committedSequence == 0 || c.committedSequence == c.sequence)
    ensures Remembered(Committed(c.NextSequence(), c.sequence + 1, root))
  {
  }

  lemma CommitLatestKeeps(c: Coord, root: string)
    requires Remembered(c) && (c.openingSequence != 0 ==> root == c.openingTarget)
    ensures Remembered(Committed(c, c.sequence, root))
  {
  }

  lemma ResolveKeeps(s: State, n: nat)
    requires Inv(s) && Remembered(s.c) && n in s.pending
    ensures Remembered(Resolved(s.c, n, s.pending[n]).c)
  {
    if n == s.c.sequence {
      CommitLatestKeeps(s.c, s.pending[n]);
    } else if s.c.allowStaleDirectReconcile && s.c.Direct(s.pending[n], n) {
      CommitFreshKeeps(s.c, s.pending[n]);
    }
  }

  lemma RejectKeeps(s: State, n: nat)
    requires Inv(s) && Remembered(s.c) && n in s.pending
    ensures Remembered(Rejected(s.c, n, s.pending[n]).c)
  {
    var c := Cleared(s.c, s.pending[n]);
    if n == s.c.sequence {
      assert Remembered(c);
      CommitFreshKeeps(c, if c.deferredCommittedRoot != "" then c.deferredCommittedRoot else c.deferredCompletedRoot);
    }
  }

  lemma EventKeeps(c: Coord, root: string, active: string)
    requires Remembered(c) && CommittedNow(c) && (c.openingSequence != 0 ==> c.openingSequence == c.sequence)
    ensures Remembered(EventFor(c, root, active).c)
  {
    ForgettingKeeps(c, root);
    CommitFreshKeeps(c, root);
    if c.openingSequence != 0 && root == c.openingTarget {
      CommitLatestKeeps(c, root);
    }
  }

  lemma StepKeepsRemembered(s: State, step: Step)
    requires Inv(s) && Remembered(s.c) && Enabled(s, step)
    ensures Remembered(Apply(s, step).c)
  {
    match step
    case OpenStep(root) =>
    case ResolveStep(n) => ResolveKeeps(s, n);
    case RejectStep(n) => RejectKeeps(s, n);
    case EventStep(project, active) =>
      if active.Some? {
        EventKeeps(s.c, if project != "" then project else active.value, active.value);
      }
    case ResumeStep(cont) =>
  }

  lemma {:induction false} RunKeepsRemembered(s: State, steps: seq<Step>)
    requires Inv(s) && Remembered(s.c) && Runs(s, steps)
    ensures Inv(Run(s, steps)) && Remembered(Run(s, steps).c)
    decreases |steps|
  {
    if steps != [] {
      StepKeepsInv(s, steps[0]);
      StepKeepsRemembered(s, steps[0]);
      RunKeepsRemembered(Apply(s, steps[0]), steps[1..]);
    }
  }

  // ---------------------------------------------------------------- what an event does

  /** An event names a board, and does not contradict the active one. */
  predicate Accepted(project: string, active: Option<string>) {
    active.Some? && (if project == "" then active.value != "" else active.value == "" || active.value == project)
  }

  function RootOf(project: string, active: Option<string>): string
    requires Accepted(project, active)
  {
    if project == "" then active.value else project
  }

  /** An open of this board, older than the latest number, is still remembered. */
  predicate StaleOpen(c: Coord, root: string) {
    root in c.directOpenSequences && c.directOpenSequences[root] < c.sequence
  }

  /** In every run: while an open is pending, an accepted event commits if it is for the board
      that is opening and that is not the committed one. While none is, it commits unless the
      board is the committed one; but a board with a stale open only if it is the active one
      and the latest open has failed. */
  predicate EventCommits(c: Coord, root: string, active: string) {
    if c.IsOpening() then root == c.openingTarget && root != c.committedRoot
    else if StaleOpen(c, root) then c.allowStaleDirectReconcile && active == root
    else root != c.committedRoot
  }

  /** The number it commits under: that of the pending open, or a new one. */
  function NumberFor(c: Coord): nat { if c.IsOpening() then c.sequence else c.sequence + 1 }

  lemma EventOn(s: State, root: string, active: string)
    requires Inv(s) && Remembered(s.c)
    ensures EventFor(s.c, root, active).commit
            == if EventCommits(s.c, root, active) then Some(Made(NumberFor(s.c), root)) else None
    ensures var c' := EventFor(s.c, root, active).c;
            if EventCommits(s.c, root, active) then
              c'.committedRoot == root && c'.committedSequence == c'.sequence == NumberFor(s.c) && !c'.IsOpening()
            else
              c' == s.c.(directOpenSequences := c'.directOpenSequences,
                         deferredCommittedRoot := c'.deferredCommittedRoot)
  {
  }

  /** What an event makes the coordinator remember and forget. One for another board than the
      one that is opening is put off, if an open of it is remembered and it is the active one;
      every other one has its board forgotten, after the commit if it makes one. */
  lemma EventMemory(s: State, root: string, active: string)
    requires Inv(s) && Remembered(s.c)
    ensures var g := EventFor(s.c, root, active);
            var putOff := s.c.IsOpening() && root != s.c.openingTarget;
            && (putOff ==>
                  g.c.deferredCommittedRoot == if root in s.c.directOpenSequences && active == root then root
                                               else s.c.deferredCommittedRoot)
            && (!putOff && g.commit.None? ==> g.c.deferredCommittedRoot == s.c.deferredCommittedRoot)
            && g.c.directOpenSequences == (if putOff || g.commit.Some? then s.c.directOpenSequences
                                           else s.c.directOpenSequences - {root})
            && (g.cont == if g.commit.Some? && root in s.c.directOpenSequences then Forget(root) else Nothing)
  {
  }

  lemma EventCommitsIff(steps: seq<Step>, project: string, active: Option<string>)
    requires Runs(Start(), steps)
    ensures var s, s' := Run(Start(), steps), Apply(Run(Start(), steps), EventStep(project, active));
            if Accepted(project, active) && EventCommits(s.c, RootOf(project, active), active.value) then
              && s'.c.committedRoot == RootOf(project, active) && !s'.c.IsOpening()
              && s'.commits == s.commits + [Made(NumberFor(s.c), RootOf(project, active))]
              && (forall i :: 0 <= i < |s.commits| ==> s.commits[i].num < NumberFor(s.c))
            else
              && s'.commits == s.commits && s'.c.committedRoot == s.c.committedRoot
              && s'.c.sequence == s.c.sequence && s'.c.IsOpening() == s.c.IsOpening()
  {
    var s := Run(Start(), steps);
    RunKeepsRemembered(Start(), steps);
    if Accepted(project, active) {
      EventOn(s, RootOf(project, active), active.value);
      StepKeepsInv(s, EventStep(project, active));
    }
  }

  /** In particular, with no open pending, the event of a board that is neither the committed
      one nor remembered makes it the committed one, under a new, larger number. */
  lemma BoardOpenedElsewhere(steps: seq<Step>, root: string)
    requires Runs(Start(), steps) && !Run(Start(), steps).c.IsOpening() && root != ""
    requires root != Run(Start(), steps).c.committedRoot && root !in Run(Start(), steps).c.directOpenSequences
    ensures var s, s' := Run(Start(), steps), Apply(Run(Start(), steps), EventStep(root, Some(root)));
            && s'.c.committedRoot == root
            && s'.commits == s.commits + [Made(s.c.sequence + 1, root)]
            && forall i :: 0 <= i < |s.commits| ==> s.commits[i].num < s.c.sequence + 1
  {
    EventCommitsIff(steps, root, Some(root));
  }

  // ---------------------------------------------------------------- when the latest open fails

  /** `s2` is `s` after the latest open has failed, and has committed `root` under a new number. */
  predicate FailedTo(s: State, s2: State, root: string) {
    && s2.c.committedRoot == root && !s2.c.IsOpening()
    && s2.commits == s.commits + [Made(s.c.sequence + 1, root)] && s2.c.sequence == s.c.sequence + 1
  }

  lemma FailureCommits(s: State, root: string)
    requires Inv(s) && s.c.IsOpening() && root != ""
    requires s.c.deferredCommittedRoot == root || (s.c.deferredCommittedRoot == "" && s.c.deferredCompletedRoot == root)
    ensures Enabled(s, RejectStep(s.c.sequence)) && FailedTo(s, Apply(s, RejectStep(s.c.sequence)), root)
  {
  }

  /** A remembered board whose event, as the active one, came while another was opening is the
      committed one once that open fails. */
  lemma EventThenFailure(steps: seq<Step>, root: string)
    requires Runs(Start(), steps) && Run(Start(), steps).c.IsOpening() && root != ""
    requires var c := Run(Start(), steps).c; root != c.openingTarget && root in c.directOpenSequences
    ensures var s := Run(Start(), steps);
            var s1 := Apply(s, EventStep(root, Some(root)));
            && s1.commits == s.commits && s1.c.IsOpening() && s1.c.sequence == s.c.sequence
            && Enabled(s1, RejectStep(s.c.sequence)) && FailedTo(s1, Apply(s1, RejectStep(s.c.sequence)), root)
  {
    var s := Run(Start(), steps);
    RunKeepsRemembered(Start(), steps);
    EventOn(s, root, root);
    EventMemory(s, root, root);
    StepKeepsInv(s, EventStep(root, Some(root)));
    FailureCommits(Apply(s, EventStep(root, Some(root))), root);
  }

  /** An older open that resolves meanwhile, and that nothing has forgotten, is put off. */
  lemma OlderOpenIsPutOff(s: State, n: nat)
    requires Inv(s) && Remembered(s.c) && s.c.IsOpening() && n in s.pending && n != s.c.sequence
    requires s.c.Direct(s.pending[n], n)
    ensures var s1, cont := Apply(s, ResolveStep(n)), AfterOpen(s.pending[n], n, false);
            && Enabled(s1, ResumeStep(cont))
            && var s2 := Apply(s1, ResumeStep(cont));
               && Inv(s2) && s2.c == s.c.(deferredCompletedRoot := s.pending[n]) && s2.commits == s.commits
  {
    var s1, cont := Apply(s, ResolveStep(n)), AfterOpen(s.pending[n], n, false);
    StepKeepsInv(s, ResolveStep(n));
    assert cont in s1.conts && s1.c == s.c;
    StepKeepsInv(s1, ResumeStep(cont));
  }

  /** It is the committed one once the latest open fails, unless an event has been put off too:
      then that event's board is. */
  lemma OlderOpenThenFailure(steps: seq<Step>, n: nat)
    requires Runs(Start(), steps) && Run(Start(), steps).c.IsOpening()
    requires var s := Run(Start(), steps);
             n in s.pending && n != s.c.sequence && s.c.Direct(s.pending[n], n) && s.pending[n] != ""
    ensures var s := Run(Start(), steps);
            var root := if s.c.deferredCommittedRoot != "" then s.c.deferredCommittedRoot else s.pending[n];
            var s1, cont := Apply(s, ResolveStep(n)), AfterOpen(s.pending[n], n, false);
            && Enabled(s1, ResumeStep(cont))
            && var s2 := Apply(s1, ResumeStep(cont));
               Enabled(s2, RejectStep(s.c.sequence)) && FailedTo(s2, Apply(s2, RejectStep(s.c.sequence)), root)
  {
    var s := Run(Start(), steps);
    RunKeepsRemembered(Start(), steps);
    OlderOpenIsPutOff(s, n);
    var s2 := Apply(Apply(s, ResolveStep(n)), ResumeStep(AfterOpen(s.pending[n], n, false)));
    FailureCommits(s2, if s.c.deferredCommittedRoot != "" then s.c.deferredCommittedRoot else s.pending[n]);
  }

  /** With nothing put off, the failure commits nothing, and late opens may still commit. */
  lemma PlainFailure(steps: seq<Step>)
    requires Runs(Start(), steps) && Run(Start(), steps).c.IsOpening()
    requires var c := Run(Start(), steps).c; c.deferredCommittedRoot == "" && c.deferredCompletedRoot == ""
    ensures var s := Run(Start(), steps);
            && Enabled(s, RejectStep(s.c.sequence))
            && var s' := Apply(s, RejectStep(s.c.sequence));
               && s'.commits == s.commits && s'.c.committedRoot == s.c.committedRoot && s'.c.sequence == s.c.sequence
               && !s'.c.IsOpening() && s'.c.allowStaleDirectReconcile
  {
    RunKeepsRemembered(Start(), steps);
  }

  /** A new open puts off nothing, and is the one that is opening. */
  lemma OpenStartsAfresh(steps: seq<Step>, root: string)
    requires Runs(Start(), steps)
    ensures var s, s' := Run(Start(), steps), Apply(Run(Start(), steps), OpenStep(root));
            && s'.c.IsOpening() && s'.c.openingTarget == root && s'.c.sequence == s.c.sequence + 1
            && s'.c.deferredCommittedRoot == "" && s'.c.deferredCompletedRoot == ""
            && s'.c.Direct(root, s'.c.sequence) && s'.pending == s.pending[s'.c.sequence := root]
            && s'.commits == s.commits && s'.c.committedRoot == s.c.committedRoot
  {
  }
}
