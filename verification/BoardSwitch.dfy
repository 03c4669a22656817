/** The coordinator of board switches in the UI (gui/frontend/src/lib/boardSwitch.ts). Its
    async functions are cut at their awaits: each stretch of code between two awaits runs
    alone, and stretches of different calls come in any order. */
module BoardSwitch {
  import opened Wrappers

  datatype Coord = Coord(
    sequence: nat,
    openingSequence: nat,
    committedSequence: nat,
    committedRoot: string,
    openingTarget: string,
    deferredCommittedRoot: string,
    deferredCompletedRoot: string,
    allowStaleDirectReconcile: bool,
    directOpenSequences: map<string, nat>)
  {
    predicate IsOpening() { openingSequence != 0 }

    predicate Direct(root: string, num: nat) { root in directOpenSequences && directOpenSequences[root] == num }

    function Delete(root: string): Coord { this.(directOpenSequences := directOpenSequences - {root}) }

    function NextSequence(): Coord { this.(sequence := sequence + 1) }
  }

  function Initial(): Coord { Coord(0, 0, 0, "", "", "", "", false, map[]) }

  /** What commit did: it returns false, or true without doing anything, or true. */
  datatype Outcome = Refused | Already | Done

  function CommitOutcome(c: Coord, num: nat): Outcome {
    if num != c.sequence then Refused else if c.committedSequence == num then Already else Done
  }

  /** commit, up to its first await; what follows changes nothing. */
  function Committed(c: Coord, num: nat, root: string): Coord {
    if CommitOutcome(c, num) != Done then c
    else c.(committedSequence := num, committedRoot := root, openingSequence := 0, openingTarget := "",
            deferredCommittedRoot := "", deferredCompletedRoot := "", allowStaleDirectReconcile := false)
  }

  /** What a call does once the commit it awaits has returned. */
  datatype Cont =
    | AfterOpen(root: string, num: nat, ok: bool)
    | Forget(root: string)
    | Nothing

  /** A commit that was made. */
  datatype Made = Made(num: nat, root: string)

  /** The new state, the commit made, if any, and what is left to do. */
  datatype Segment = Segment(c: Coord, commit: Option<Made>, cont: Cont)

  function Commit(c: Coord, num: nat, root: string, cont: Cont): Segment {
    Segment(Committed(c, num, root), if CommitOutcome(c, num) == Done then Some(Made(num, root)) else None, cont)
  }

  // ---------------------------------------------------------------- open

  function Opened(c: Coord, root: string): Coord {
    var num := c.sequence + 1;
    Coord(num, num, 0, c.committedRoot, root, "", "", false, c.directOpenSequences[root := num])
  }

  /** openBoard has resolved for the open with number `num`. */
  function Resolved(c: Coord, num: nat, root: string): Segment {
    var canReconcileDirect := num != c.sequence && c.allowStaleDirectReconcile && c.Direct(root, num);
    var c' := if canReconcileDirect then c.NextSequence() else c;
    var commitSeq := if canReconcileDirect then c'.sequence else num;
    Commit(c', commitSeq, root, AfterOpen(root, num, CommitOutcome(c', commitSeq) != Refused))
  }

  /** openBoard has rejected. */
  function Rejected(c: Coord, num: nat, root: string): Segment {
    var c1 := c.Delete(root);
    if num != c1.sequence then Segment(c1, None, Nothing)
    else
      var c2 := c1.(openingSequence := 0, openingTarget := "", allowStaleDirectReconcile := true);
      var deferred := if c2.deferredCommittedRoot != "" then c2.deferredCommittedRoot else c2.deferredCompletedRoot;
      if deferred == "" then Segment(c2, None, Nothing)
      else Commit(c2.NextSequence(), c2.sequence + 1, deferred, Forget(deferred))
  }

  // ---------------------------------------------------------------- handleOpenedEvent

  /** `activeRoot` is None for null. */
  function Event(c: Coord, projectRoot: string, activeRoot: Option<string>): Segment {
    if activeRoot.None? then Segment(c, None, Nothing)
    else
      var active := activeRoot.value;
      var root := if projectRoot != "" then projectRoot else active;
      if root == "" || (active != "" && root != active) then Segment(c, None, Nothing)
      else EventFor(c, root, active)
  }

  function EventFor(c: Coord, root: string, active: string): Segment {
    var direct := root in c.directOpenSequences;
    var directSeq := if direct then c.directOpenSequences[root] else 0;
    if c.openingSequence != 0 && root != c.openingTarget then
      Segment(if direct && active == root then c.(deferredCommittedRoot := root) else c, None, Nothing)
    else if direct && directSeq < c.sequence then
      if c.allowStaleDirectReconcile && active == root then Commit(c.NextSequence(), c.sequence + 1, root, Forget(root))
      else Segment(c.Delete(root), None, Nothing)
    else if root == c.committedRoot then Segment(c.Delete(root), None, Nothing)
    else if direct && c.committedSequence == directSeq then Segment(c.Delete(root), None, Nothing)
    else
      var opening := c.openingSequence != 0 && root == c.openingTarget;
      var c' := if opening then c else c.NextSequence();
      var num := if opening then c.openingSequence else c'.sequence;
      Commit(c', num, root,
             if CommitOutcome(c', num) != Refused && direct && directSeq == num then Forget(root) else Nothing)
  }

  // ---------------------------------------------------------------- after the await

  function Resumed(c: Coord, cont: Cont): Coord {
    match cont
    case Nothing => c
    case Forget(root) => c.Delete(root)
    case AfterOpen(root, num, ok) =>
      if ok then c.Delete(root)
      else if num != c.sequence && c.openingSequence != 0 && c.Direct(root, num) then c.(deferredCompletedRoot := root)
      else c
  }

  // ---------------------------------------------------------------- the closure's variables

  class Coordinator {
    var sequence: nat
    var openingSequence: nat
    var committedSequence: nat
    var committedRoot: string
    var openingTarget: string
    var deferredCommittedRoot: string
    var deferredCompletedRoot: string
    var allowStaleDirectReconcile: bool
    var directOpenSequences: map<string, nat>

    ghost function Contents(): Coord
      reads this
    {
      Coord(sequence, openingSequence, committedSequence, committedRoot, openingTarget, deferredCommittedRoot,
            deferredCompletedRoot, allowStaleDirectReconcile, directOpenSequences)
    }

    constructor ()
      ensures Contents() == Initial()
    {
      sequence, openingSequence, committedSequence := 0, 0, 0;
      committedRoot, openingTarget, deferredCommittedRoot, deferredCompletedRoot := "", "", "", "";
      allowStaleDirectReconcile := false;
      directOpenSequences := map[];
    }

    method CommitNow(num: nat, projectRoot: string) returns (ok: bool, done: bool)
      modifies this
      ensures Contents() == Committed(old(Contents()), num, projectRoot)
      ensures ok == (CommitOutcome(old(Contents()), num) != Refused)
      ensures done == (CommitOutcome(old(Contents()), num) == Done)
    {
      if num != sequence {
        return false, false;
      }
      if committedSequence == num {
        return true, false;
      }
      committedSequence := num;
      committedRoot := projectRoot;
      openingSequence := 0;
      openingTarget := "";
      deferredCommittedRoot := "";
      deferredCompletedRoot := "";
      allowStaleDirectReconcile := false;
      return true, true;
    }

    method Open(projectRoot: string) returns (num: nat)
      modifies this
      ensures Contents() == Opened(old(Contents()), projectRoot) && num == sequence
    {
      sequence := sequence + 1;
      num := sequence;
      openingSequence := num;
      committedSequence := 0;
      openingTarget := projectRoot;
      deferredCommittedRoot := "";
      deferredCompletedRoot := "";
      allowStaleDirectReconcile := false;
      directOpenSequences := directOpenSequences[projectRoot := num];
    }

    method OpenResolved(num: nat, projectRoot: string) returns (cont: Cont)
      modifies this
      ensures Contents() == Resolved(old(Contents()), num, projectRoot).c
      ensures cont == Resolved(old(Contents()), num, projectRoot).cont
    {
      var canReconcileDirect := num != sequence && allowStaleDirectReconcile
                                && projectRoot in directOpenSequences && directOpenSequences[projectRoot] == num;
      var commitSeq := num;
      if canReconcileDirect {
        sequence := sequence + 1;
        commitSeq := sequence;
      }
      var ok, done := CommitNow(commitSeq, projectRoot);
      cont := AfterOpen(projectRoot, num, ok);
    }

    method OpenRejected(num: nat, projectRoot: string) returns (cont: Cont)
      modifies this
      ensures Contents() == Rejected(old(Contents()), num, projectRoot).c
      ensures cont == Rejected(old(Contents()), num, projectRoot).cont
    {
      directOpenSequences := directOpenSequences - {projectRoot};
      cont := Nothing;
      if num == sequence {
        openingSequence := 0;
        openingTarget := "";
        allowStaleDirectReconcile := true;
        if deferredCommittedRoot != "" {
          var root := deferredCommittedRoot;
          sequence := sequence + 1;
          var ok, done := CommitNow(sequence, root);
          cont := Forget(root);
        } else if deferredCompletedRoot != "" {
          var root := deferredCompletedRoot;
          sequence := sequence + 1;
          var ok, done := CommitNow(sequence, root);
          cont := Forget(root);
        }
      }
    }

    method HandleOpenedEvent(projectRoot: string, activeRoot: Option<string>) returns (cont: Cont)
      modifies this
      ensures Contents() == Event(old(Contents()), projectRoot, activeRoot).c
      ensures cont == Event(old(Contents()), projectRoot, activeRoot).cont
    {
      cont := Nothing;
      if activeRoot.None? {
        return;
      }
      var root := if projectRoot != "" then projectRoot else activeRoot.value;
      if root == "" {
        return;
      }
      if activeRoot.value != "" && root != activeRoot.value {
        return;
      }
      var direct := root in directOpenSequences;
      var directSeq := if direct then directOpenSequences[root] else 0;
      if openingSequence != 0 && root != openingTarget {
        if direct && activeRoot.value == root {
          deferredCommittedRoot := root;
        }
        return;
      }
      if direct && directSeq < sequence {
        if allowStaleDirectReconcile && activeRoot.value == root {
          sequence := sequence + 1;
          var committed, done := CommitNow(sequence, root);
          return Forget(root);
        }
        directOpenSequences := directOpenSequences - {root};
        return;
      }
      if root == committedRoot {
        directOpenSequences := directOpenSequences - {root};
        return;
      }
      if direct && committedSequence == directSeq {
        directOpenSequences := directOpenSequences - {root};
        return;
      }
      var num := openingSequence;
      if !(openingSequence != 0 && root == openingTarget) {
        sequence := sequence + 1;
        num := sequence;
      }
      var committed, done := CommitNow(num, root);
      if committed && direct && directSeq == num {
        cont := Forget(root);
      }
    }

    method Resume(cont: Cont)
      modifies this
      ensures Contents() == Resumed(old(Contents()), cont)
    {
      match cont {
        case Nothing =>
        case Forget(root) =>
          directOpenSequences := directOpenSequences - {root};
        case AfterOpen(root, num, ok) =>
          if ok {
            directOpenSequences := directOpenSequences - {root};
          } else if num != sequence && openingSequence != 0 && root in directOpenSequences
            && directOpenSequences[root] == num {
            deferredCompletedRoot := root;
          }
      }
    }
  }
}
