/** What the board's directories keep over every run of commands, crashes between any two
    operations included. */
module BoardRuns {
  import opened BoardDir
  import BoardPromotion

  /** A task's ID: what normalizeTaskID and a prefix that is no dot name leave. */
  predicate IsTaskId(id: string) { id != "" && !IsHidden(id) && !HasSuffix(id, ".md") }

  datatype Step =
    | Move(id: string, c: Checks, target: Status)
    | Create(id: string, prefix: string, n: nat, s: Status, legacyFile: bool, text: string)
    | Promote(id: string, s: Status, sources: seq<Attachment>, rewrite: string -> string, token: string)
    | Edit(id: string, s: Status, rewrite: string -> string)
    | Cleanup(id: string, s: Status)

  ghost function PlanOf(d: Disk, step: Step): Plan {
    match step
    case Move(id, c, target) => MovePlan(d.entries, c, id, target)
    case Create(_, prefix, n, s, legacyFile, text) => Perform(CreateOps(prefix, n, s, legacyFile, text))
    case Promote(id, s, sources, rewrite, token) => PromotePlan(d.entries, s, id, sources, rewrite, token)
    case Edit(id, s, rewrite) => EditPlan(d.entries, s, id, rewrite)
    case Cleanup(id, s) => CleanupPlan(d.entries, s, id)
  }

  ghost function OpsOf(d: Disk, step: Step): seq<Op> { Steps(PlanOf(d, step)) }

  ghost predicate Enabled(d: Disk, step: Step) {
    && IsTaskId(step.id)
    && (step.Create? ==> step.id == TaskName(step.prefix, step.n) && Allocates(d, step.prefix, step.n))
  }

  // ---------------------------------------------------------------- what an operation leaves alone

  /** The operations are on the task's own two names and, if `staging`, on a dot name. */
  predicate IsOwn(p: Path, id: string) { p.name == id || p.name == FileName(id) || IsHidden(p.name) }

  predicate OwnOp(op: Op, id: string) {
    match op
    case SetNextId(_) => true
    case MakeFolder(q) => IsOwn(q, id)
    case WriteMember(q, _, _) => IsOwn(q, id)
    case WriteFile(q, _) => IsOwn(q, id)
    case Rename(q, to) => IsOwn(q, id) && IsOwn(to, id)
    case Remove(q) => IsOwn(q, id)
  }

  lemma StepsAreOwn(d: Disk, step: Step, i: nat)
    requires Enabled(d, step) && i < |OpsOf(d, step)|
    ensures OwnOp(OpsOf(d, step)[i], step.id)
  {
    if step.Promote? {
      assert IsHidden(Staging(step.id, step.token));
    }
  }

  lemma NamesDiffer(id: string, other: string)
    requires IsTaskId(id) && IsTaskId(other) && id != other
    ensures other != FileName(id) && FileName(other) != id && FileName(other) != FileName(id)
    ensures !IsHidden(FileName(other))
  {
    assert FileName(id)[|id|..] == ".md" && FileName(other)[|other|..] == ".md";
    assert FileName(other)[0] == other[0];
    if FileName(other) == FileName(id) {
      FileNameIsInjective(other, id);
    }
  }

  /** Every other task keeps both its entries, at every crash point. */
  lemma OthersAreUntouched(d: Disk, step: Step, k: nat, other: string, s: Status)
    requires Enabled(d, step) && k <= |OpsOf(d, step)| && IsTaskId(other) && other != step.id
    ensures var e := After(d, OpsOf(d, step), k).entries;
            && At(e, Path(s, other)) == At(d.entries, Path(s, other))
            && At(e, Path(s, FileName(other))) == At(d.entries, Path(s, FileName(other)))
            && Resolve(e, s, other) == Resolve(d.entries, s, other)
  {
    var ops := OpsOf(d, step);
    NamesDiffer(step.id, other);
    forall i | 0 <= i < k
      ensures !Touches(ops[i], Path(s, other)) && !Touches(ops[i], Path(s, FileName(other)))
    {
      StepsAreOwn(d, step, i);
    }
    Untouched(d, ops, k, Path(s, other));
    Untouched(d, ops, k, Path(s, FileName(other)));
  }

  // ---------------------------------------------------------------- a move, at every crash point

  /** Where the lookup finds the moved task after `k` of `n` operations: at its source until
      the rename, which is the last but one, and then at its target, with the new log entry
      once the last is done. */
  function Moving(was: Lookup, u: Status, s: Status, target: Status, k: nat, n: nat, source: Lookup,
                  logged: string): Lookup {
    if u == s then (if k + 1 < n then source else Missing)
    else if u == target then
      (if k + 1 < n then Missing else if k + 1 == n || !source.Found? then source else Found(source.form, logged))
    else was
  }

  /** A task in folder form that can go from `s` to `target`. */
  predicate MovableFolder(e: Entries, id: string, s: Status, target: Status) {
    && Resolve(e, s, id).Found? && Resolve(e, s, id).form.FolderForm?
    && s != target && !Occupied(e, target, id) && id != FileName(id)
  }

  lemma SiblingGone(d: Disk, id: string, s: Status, target: Status, u: Status)
    requires MovableFolder(d.entries, id, s, target)
    ensures var d1 := Do(d, Remove(Path(s, FileName(id))));
            && Resolve(d1.entries, u, id) == Resolve(d.entries, u, id)
            && MovableFolder(d1.entries, id, s, target) && Path(s, FileName(id)) !in d1.entries
  {
  }

  lemma FolderRenamed(d: Disk, id: string, s: Status, target: Status, u: Status)
    requires MovableFolder(d.entries, id, s, target) && Path(s, FileName(id)) !in d.entries
    ensures var d2 := Do(d, Rename(Path(s, id), Path(target, id)));
            && Resolve(d2.entries, u, id)
               == (if u == s then Missing
                   else if u == target then Resolve(d.entries, s, id)
                   else Resolve(d.entries, u, id))
            && At(d2.entries, Path(target, id)) == At(d.entries, Path(s, id))
            && Path(target, FileName(id)) !in d2.entries
  {
  }

  lemma EntryWritten(d: Disk, id: string, target: Status, text: string, u: Status)
    requires Resolve(d.entries, target, id).Found? && Resolve(d.entries, target, id).form.FolderForm?
    requires id != FileName(id)
    ensures Resolve(Do(d, WriteMember(Path(target, id), TaskFile, text)).entries, u, id)
            == if u == target then Found(FolderForm, text) else Resolve(d.entries, u, id)
  {
  }

  lemma MoveFolderAtAnyCrash(d: Disk, id: string, s: Status, target: Status, entry: string, k: nat, u: Status)
    requires MovableFolder(d.entries, id, s, target) && k <= 3
    ensures var source := Resolve(d.entries, s, id);
            Resolve(After(d, MoveOps(d.entries, id, s, target, entry), k).entries, u, id)
            == Moving(Resolve(d.entries, u, id), u, s, target, k, 3, source, Logged(source.text, entry))
  {
    var ops := MoveOps(d.entries, id, s, target, entry);
    var d1 := Do(d, ops[0]);
    var d2 := Do(d1, ops[1]);
    AfterOne(d, ops);
    AfterTwo(d, ops);
    AfterThree(d, ops);
    SiblingGone(d, id, s, target, u);
    SiblingGone(d, id, s, target, s);
    FolderRenamed(d1, id, s, target, u);
    FolderRenamed(d1, id, s, target, target);
    EntryWritten(d2, id, target, Logged(Resolve(d.entries, s, id).text, entry), u);
  }

  lemma MoveFileAtAnyCrash(d: Disk, id: string, s: Status, target: Status, entry: string, k: nat, u: Status)
    requires Resolve(d.entries, s, id).Found? && Resolve(d.entries, s, id).form.FileForm? && s != target
    requires !Occupied(d.entries, target, id)
    requires id != FileName(id) && k <= 2
    ensures var source := Resolve(d.entries, s, id);
            Resolve(After(d, MoveOps(d.entries, id, s, target, entry), k).entries, u, id)
            == Moving(Resolve(d.entries, u, id), u, s, target, k, 2, source, Logged(source.text, entry))
  {
    var ops := MoveOps(d.entries, id, s, target, entry);
    AfterOne(d, ops);
    AfterTwo(d, ops);
  }

  lemma SourceIsHome(e: Entries, id: string, target: Status)
    requires SourceOf(e, id, target).From?
    ensures var s := SourceOf(e, id, target).status; OnlyIn(e, id, s) && s != target && Readable(e, id)
  {
  }

  lemma {:induction false} MoveAtAnyCrash(d: Disk, id: string, c: Checks, target: Status, k: nat, u: Status)
    requires MovePlan(d.entries, c, id, target).Perform? && k <= |Steps(MovePlan(d.entries, c, id, target))|
    ensures SourceOf(d.entries, id, target).From?
    ensures var ops := Steps(MovePlan(d.entries, c, id, target));
            var s := SourceOf(d.entries, id, target).status;
            var source := Resolve(d.entries, s, id);
            && source.Found? && OnlyIn(d.entries, id, s) && s != target && Readable(d.entries, id)
            && Resolve(After(d, ops, k).entries, u, id)
               == Moving(Resolve(d.entries, u, id), u, s, target, k, |ops|, source, Logged(source.text, c.entry(s)))
  {
    SourceIsHome(d.entries, id, target);
    var s := SourceOf(d.entries, id, target).status;
    assert Lives(d.entries, s, id);
    assert |id| != |FileName(id)|;
    if Resolve(d.entries, s, id).form.FolderForm? {
      MoveFolderAtAnyCrash(d, id, s, target, c.entry(s), k, u);
    } else {
      MoveFileAtAnyCrash(d, id, s, target, c.entry(s), k, u);
    }
  }

  // ---------------------------------------------------------------- the other steps, at every crash point

  lemma CreateFileAtAnyCrash(d: Disk, id: string, n: nat, s: Status, text: string, k: nat, u: Status)
    requires !Occupied(d.entries, u, id) && !Occupied(d.entries, s, id) && id != FileName(id) && k <= 2
    ensures Resolve(After(d, [SetNextId(n), WriteFile(Path(s, FileName(id)), text)], k).entries, u, id)
            == if u == s && k == 2 then Found(FileForm, text) else Missing
  {
    var ops := [SetNextId(n), WriteFile(Path(s, FileName(id)), text)];
    AfterOne(d, ops);
    AfterTwo(d, ops);
  }

  lemma CreateFolderAtAnyCrash(d: Disk, id: string, n: nat, s: Status, text: string, k: nat, u: Status)
    requires !Occupied(d.entries, u, id) && !Occupied(d.entries, s, id) && id != FileName(id) && k <= 3
    ensures var ops := [SetNextId(n), MakeFolder(Path(s, id)), WriteMember(Path(s, id), TaskFile, text)];
            Resolve(After(d, ops, k).entries, u, id)
            == if u == s && k == 3 then Found(FolderForm, text) else Missing
  {
    var ops := [SetNextId(n), MakeFolder(Path(s, id)), WriteMember(Path(s, id), TaskFile, text)];
    AfterOne(d, ops);
    AfterTwo(d, ops);
    AfterThree(d, ops);
  }

  lemma CreateAtAnyCrash(d: Disk, prefix: string, n: nat, s: Status, legacyFile: bool, text: string, k: nat, u: Status)
    requires !IdExists(d.entries, prefix, n) && k <= |CreateOps(prefix, n, s, legacyFile, text)|
    ensures var ops, id := CreateOps(prefix, n, s, legacyFile, text), TaskName(prefix, n);
            && Resolve(d.entries, u, id) == Missing
            && Resolve(After(d, ops, k).entries, u, id)
               == (if u == s && k == |ops| then Found(if legacyFile then FileForm else FolderForm, text) else Missing)
  {
    var id := TaskName(prefix, n);
    assert |id| != |FileName(id)|;
    assert !Occupied(d.entries, u, id) && !Occupied(d.entries, s, id);
    if legacyFile {
      CreateFileAtAnyCrash(d, id, n + 1, s, text, k, u);
    } else {
      CreateFolderAtAnyCrash(d, id, n + 1, s, text, k, u);
    }
  }

  function Rewritten(was: Lookup, k: nat, rewrite: string -> string): Lookup {
    if k > 0 && was.Found? then Found(was.form, rewrite(was.text)) else was
  }

  lemma EditFolderAtAnyCrash(d: Disk, s: Status, id: string, rewrite: string -> string, k: nat, u: Status)
    requires Resolve(d.entries, s, id).Found? && Resolve(d.entries, s, id).form.FolderForm? && k <= 2
    requires id != FileName(id)
    ensures Resolve(After(d, Steps(EditPlan(d.entries, s, id, rewrite)), k).entries, u, id)
            == if u == s then Rewritten(Resolve(d.entries, s, id), k, rewrite) else Resolve(d.entries, u, id)
  {
    var ops := Steps(EditPlan(d.entries, s, id, rewrite));
    AfterOne(d, ops);
    AfterTwo(d, ops);
  }

  lemma EditFileAtAnyCrash(d: Disk, s: Status, id: string, rewrite: string -> string, k: nat, u: Status)
    requires Resolve(d.entries, s, id).Found? && Resolve(d.entries, s, id).form.FileForm? && k <= 1
    requires id != FileName(id)
    ensures Resolve(After(d, Steps(EditPlan(d.entries, s, id, rewrite)), k).entries, u, id)
            == if u == s then Rewritten(Resolve(d.entries, s, id), k, rewrite) else Resolve(d.entries, u, id)
  {
    AfterOne(d, Steps(EditPlan(d.entries, s, id, rewrite)));
  }

  lemma EditAtAnyCrash(d: Disk, s: Status, id: string, rewrite: string -> string, k: nat, u: Status)
    requires EditPlan(d.entries, s, id, rewrite).Perform? && k <= |Steps(EditPlan(d.entries, s, id, rewrite))|
    ensures Lives(d.entries, s, id)
    ensures Resolve(After(d, Steps(EditPlan(d.entries, s, id, rewrite)), k).entries, u, id)
            == if u == s then Rewritten(Resolve(d.entries, s, id), k, rewrite) else Resolve(d.entries, u, id)
  {
    assert |id| != |FileName(id)|;
    if Resolve(d.entries, s, id).form.FolderForm? {
      EditFolderAtAnyCrash(d, s, id, rewrite, k, u);
    } else {
      EditFileAtAnyCrash(d, s, id, rewrite, k, u);
    }
  }

  lemma CleanupAtAnyCrash(d: Disk, s: Status, id: string, k: nat, u: Status)
    requires k <= |Steps(CleanupPlan(d.entries, s, id))| && !Resolve(d.entries, s, id).Broken?
    ensures Resolve(After(d, Steps(CleanupPlan(d.entries, s, id)), k).entries, u, id) == Resolve(d.entries, u, id)
  {
    var ops := Steps(CleanupPlan(d.entries, s, id));
    assert |id| != |FileName(id)|;
    if |ops| > 0 {
      AfterOne(d, ops);
    }
  }

  // ---------------------------------------------------------------- what one step does to its own task

  /** The task's text after `k` operations of a step: rewritten once the operation that does
      so is done. */
  function NewText(step: Step, was: string, s: Status): string {
    match step
    case Move(_, c, _) => Logged(was, c.entry(s))
    case Promote(_, _, _, rewrite, _) => rewrite(was)
    case Edit(_, _, rewrite) => rewrite(was)
    case _ => was
  }

  /** No lookup of a task's ID fails, and no task lives in two statuses. */
  ghost predicate Inv(e: Entries) {
    forall id :: IsTaskId(id) ==> InvOf(e, id)
  }

  ghost predicate InvOf(e: Entries, id: string) {
    Readable(e, id) && forall s, t :: Lives(e, s, id) && Lives(e, t, id) ==> s == t
  }

  /** The task lived in `s` and now lives in `t`: in `s` still or, for a move, in the target.
      Its text is what it was or what the step makes of it. */
  ghost predicate SurvivesIn(e: Entries, e': Entries, step: Step, s: Status, t: Status)
    requires Lives(e, s, step.id)
  {
    var was := Resolve(e, s, step.id).text;
    && Lives(e', t, step.id) && (t == s || (step.Move? && t == step.target))
    && (Resolve(e', t, step.id).text == was || Resolve(e', t, step.id).text == NewText(step, was, s))
  }

  ghost predicate Survives(e: Entries, e': Entries, step: Step, s: Status)
    requires Lives(e, s, step.id)
  {
    exists t :: SurvivesIn(e, e', step, s, t)
  }

  lemma OwnTaskAfterMove(d: Disk, step: Step, k: nat, s: Status)
    requires step.Move? && k <= |OpsOf(d, step)| && InvOf(d.entries, step.id) && PlanOf(d, step).Perform?
    ensures InvOf(After(d, OpsOf(d, step), k).entries, step.id)
    ensures Lives(d.entries, s, step.id) ==> Survives(d.entries, After(d, OpsOf(d, step), k).entries, step, s)
  {
    var e, n := After(d, OpsOf(d, step), k).entries, |OpsOf(d, step)|;
    MoveAtAnyCrash(d, step.id, step.c, step.target, k, s);
    var src := SourceOf(d.entries, step.id, step.target).status;
    var source := Resolve(d.entries, src, step.id);
    var logged := Logged(source.text, step.c.entry(src));
    forall u
      ensures Resolve(e, u, step.id)
              == Moving(Resolve(d.entries, u, step.id), u, src, step.target, k, n, source, logged)
    {
      MoveAtAnyCrash(d, step.id, step.c, step.target, k, u);
    }
    MovingKeepsOne(d.entries, e, step.id, src, step.target, k, n, source, logged);
    var t := if k + 1 < n then src else step.target;
    if Lives(d.entries, s, step.id) {
      assert s == src;
      assert SurvivesIn(d.entries, e, step, s, t);
    }
  }

  lemma MovingKeepsOne(was: Entries, e: Entries, id: string, s: Status, target: Status, k: nat, n: nat, source: Lookup,
                       logged: string)
    requires InvOf(was, id) && source == Resolve(was, s, id) && source.Found? && s != target
    requires forall u :: Resolve(e, u, id) == Moving(Resolve(was, u, id), u, s, target, k, n, source, logged)
    ensures InvOf(e, id)
  {
    assert Lives(was, s, id);
    forall u
      ensures !Resolve(e, u, id).Broken?
      ensures Lives(e, u, id) ==> u == if k + 1 < n then s else target
    {
      assert Resolve(e, u, id) == Moving(Resolve(was, u, id), u, s, target, k, n, source, logged);
      assert Lives(was, u, id) ==> u == s;
    }
  }

  lemma OwnTaskAfterCreate(d: Disk, step: Step, k: nat, s: Status)
    requires step.Create? && Enabled(d, step) && k <= |OpsOf(d, step)|
    ensures InvOf(After(d, OpsOf(d, step), k).entries, step.id) && !Lives(d.entries, s, step.id)
  {
    forall u
      ensures !Resolve(After(d, OpsOf(d, step), k).entries, u, step.id).Broken?
      ensures Lives(After(d, OpsOf(d, step), k).entries, u, step.id) ==> u == step.s
      ensures !Lives(d.entries, u, step.id)
    {
      CreateAtAnyCrash(d, step.prefix, step.n, step.s, step.legacyFile, step.text, k, u);
    }
  }

  lemma OwnTaskAfterPromote(d: Disk, step: Step, k: nat, s: Status)
    requires step.Promote? && Enabled(d, step) && k <= |OpsOf(d, step)| && InvOf(d.entries, step.id)
    requires PlanOf(d, step).Perform?
    ensures InvOf(After(d, OpsOf(d, step), k).entries, step.id)
    ensures Lives(d.entries, s, step.id) ==> Survives(d.entries, After(d, OpsOf(d, step), k).entries, step, s)
  {
    var e := After(d, OpsOf(d, step), k).entries;
    forall u
      ensures Renewed(d.entries, e, step, u)
    {
      BoardPromotion.PromotionAtAnyCrash(d, step.s, step.id, step.sources, step.rewrite, step.token, k, u);
    }
    RenewedKeepsOne(d.entries, e, step, s);
  }

  /** The task is found in the same statuses, with its text or its new text. */
  ghost predicate Renewed(was: Entries, e: Entries, step: Step, u: Status) {
    var a, b := Resolve(was, u, step.id), Resolve(e, u, step.id);
    a == b || (a.Found? && b.Found? && b.text == NewText(step, a.text, u))
  }

  lemma RenewedKeepsOne(was: Entries, e: Entries, step: Step, s: Status)
    requires InvOf(was, step.id) && forall u :: Renewed(was, e, step, u)
    ensures InvOf(e, step.id) && (Lives(was, s, step.id) ==> Survives(was, e, step, s))
  {
    forall u
      ensures Lives(e, u, step.id) == Lives(was, u, step.id) && !Resolve(e, u, step.id).Broken?
    {
      assert Renewed(was, e, step, u);
    }
    if Lives(was, s, step.id) {
      assert Renewed(was, e, step, s);
      assert SurvivesIn(was, e, step, s, s);
    }
  }

  lemma OwnTaskAfterEdit(d: Disk, step: Step, k: nat, s: Status)
    requires (step.Edit? || step.Cleanup?) && k <= |OpsOf(d, step)| && InvOf(d.entries, step.id)
    requires PlanOf(d, step).Perform?
    ensures InvOf(After(d, OpsOf(d, step), k).entries, step.id)
    ensures Lives(d.entries, s, step.id) ==> Survives(d.entries, After(d, OpsOf(d, step), k).entries, step, s)
  {
    var e := After(d, OpsOf(d, step), k).entries;
    forall u
      ensures Renewed(d.entries, e, step, u)
    {
      if step.Edit? {
        EditAtAnyCrash(d, step.s, step.id, step.rewrite, k, u);
      } else {
        CleanupAtAnyCrash(d, step.s, step.id, k, u);
      }
    }
    RenewedKeepsOne(d.entries, e, step, s);
  }

  lemma OwnTaskAtAnyCrash(d: Disk, step: Step, k: nat, s: Status)
    requires Enabled(d, step) && k <= |OpsOf(d, step)| && InvOf(d.entries, step.id)
    ensures InvOf(After(d, OpsOf(d, step), k).entries, step.id)
    ensures Lives(d.entries, s, step.id) ==> Survives(d.entries, After(d, OpsOf(d, step), k).entries, step, s)
  {
    if !PlanOf(d, step).Perform? {
      assert Lives(d.entries, s, step.id) ==> SurvivesIn(d.entries, d.entries, step, s, s);
    } else {
      match step
      case Move(_, _, _) => OwnTaskAfterMove(d, step, k, s);
      case Create(_, _, _, _, _, _) => OwnTaskAfterCreate(d, step, k, s);
      case Promote(_, _, _, _, _) => OwnTaskAfterPromote(d, step, k, s);
      case _ => OwnTaskAfterEdit(d, step, k, s);
    }
  }

  lemma SameLookups(was: Entries, e: Entries, id: string)
    requires InvOf(was, id) && forall u :: Resolve(e, u, id) == Resolve(was, u, id)
    ensures InvOf(e, id)
  {
    forall u
      ensures Lives(e, u, id) == Lives(was, u, id) && !Resolve(e, u, id).Broken?
    {
      assert Resolve(e, u, id) == Resolve(was, u, id);
    }
  }

  /** One step, whole or cut short: every other task is as it was, the step's own task
      survives it, and the invariant holds again. */
  lemma StepAtAnyCrash(d: Disk, step: Step, k: nat, id: string, s: Status)
    requires Inv(d.entries) && Enabled(d, step) && k <= |OpsOf(d, step)| && IsTaskId(id)
    ensures var e := After(d, OpsOf(d, step), k).entries;
            && InvOf(e, id)
            && (id != step.id ==> Resolve(e, s, id) == Resolve(d.entries, s, id))
            && (id == step.id && Lives(d.entries, s, id) ==> Survives(d.entries, e, step, s))
  {
    assert InvOf(d.entries, id);
    if id != step.id {
      var e := After(d, OpsOf(d, step), k).entries;
      forall u
        ensures Resolve(e, u, id) == Resolve(d.entries, u, id)
      {
        OthersAreUntouched(d, step, k, id, u);
      }
      SameLookups(d.entries, e, id);
    } else {
      OwnTaskAtAnyCrash(d, step, k, s);
    }
  }

  lemma StepKeepsInv(d: Disk, step: Step, k: nat)
    requires Inv(d.entries) && Enabled(d, step) && k <= |OpsOf(d, step)|
    ensures Inv(After(d, OpsOf(d, step), k).entries)
  {
    forall id | IsTaskId(id)
      ensures InvOf(After(d, OpsOf(d, step), k).entries, id)
    {
      StepAtAnyCrash(d, step, k, id, Backlog);
    }
  }

  // ---------------------------------------------------------------- over a whole run

  /** A step and how many of its operations were done before a crash, if there was one. */
  datatype Turn = Turn(step: Step, k: nat)

  ghost function Next(d: Disk, t: Turn): Disk
    requires t.k <= |OpsOf(d, t.step)|
  {
    After(d, OpsOf(d, t.step), t.k)
  }

  ghost predicate Runs(d: Disk, turns: seq<Turn>)
    decreases |turns|
  {
    turns == []
    || (Enabled(d, turns[0].step) && turns[0].k <= |OpsOf(d, turns[0].step)| && Runs(Next(d, turns[0]), turns[1..]))
  }

  ghost function Run(d: Disk, turns: seq<Turn>): Disk
    requires Runs(d, turns)
    decreases |turns|
  {
    if turns == [] then d else Run(Next(d, turns[0]), turns[1..])
  }

  /** Each task ID lives in at most one status, and no lookup fails, after any run. */
  lemma {:induction false} EachTaskInOneStatus(d: Disk, turns: seq<Turn>)
    requires Inv(d.entries) && Runs(d, turns)
    ensures Inv(Run(d, turns).entries)
    decreases |turns|
  {
    if turns != [] {
      StepKeepsInv(d, turns[0].step, turns[0].k);
      EachTaskInOneStatus(Next(d, turns[0]), turns[1..]);
    }
  }

  /** No task is ever lost: one that lives somewhere still lives somewhere after any run,
      crashes included, and where no step names it, in the same place with the same text. */
  lemma {:induction false} NoTaskIsLost(d: Disk, turns: seq<Turn>, id: string, s: Status)
    requires Inv(d.entries) && Runs(d, turns) && IsTaskId(id) && Lives(d.entries, s, id)
    ensures exists t :: Lives(Run(d, turns).entries, t, id)
    ensures (forall i :: 0 <= i < |turns| ==> turns[i].step.id != id) ==>
              Resolve(Run(d, turns).entries, s, id) == Resolve(d.entries, s, id)
    decreases |turns|
  {
    if turns != [] {
      var d' := Next(d, turns[0]);
      assert Run(d, turns) == Run(d', turns[1..]);
      StepAtAnyCrash(d, turns[0].step, turns[0].k, id, s);
      StepKeepsInv(d, turns[0].step, turns[0].k);
      if id == turns[0].step.id {
        var t :| Lives(d'.entries, t, id);
        NoTaskIsLost(d', turns[1..], id, t);
      } else {
        NoTaskIsLost(d', turns[1..], id, s);
        assert forall i :: 0 <= i < |turns[1..]| ==> turns[1..][i] == turns[i + 1];
      }
    } else {
      assert Lives(Run(d, turns).entries, s, id);
    }
  }

  // ---------------------------------------------------------------- allocated IDs

  lemma NextIdOnlyGrows(d: Disk, step: Step, k: nat)
    requires Enabled(d, step) && k <= |OpsOf(d, step)|
    ensures After(d, OpsOf(d, step), k).nextId
            == if step.Create? && k > 0 then step.n + 1 else d.nextId
    ensures step.Create? ==> step.n >= d.nextId
  {
    var ops := OpsOf(d, step);
    if step.Create? {
      AfterOne(d, ops);
      NextIdOf(d, ops, k, 1);
    } else {
      forall i | 0 <= i < |ops|
        ensures !ops[i].SetNextId?
      {
        OnlyCreatesSetIt(d, step, i);
      }
      NextIdOf(d, ops, k, 0);
    }
  }

  lemma OnlyCreatesSetIt(d: Disk, step: Step, i: nat)
    requires i < |OpsOf(d, step)| && !step.Create?
    ensures !OpsOf(d, step)[i].SetNextId?
  {
  }

  lemma {:induction false} NextIdOf(d: Disk, ops: seq<Op>, k: nat, first: nat)
    requires k <= |ops| && forall i :: first <= i < |ops| ==> !ops[i].SetNextId?
    ensures first <= k ==> After(d, ops, k).nextId == After(d, ops, first).nextId
  {
    if k > first {
      NextIdOf(d, ops, k - 1, first);
    }
  }

  /** An ID handed out is never handed out again, even if its creation crashed. */
  lemma {:induction false} IdsAreNeverReused(d: Disk, turns: seq<Turn>, j: nat)
    requires Runs(d, turns) && j < |turns| && turns[j].step.Create?
    ensures turns[j].step.n >= d.nextId
    ensures forall i :: 0 <= i < j && turns[i].step.Create? && turns[i].k > 0 ==> turns[i].step.n < turns[j].step.n
    decreases |turns|
  {
    NextIdOnlyGrows(d, turns[0].step, turns[0].k);
    if j > 0 {
      assert turns[1..][j - 1] == turns[j];
      IdsAreNeverReused(Next(d, turns[0]), turns[1..], j - 1);
      forall i | 0 <= i < j && turns[i].step.Create? && turns[i].k > 0
        ensures turns[i].step.n < turns[j].step.n
      {
        if i > 0 {
          assert turns[1..][i - 1] == turns[i];
        }
      }
    }
  }
}
