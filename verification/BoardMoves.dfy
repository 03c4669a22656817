/** What a move does when it happens, when it happens, and what the board's invariant means
    for it and for the directory scan. */
module BoardMoves {
  import opened Wrappers
  import opened BoardDir
  import opened BoardScan
  import BoardRuns
  import TaskSections
  import Lines = Text
  import Outline

  /** A move happens if and only if every lookup of the ID succeeds, it lives in exactly one
      status and that is not the target, a task bound for code-review names its review target,
      the guard agrees, and nothing at all is at the destination. Otherwise nothing changes. */
  lemma MoveHappensIff(d: Disk, c: Checks, id: string, target: Status)
    ensures var plan := MovePlan(d.entries, c, id, target);
            && (plan.Perform? <==>
                && Readable(d.entries, id)
                && (exists s :: s != target && MayMove(d.entries, c, id, s, target))
                && !Occupied(d.entries, target, id))
            && (!plan.Perform? ==> Performed(d, plan) == d)
  {
    var e := d.entries;
    if Readable(e, id) {
      forall s | OnlyIn(e, id, s)
        ensures SourceOf(e, id, target) == if s == target then Already else From(s)
      {
        SourceIs(e, id, s, target);
      }
    }
    var plan := MovePlan(e, c, id, target);
    if plan.Perform? {
      BoardRuns.SourceIsHome(e, id, target);
      assert MayMove(e, c, id, SourceOf(e, id, target).status, target);
    }
  }

  lemma SourceIs(e: Entries, id: string, s: Status, target: Status)
    requires Readable(e, id) && OnlyIn(e, id, s)
    ensures SourceOf(e, id, target) == if s == target then Already else From(s)
  {
    assert Lives(e, s, id);
    OnlyOne(e, id, s);
  }

  ghost predicate MayMove(e: Entries, c: Checks, id: string, s: Status, target: Status) {
    && OnlyIn(e, id, s)
    && (target == CodeReview ==> c.hasReviewRef(Text(e, s, id)))
    && c.guard(e, id, s, target)
  }

  function Text(e: Entries, s: Status, id: string): string {
    if Lives(e, s, id) then Resolve(e, s, id).text else ""
  }

  lemma OnlyOne(e: Entries, id: string, s: Status)
    requires OnlyIn(e, id, s)
    ensures forall t :: OnlyIn(e, id, t) ==> t == s
  {
    assert Lives(e, s, id);
  }

  // ---------------------------------------------------------------- what a move does

  /** The entry at `p` after a move. */
  function Moved(e: Entries, id: string, s: Status, target: Status, entry: string, p: Path): Option<Entry> {
    match Resolve(e, s, id)
    case Found(FolderForm, text) =>
      if p == Path(target, id) then Some(WithMember(At(e, Path(s, id)), TaskFile, Logged(text, entry)))
      else if p == Path(s, id) || p == Path(s, FileName(id)) then None
      else At(e, p)
    case Found(FileForm, text) =>
      if p == Path(target, FileName(id)) then Some(File(Logged(text, entry)))
      else if p == Path(s, FileName(id)) then None
      else At(e, p)
    case _ => At(e, p)
  }

  /** A move that happens relocates the task's folder with everything in it, or its file, and
      changes its markdown by one appended log entry. Every other path is untouched, except
      that an orphan file beside the folder is gone. */
  lemma MoveRelocatesOneTask(d: Disk, c: Checks, id: string, s: Status, target: Status, p: Path)
    requires MovePlan(d.entries, c, id, target).Perform? && OnlyIn(d.entries, id, s)
    ensures var d' := Performed(d, MovePlan(d.entries, c, id, target));
            && At(d'.entries, p) == Moved(d.entries, id, s, target, c.entry(s), p)
            && d'.nextId == d.nextId
  {
    var ops := Steps(MovePlan(d.entries, c, id, target));
    OnlyOne(d.entries, id, s);
    BoardRuns.SourceIsHome(d.entries, id, target);
    MoveEffect(d, id, s, target, c.entry(s), p);
  }

  /** A move overwrites nothing: every entry keeps its place and contents, but for the two
      names of the moved task in the status it leaves. */
  lemma NothingIsOverwritten(d: Disk, c: Checks, id: string, s: Status, target: Status, p: Path)
    requires MovePlan(d.entries, c, id, target).Perform? && OnlyIn(d.entries, id, s)
    requires p in d.entries && p != Path(s, id) && p != Path(s, FileName(id))
    ensures At(Performed(d, MovePlan(d.entries, c, id, target)).entries, p) == Some(d.entries[p])
  {
    OnlyOne(d.entries, id, s);
    BoardRuns.SourceIsHome(d.entries, id, target);
    MoveRelocatesOneTask(d, c, id, s, target, p);
  }

  lemma FolderMoveEffect(d: Disk, id: string, s: Status, target: Status, entry: string, p: Path)
    requires Lives(d.entries, s, id) && Resolve(d.entries, s, id).form.FolderForm?
    requires s != target && !Occupied(d.entries, target, id) && id != FileName(id)
    ensures var d' := After(d, MoveOps(d.entries, id, s, target, entry), 3);
            At(d'.entries, p) == Moved(d.entries, id, s, target, entry, p) && d'.nextId == d.nextId
  {
    AfterThree(d, MoveOps(d.entries, id, s, target, entry));
  }

  lemma FileMoveEffect(d: Disk, id: string, s: Status, target: Status, entry: string, p: Path)
    requires Lives(d.entries, s, id) && Resolve(d.entries, s, id).form.FileForm?
    requires s != target && !Occupied(d.entries, target, id)
    ensures var d' := After(d, MoveOps(d.entries, id, s, target, entry), 2);
            At(d'.entries, p) == Moved(d.entries, id, s, target, entry, p) && d'.nextId == d.nextId
  {
    AfterTwo(d, MoveOps(d.entries, id, s, target, entry));
  }

  lemma MoveEffect(d: Disk, id: string, s: Status, target: Status, entry: string, p: Path)
    requires Lives(d.entries, s, id) && s != target && !Occupied(d.entries, target, id)
    ensures var ops := MoveOps(d.entries, id, s, target, entry);
            var d' := After(d, ops, |ops|);
            At(d'.entries, p) == Moved(d.entries, id, s, target, entry, p) && d'.nextId == d.nextId
  {
    assert |id| != |FileName(id)|;
    if Resolve(d.entries, s, id).form.FolderForm? {
      FolderMoveEffect(d, id, s, target, entry, p);
    } else {
      FileMoveEffect(d, id, s, target, entry, p);
    }
  }

  /** After a move that happens the task lives in the target alone, in the form it had, and its
      markdown has one log entry more, at the end of its log: every other section and line of
      the outline is as it was. */
  lemma MoveAddsOneLogEntry(d: Disk, c: Checks, id: string, s: Status, target: Status)
    requires MovePlan(d.entries, c, id, target).Perform? && OnlyIn(d.entries, id, s)
    ensures var e' := Performed(d, MovePlan(d.entries, c, id, target)).entries;
            var was := Resolve(d.entries, s, id);
            && was.Found? && OnlyIn(e', id, target)
            && Resolve(e', target, id) == Found(was.form, Logged(was.text, c.entry(s)))
            && OneEntryMore(was.text, Logged(was.text, c.entry(s)), c.entry(s))
  {
    var e' := Performed(d, MovePlan(d.entries, c, id, target)).entries;
    OnlyOne(d.entries, id, s);
    forall u
      ensures Lives(e', u, id) <==> u == target
    {
      BoardRuns.MoveAtAnyCrash(d, id, c, target, |Steps(MovePlan(d.entries, c, id, target))|, u);
      assert Lives(d.entries, u, id) <==> u == s;
    }
    BoardRuns.MoveAtAnyCrash(d, id, c, target, |Steps(MovePlan(d.entries, c, id, target))|, target);
    LogOfMove(Resolve(d.entries, s, id).text, c.entry(s));
  }

  /** The outline of `text` is that of `was` with the entry at the end of its log section;
      said of markdown that has one, and of an entry that is one line. */
  ghost predicate OneEntryMore(was: string, text: string, entry: string) {
    var doc := TaskSections.Sectioned(was);
    var j := TaskSections.LogIndex(doc, "## Log");
    TaskSections.IsEntry(entry) && j < |doc.secs| ==>
      var log := doc.secs[j := Lines.TrimNewlines(doc.secs[j]) + "\n" + entry + "\n"];
      TaskSections.Sectioned(text) == Outline.Doc(doc.pre, log)
  }

  lemma LogOfMove(was: string, entry: string)
    ensures OneEntryMore(was, Logged(was, entry), entry)
  {
    var doc := TaskSections.Sectioned(was);
    var j := TaskSections.LogIndex(doc, "## Log");
    if TaskSections.IsEntry(entry) && j < |doc.secs| {
      TaskSections.LogGetsOneEntry(was, "## Log", entry, doc, j);
    }
  }

  // ---------------------------------------------------------------- on a board that keeps the invariant

  /** A move finds the task, or finds it already there, or finds nothing: never a failed or an
      ambiguous lookup. */
  lemma NoAmbiguousSource(e: Entries, id: string, target: Status)
    requires BoardRuns.InvOf(e, id)
    ensures match SourceOf(e, id, target)
            case Fail(why) => why == NotFound && forall s :: !Lives(e, s, id)
            case Already => OnlyIn(e, id, target)
            case From(s) => OnlyIn(e, id, s) && s != target
  {
    if s :| Lives(e, s, id) {
      assert OnlyIn(e, id, s);
    }
  }

  /** The scan lists a task exactly where the lookup by ID finds it, and in one status only. */
  lemma ScanAgrees(e: Entries, prefix: string, id: string, s: Status, t: Status)
    requires BoardRuns.Inv(e) && IsTaskDirName(prefix, id)
    ensures Scannable(e, s, prefix)
    ensures Listed(e, s, prefix, id) == FormOf(Resolve(e, s, id))
    ensures Listed(e, s, prefix, id).Some? && Listed(e, t, prefix, id).Some? ==> s == t
  {
    assert BoardRuns.InvOf(e, id);
    assert !Resolve(e, s, id).Broken? && !Resolve(e, t, id).Broken? && (Lives(e, s, id) && Lives(e, t, id) ==> s == t);
    ResolversAgreeIff(e, s, prefix, id);
    ResolversAgreeIff(e, t, prefix, id);
    forall name
      ensures !FolderListed(e, s, prefix, name).Broken?
    {
      if IsTaskDirName(prefix, name) {
        assert BoardRuns.InvOf(e, name);
        assert !Resolve(e, s, name).Broken?;
      }
    }
  }
}
