/** The board as directories (cli/board.go, cli/move.go, cli/attach.go, cli/create.go): one
    per status, in which task `id` is the file `id.md` or the folder `id` with its TASK.md. */
module BoardDir {
  import opened Wrappers

  // Commands run one at a time under the board lock; each changes the disk by a few atomic
  // operations, and a crash leaves any prefix of them done.

  import Text
  import TaskSections

  datatype Status = Backlog | Ready | InProgress | CodeReview | Done | Archive

  /** allStatusDirs. */
  const AllStatusDirs: seq<Status> := [Backlog, Ready, InProgress, CodeReview, Done, Archive]

  datatype Member = Text(text: string) | Subfolder

  datatype Entry = File(text: string) | Folder(members: map<string, Member>)

  datatype Path = Path(status: Status, name: string)

  type Entries = map<Path, Entry>

  /** What is on disk: the entries of the six directories, and .next-id. */
  datatype Disk = Disk(entries: Entries, nextId: nat)

  function At(e: Entries, p: Path): Option<Entry> { if p in e then Some(e[p]) else None }

  function FileName(id: string): string { id + ".md" }

  const TaskFile := "TASK.md"

  predicate HasSuffix(s: string, t: string) { |t| <= |s| && s[|s| - |t|..] == t }

  /** A name beginning with a dot: staging directories, temporary files. */
  predicate IsHidden(name: string) { name != "" && name[0] == '.' }

  // ---------------------------------------------------------------- operations on the disk

  /** Each is one system call, or one write to a temporary file renamed into place. */
  datatype Op =
    | SetNextId(id: nat)
    | MakeFolder(p: Path)
    | WriteMember(p: Path, name: string, text: string)
    | WriteFile(p: Path, text: string)
    | Rename(p: Path, to: Path)
    | Remove(p: Path)

  function WithMember(o: Option<Entry>, name: string, text: string): Entry {
    if o.Some? && o.value.Folder? then Folder(o.value.members[name := Text(text)]) else Folder(map[name := Text(text)])
  }

  function Do(d: Disk, op: Op): Disk {
    match op
    case SetNextId(id) => d.(nextId := id)
    case MakeFolder(p) => d.(entries := d.entries[p := Folder(map[])])
    case WriteMember(p, name, text) => d.(entries := d.entries[p := WithMember(At(d.entries, p), name, text)])
    case WriteFile(p, text) => d.(entries := d.entries[p := File(text)])
    case Rename(p, to) => if p in d.entries then d.(entries := (d.entries - {p})[to := d.entries[p]]) else d
    case Remove(p) => d.(entries := d.entries - {p})
  }

  /** The disk after the first `k` operations. */
  function After(d: Disk, ops: seq<Op>, k: nat): Disk
    requires k <= |ops|
  {
    if k == 0 then d else Do(After(d, ops, k - 1), ops[k - 1])
  }

  /** What a command will do, decided when it has the lock. */
  datatype Plan = Refused(why: Refusal) | Nothing | Perform(ops: seq<Op>)

  datatype Refusal = Unreadable | NotFound | Collision | Ambiguous | NoReviewRef | Guarded | BadSources | NotAFile

  function Steps(plan: Plan): seq<Op> { if plan.Perform? then plan.ops else [] }

  function Performed(d: Disk, plan: Plan): Disk { After(d, Steps(plan), |Steps(plan)|) }

  // ---------------------------------------------------------------- finding a task by its ID

  datatype Form = FileForm | FolderForm

  /** A task's canonical markdown in one status. */
  datatype Lookup = Missing | Broken | Found(form: Form, text: string)

  function FolderSide(o: Option<Entry>): Lookup {
    match o
    case None => Missing
    case Some(File(_)) => Broken
    case Some(Folder(members)) =>
      if TaskFile !in members then Missing
      else if members[TaskFile].Subfolder? then Broken
      else Found(FolderForm, members[TaskFile].text)
  }

  function FileSide(o: Option<Entry>): Lookup {
    match o
    case None => Missing
    case Some(File(text)) => Found(FileForm, text)
    case Some(Folder(_)) => Broken
  }

  function Preferred(folder: Lookup, file: Lookup): Lookup {
    if folder.Broken? || file.Broken? then Broken else if folder.Found? then folder else file
  }

  function Resolve(e: Entries, s: Status, id: string): Lookup {
    Preferred(FolderSide(At(e, Path(s, id))), FileSide(At(e, Path(s, FileName(id)))))
  }

  predicate Lives(e: Entries, s: Status, id: string) { Resolve(e, s, id).Found? }

  /** taskDestinationExists and idExists: anything at either path. */
  predicate Occupied(e: Entries, s: Status, id: string) { Path(s, FileName(id)) in e || Path(s, id) in e }

  // ---------------------------------------------------------------- moving

  /** What a move consults: whether a markdown names its review target, the guard of the
      command, and the log entry to write for a source status. */
  datatype Checks = Checks(
    hasReviewRef: string -> bool,
    guard: (Entries, string, Status, Status) -> bool,
    entry: Status -> string)

  datatype Source = Fail(why: Refusal) | Already | From(status: Status)

  ghost predicate Readable(e: Entries, id: string) { forall s :: !Resolve(e, s, id).Broken? }

  ghost predicate OnlyIn(e: Entries, id: string, s: Status) { forall t :: Lives(e, t, id) <==> t == s }

  ghost function SourceOf(e: Entries, id: string, target: Status): Source {
    if !Readable(e, id) then Fail(Unreadable)
    else if forall s :: !Lives(e, s, id) then Fail(NotFound)
    else if OnlyIn(e, id, target) then Already
    else if Lives(e, target, id) then Fail(Collision)
    else if exists s :: OnlyIn(e, id, s) then
      var s :| OnlyIn(e, id, s);
      From(s)
    else Fail(Ambiguous)
  }

  function Logged(text: string, entry: string): string { TaskSections.Logged(text, "## Log", entry) }

  function MoveOps(e: Entries, id: string, s: Status, target: Status, entry: string): seq<Op> {
    match Resolve(e, s, id)
    case Found(FolderForm, text) =>
      [Remove(Path(s, FileName(id))),
       Rename(Path(s, id), Path(target, id)),
       WriteMember(Path(target, id), TaskFile, Logged(text, entry))]
    case Found(FileForm, text) =>
      [Rename(Path(s, FileName(id)), Path(target, FileName(id))),
       WriteFile(Path(target, FileName(id)), Logged(text, entry))]
    case _ => []
  }

  ghost function MovePlan(e: Entries, c: Checks, id: string, target: Status): Plan {
    match SourceOf(e, id, target)
    case Fail(why) => Refused(why)
    case Already => Nothing
    case From(s) =>
      if target == CodeReview && Lives(e, s, id) && !c.hasReviewRef(Resolve(e, s, id).text) then Refused(NoReviewRef)
      else if !c.guard(e, id, s, target) then Refused(Guarded)
      else if Occupied(e, target, id) then Refused(Collision)
      else Perform(MoveOps(e, id, s, target, c.entry(s)))
  }

  // ---------------------------------------------------------------- creating

  function Decimal(n: nat): string {
    if n < 10 then ["0123456789"[n]] else Decimal(n / 10) + ["0123456789"[n % 10]]
  }

  function TaskName(prefix: string, n: nat): string { prefix + "-" + Decimal(n) }

  /** idExists. */
  predicate IdExists(e: Entries, prefix: string, n: nat) { exists s :: Occupied(e, s, TaskName(prefix, n)) }

  /** The ID that allocateID gives: the first free one from .next-id on. */
  ghost predicate Allocates(d: Disk, prefix: string, n: nat) {
    && d.nextId <= n && !IdExists(d.entries, prefix, n)
    && forall m :: d.nextId <= m < n ==> IdExists(d.entries, prefix, m)
  }

  function CreateOps(prefix: string, n: nat, s: Status, legacyFile: bool, text: string): seq<Op> {
    var id := TaskName(prefix, n);
    if legacyFile then [SetNextId(n + 1), WriteFile(Path(s, FileName(id)), text)]
    else [SetNextId(n + 1), MakeFolder(Path(s, id)), WriteMember(Path(s, id), TaskFile, text)]
  }

  // ---------------------------------------------------------------- promoting to a folder

  datatype Attachment = Attachment(name: string, data: string)

  /** unicode.ToLower on the letters that can make a reserved name: ASCII, and the Kelvin sign. */
  function Lower(s: string): string {
    seq(|s|, i requires 0 <= i < |s| =>
      if 'A' <= s[i] <= 'Z' then 'a' + (s[i] - 'A') else if s[i] == '\U{212A}' then 'k' else s[i])
  }

  /** isReservedAttachmentName. */
  predicate IsReserved(name: string) { IsHidden(name) || Lower(name) == "task.md" || Lower(name) == "attachments" }

  /** validateAttachmentLeafName. */
  predicate IsLeafName(name: string) {
    Text.TrimSpace(name) != "" && '\0' !in name && '/' !in name && '\\' !in name && !IsReserved(name)
  }

  /** Attachments have valid, distinct names. */
  predicate Importable(sources: seq<Attachment>) {
    && (forall i :: 0 <= i < |sources| ==> IsLeafName(sources[i].name))
    && (forall i, j :: 0 <= i < j < |sources| ==> sources[i].name != sources[j].name)
  }

  function Staging(id: string, token: string): string { "." + id + ".promote." + token }

  function CopyOps(staging: Path, sources: seq<Attachment>): seq<Op> {
    seq(|sources|, i requires 0 <= i < |sources| => WriteMember(staging, sources[i].name, sources[i].data))
  }

  /** Everything that happens before the folder is published. */
  function StagingOps(staging: Path, sources: seq<Attachment>, text: string): seq<Op> {
    [MakeFolder(staging)] + CopyOps(staging, sources) + [WriteMember(staging, TaskFile, text)]
  }

  function PromoteOps(s: Status, id: string, staging: Path, sources: seq<Attachment>, text: string): seq<Op> {
    StagingOps(staging, sources, text) + [Rename(staging, Path(s, id)), Remove(Path(s, FileName(id)))]
  }

  lemma PromoteOpsAre(s: Status, id: string, staging: Path, sources: seq<Attachment>, text: string)
    ensures var ops, n := PromoteOps(s, id, staging, sources, text), |sources|;
            && |ops| == n + 4 && ops[0] == MakeFolder(staging)
            && (forall i :: 0 <= i < n ==> ops[i + 1] == WriteMember(staging, sources[i].name, sources[i].data))
            && ops[n + 1] == WriteMember(staging, TaskFile, text)
            && ops[n + 2] == Rename(staging, Path(s, id)) && ops[n + 3] == Remove(Path(s, FileName(id)))
  {
  }

  /** `rewrite` adds the attachment list and the log entries to the markdown; `token` makes
      the staging name. */
  function PromotePlan(e: Entries, s: Status, id: string, sources: seq<Attachment>, rewrite: string -> string,
                       token: string): Plan {
    match Resolve(e, s, id)
    case Found(FileForm, text) =>
      if Path(s, id) in e then Refused(Collision)
      else if !Importable(sources) then Refused(BadSources)
      else if Path(s, Staging(id, token)) in e then Refused(Collision)
      else Perform(PromoteOps(s, id, Path(s, Staging(id, token)), sources, rewrite(text)))
    case Found(FolderForm, _) => Refused(NotAFile)
    case Missing => Refused(NotFound)
    case Broken => Refused(Unreadable)
  }

  // ---------------------------------------------------------------- editing and cleaning up

  /** The writes of tb edit: the markdown in place, then the orphan file if there is one. */
  function EditPlan(e: Entries, s: Status, id: string, rewrite: string -> string): Plan {
    match Resolve(e, s, id)
    case Found(FolderForm, text) =>
      Perform([WriteMember(Path(s, id), TaskFile, rewrite(text)), Remove(Path(s, FileName(id)))])
    case Found(FileForm, text) => Perform([WriteFile(Path(s, FileName(id)), rewrite(text))])
    case Missing => Refused(NotFound)
    case Broken => Refused(Unreadable)
  }

  /** cleanupOrphanFileFormSibling: nothing without a folder form. */
  function CleanupPlan(e: Entries, s: Status, id: string): Plan {
    match At(e, Path(s, id))
    case None => Nothing
    case Some(File(_)) => Refused(Unreadable)
    case Some(Folder(members)) =>
      if TaskFile !in members then Nothing
      else match At(e, Path(s, FileName(id)))
        case Some(Folder(inner)) =>
          if inner == map[] then Perform([Remove(Path(s, FileName(id)))]) else Refused(Unreadable)
        case _ => Perform([Remove(Path(s, FileName(id)))])
  }

  // ---------------------------------------------------------------- the commands

  lemma AllStatusDirsAreAll(s: Status)
    ensures s in AllStatusDirs
  {
    assert AllStatusDirs[0] == Backlog && AllStatusDirs[1] == Ready && AllStatusDirs[2] == InProgress;
    assert AllStatusDirs[3] == CodeReview && AllStatusDirs[4] == Done && AllStatusDirs[5] == Archive;
  }

  predicate Distinct<T(==)>(xs: seq<T>) { forall i, j :: 0 <= i < j < |xs| ==> xs[i] != xs[j] }

  ghost predicate ListsHomes(e: Entries, id: string, refs: seq<Status>, n: nat)
    requires n <= |AllStatusDirs|
  {
    && Distinct(refs)
    && (forall s :: s in refs <==> s in AllStatusDirs[..n] && Lives(e, s, id))
    && (forall s :: s in AllStatusDirs[..n] ==> !Resolve(e, s, id).Broken?)
  }

  lemma ListsMore(e: Entries, id: string, refs: seq<Status>, n: nat)
    requires n < |AllStatusDirs| && ListsHomes(e, id, refs, n) && !Resolve(e, AllStatusDirs[n], id).Broken?
    ensures ListsHomes(e, id, if Lives(e, AllStatusDirs[n], id) then refs + [AllStatusDirs[n]] else refs, n + 1)
  {
    assert AllStatusDirs[..n + 1] == AllStatusDirs[..n] + [AllStatusDirs[n]];
    assert AllStatusDirs[n] !in AllStatusDirs[..n];
  }

  lemma ListsAll(e: Entries, id: string, refs: seq<Status>)
    requires ListsHomes(e, id, refs, |AllStatusDirs|)
    ensures Readable(e, id) && forall s :: s in refs <==> Lives(e, s, id)
  {
    assert AllStatusDirs[..|AllStatusDirs|] == AllStatusDirs;
    forall s
      ensures s in AllStatusDirs
    {
      AllStatusDirsAreAll(s);
    }
  }

  lemma AfterOne(d: Disk, ops: seq<Op>)
    requires |ops| >= 1
    ensures After(d, ops, 1) == Do(d, ops[0])
  {
  }

  lemma AfterNext(d: Disk, ops: seq<Op>, k: nat)
    requires k < |ops|
    ensures After(d, ops, k + 1) == Do(After(d, ops, k), ops[k])
  {
  }

  lemma AfterTwo(d: Disk, ops: seq<Op>)
    requires |ops| >= 2
    ensures After(d, ops, 2) == Do(Do(d, ops[0]), ops[1])
  {
    AfterOne(d, ops);
  }

  lemma AfterThree(d: Disk, ops: seq<Op>)
    requires |ops| >= 3
    ensures After(d, ops, 3) == Do(Do(Do(d, ops[0]), ops[1]), ops[2])
  {
    AfterTwo(d, ops);
  }

  // ---------------------------------------------------------------- what an operation leaves alone

  predicate Touches(op: Op, p: Path) {
    match op
    case SetNextId(_) => false
    case MakeFolder(q) => q == p
    case WriteMember(q, _, _) => q == p
    case WriteFile(q, _) => q == p
    case Rename(q, to) => q == p || to == p
    case Remove(q) => q == p
  }

  lemma {:induction false} Untouched(d: Disk, ops: seq<Op>, k: nat, p: Path)
    requires k <= |ops| && forall i :: 0 <= i < k ==> !Touches(ops[i], p)
    ensures At(After(d, ops, k).entries, p) == At(d.entries, p)
  {
    if k > 0 {
      Untouched(d, ops, k - 1, p);
      assert !Touches(ops[k - 1], p);
    }
  }

  datatype Outcome = Rejected(why: Refusal) | Noop | Completed

  function OutcomeOf(plan: Plan): Outcome {
    match plan
    case Refused(why) => Rejected(why)
    case Nothing => Noop
    case Perform(_) => Completed
  }

  // ---------------------------------------------------------------- numbers and names

  lemma {:induction false} DecimalIsInjective(m: nat, n: nat)
    requires Decimal(m) == Decimal(n)
    ensures m == n
  {
    LastDigit(m);
    LastDigit(n);
    if m >= 10 {
      DecimalIsInjective(m / 10, n / 10);
    }
  }

  lemma LastDigit(n: nat)
    ensures var s := Decimal(n);
            && |s| >= 1 && s[|s| - 1] == "0123456789"[n % 10] && '0' <= s[|s| - 1] <= '9'
            && (|s| > 1 <==> n >= 10) && (n >= 10 ==> s[..|s| - 1] == Decimal(n / 10))
  {
  }

  lemma TaskNameIsInjective(prefix: string, m: nat, n: nat)
    requires TaskName(prefix, m) == TaskName(prefix, n)
    ensures m == n
  {
    assert TaskName(prefix, m)[|prefix| + 1..] == Decimal(m);
    assert TaskName(prefix, n)[|prefix| + 1..] == Decimal(n);
    DecimalIsInjective(m, n);
  }

  lemma FileNameIsInjective(a: string, b: string)
    requires FileName(a) == FileName(b)
    ensures a == b
  {
    assert FileName(a)[..|a|] == a && FileName(b)[..|b|] == b;
  }

  lemma TaskNameIsNoFileName(prefix: string, m: nat, n: nat)
    ensures TaskName(prefix, m) != FileName(TaskName(prefix, n))
  {
    LastDigit(m);
    var a, b := TaskName(prefix, m), FileName(TaskName(prefix, n));
    assert a[|a| - 1] != b[|b| - 1];
  }

  function Names(e: Entries): set<string> { set p | p in e :: p.name }

  /** Every name that a number from `n` on could clash with is in `left`. */
  ghost predicate AllAhead(e: Entries, prefix: string, n: nat, left: set<string>) {
    forall m: nat, s :: n <= m && Occupied(e, s, TaskName(prefix, m)) ==>
      (TaskName(prefix, m) in left || FileName(TaskName(prefix, m)) in left)
  }

  function Ahead(left: set<string>, prefix: string, n: nat): set<string> {
    left - {TaskName(prefix, n), FileName(TaskName(prefix, n))}
  }

  lemma NamesAhead(e: Entries, prefix: string, n: nat, left: set<string>)
    requires AllAhead(e, prefix, n, left) && IdExists(e, prefix, n)
    ensures Ahead(left, prefix, n) < left && AllAhead(e, prefix, n + 1, Ahead(left, prefix, n))
  {
    forall m: nat | m > n
      ensures TaskName(prefix, m) !in {TaskName(prefix, n), FileName(TaskName(prefix, n))}
      ensures FileName(TaskName(prefix, m)) !in {TaskName(prefix, n), FileName(TaskName(prefix, n))}
    {
      if TaskName(prefix, m) == TaskName(prefix, n) {
        TaskNameIsInjective(prefix, m, n);
      }
      if FileName(TaskName(prefix, m)) == FileName(TaskName(prefix, n)) {
        FileNameIsInjective(TaskName(prefix, m), TaskName(prefix, n));
      }
      TaskNameIsNoFileName(prefix, m, n);
      TaskNameIsNoFileName(prefix, n, m);
    }
    var s :| Occupied(e, s, TaskName(prefix, n));
  }

  class Board {
    var entries: Entries
    var nextId: nat

    ghost function Contents(): Disk
      reads this
    {
      Disk(entries, nextId)
    }

    constructor (entries: Entries, nextId: nat)
      ensures Contents() == Disk(entries, nextId)
    {
      this.entries, this.nextId := entries, nextId;
    }

    method Act(op: Op)
      modifies this
      ensures Contents() == Do(old(Contents()), op)
    {
      var d := Do(Disk(entries, nextId), op);
      entries, nextId := d.entries, d.nextId;
    }

    method ResolveTaskRefInStatus(s: Status, id: string) returns (r: Lookup)
      ensures r == Resolve(entries, s, id)
    {
      var folder, file := Missing, Missing;
      if Path(s, id) in entries {
        match entries[Path(s, id)]
        case File(_) => return Broken;
        case Folder(members) =>
          if TaskFile in members {
            if members[TaskFile].Subfolder? {
              return Broken;
            }
            folder := Found(FolderForm, members[TaskFile].text);
          }
      }
      if Path(s, FileName(id)) in entries {
        match entries[Path(s, FileName(id))]
        case Folder(_) => return Broken;
        case File(text) => file := Found(FileForm, text);
      }
      if folder.Found? {
        return folder;
      }
      return file;
    }

    method ResolveTaskRefsForID(id: string) returns (refs: seq<Status>, ok: bool)
      ensures ok <==> Readable(entries, id)
      ensures ok ==> ListsHomes(entries, id, refs, |AllStatusDirs|)
    {
      refs := [];
      for n := 0 to |AllStatusDirs|
        invariant ListsHomes(entries, id, refs, n)
      {
        var ref := ResolveTaskRefInStatus(AllStatusDirs[n], id);
        if ref.Broken? {
          return [], false;
        }
        ListsMore(entries, id, refs, n);
        if ref.Found? {
          refs := refs + [AllStatusDirs[n]];
        }
      }
      ListsAll(entries, id, refs);
      ok := true;
    }

    /** The homes other than the target, and whether that is one. */
    static method SplitRefs(refs: seq<Status>, target: Status) returns (sourceRefs: seq<Status>, targetExists: bool)
      requires Distinct(refs)
      ensures targetExists <==> target in refs
      ensures Distinct(sourceRefs) && forall s :: s in sourceRefs <==> s in refs && s != target
    {
      sourceRefs, targetExists := [], false;
      for n := 0 to |refs|
        invariant targetExists <==> target in refs[..n]
        invariant Distinct(sourceRefs) && forall s :: s in sourceRefs <==> s in refs[..n] && s != target
      {
        assert refs[..n + 1] == refs[..n] + [refs[n]];
        assert refs[n] !in refs[..n];
        if refs[n] == target {
          targetExists := true;
        } else {
          sourceRefs := sourceRefs + [refs[n]];
        }
      }
      assert refs[..|refs|] == refs;
    }

    method ResolveMoveSource(id: string, target: Status) returns (src: Source)
      ensures src == SourceOf(entries, id, target)
    {
      var refs, ok := ResolveTaskRefsForID(id);
      if !ok {
        return Fail(Unreadable);
      }
      ListsAll(entries, id, refs);
      if |refs| == 0 {
        return Fail(NotFound);
      }
      assert refs[0] in refs;
      var sourceRefs, targetExists := SplitRefs(refs, target);
      if targetExists && |sourceRefs| > 0 {
        assert sourceRefs[0] in sourceRefs;
        return Fail(Collision);
      }
      if |sourceRefs| == 0 {
        return Already;
      }
      assert sourceRefs[0] in sourceRefs;
      if |sourceRefs| > 1 {
        assert sourceRefs[1] in sourceRefs;
        return Fail(Ambiguous);
      }
      assert OnlyIn(entries, id, sourceRefs[0]);
      return From(sourceRefs[0]);
    }

    method TaskDestinationExists(s: Status, id: string) returns (taken: bool)
      ensures taken == Occupied(entries, s, id)
    {
      taken := Path(s, FileName(id)) in entries || Path(s, id) in entries;
    }

    /** moveTaskOnBoardWithGuard, under the lock. */
    method MoveTaskOnBoardWithGuard(c: Checks, id: string, target: Status) returns (outcome: Outcome)
      modifies this
      ensures var plan := MovePlan(old(entries), c, id, target);
              outcome == OutcomeOf(plan) && Contents() == Performed(old(Contents()), plan)
    {
      ghost var d := Contents();
      var src := ResolveMoveSource(id, target);
      match src
      case Fail(why) => return Rejected(why);
      case Already => return Noop;
      case From(s) =>
        var ref := ResolveTaskRefInStatus(s, id);
        if target == CodeReview && !c.hasReviewRef(ref.text) {
          return Rejected(NoReviewRef);
        }
        if !c.guard(entries, id, s, target) {
          return Rejected(Guarded);
        }
        var taken := TaskDestinationExists(target, id);
        if taken {
          return Rejected(Collision);
        }
        ghost var ops := MoveOps(entries, id, s, target, c.entry(s));
        if ref.form.FolderForm? {
          Act(Remove(Path(s, FileName(id))));
          Act(Rename(Path(s, id), Path(target, id)));
          var content := TaskSections.AppendLogEntry(ref.text, c.entry(s));
          Act(WriteMember(Path(target, id), TaskFile, content));
          AfterThree(d, ops);
        } else {
          Act(Rename(Path(s, FileName(id)), Path(target, FileName(id))));
          var content := TaskSections.AppendLogEntry(ref.text, c.entry(s));
          Act(WriteFile(Path(target, FileName(id)), content));
          AfterTwo(d, ops);
        }
        outcome := Completed;
    }

    method CleanupOrphanFileFormSibling(s: Status, id: string) returns (ok: bool)
      modifies this
      ensures var plan := CleanupPlan(old(entries), s, id);
              ok == !plan.Refused? && Contents() == Performed(old(Contents()), plan)
    {
      ghost var d := Contents();
      if Path(s, id) !in entries {
        return true;
      }
      match entries[Path(s, id)]
      case File(_) => return false;
      case Folder(members) =>
        if TaskFile !in members {
          return true;
        }
        var file := Path(s, FileName(id));
        if file in entries && entries[file].Folder? && entries[file].members != map[] {
          return false;
        }
        Act(Remove(Path(s, FileName(id))));
        AfterOne(d, [Remove(Path(s, FileName(id)))]);
        ok := true;
    }

    /** The writes of cmdEdit, for the task as resolved: the markdown in place, then the
        cleanup. */
    method EditTask(s: Status, id: string, rewrite: string -> string) returns (outcome: Outcome)
      modifies this
      ensures var plan := EditPlan(old(entries), s, id, rewrite);
              outcome == OutcomeOf(plan) && Contents() == Performed(old(Contents()), plan)
    {
      ghost var d := Contents();
      assert |id| != |FileName(id)|;
      var ref := ResolveTaskRefInStatus(s, id);
      match ref
      case Missing => return Rejected(NotFound);
      case Broken => return Rejected(Unreadable);
      case Found(FolderForm, text) =>
        Act(WriteMember(Path(s, id), TaskFile, rewrite(text)));
        var ok := CleanupOrphanFileFormSibling(s, id);
        AfterOne(Do(d, WriteMember(Path(s, id), TaskFile, rewrite(text))), [Remove(Path(s, FileName(id)))]);
        AfterTwo(d, EditPlan(d.entries, s, id, rewrite).ops);
        outcome := Completed;
      case Found(FileForm, text) =>
        Act(WriteFile(Path(s, FileName(id)), rewrite(text)));
        var ok := CleanupOrphanFileFormSibling(s, id);
        AfterOne(d, EditPlan(d.entries, s, id, rewrite).ops);
        outcome := Completed;
    }

    method IsTaken(prefix: string, n: nat) returns (taken: bool)
      ensures taken == IdExists(entries, prefix, n)
    {
      var id := TaskName(prefix, n);
      for i := 0 to |AllStatusDirs|
        invariant forall s :: s in AllStatusDirs[..i] ==> !Occupied(entries, s, id)
      {
        if Path(AllStatusDirs[i], FileName(id)) in entries || Path(AllStatusDirs[i], id) in entries {
          assert Occupied(entries, AllStatusDirs[i], id);
          return true;
        }
        assert AllStatusDirs[..i + 1] == AllStatusDirs[..i] + [AllStatusDirs[i]];
      }
      assert AllStatusDirs[..|AllStatusDirs|] == AllStatusDirs;
      forall s
        ensures !Occupied(entries, s, id)
      {
        AllStatusDirsAreAll(s);
      }
      taken := false;
    }

    /** allocateID. The loop ends because each number passes a name that no other has. */
    method AllocateID(prefix: string) returns (n: nat)
      modifies this
      ensures Allocates(old(Contents()), prefix, n)
      ensures Contents() == old(Contents()).(nextId := n + 1)
    {
      n := nextId;
      ghost var left := Names(entries);
      var taken := IsTaken(prefix, n);
      while taken
        invariant Contents() == old(Contents()) && nextId <= n && taken == IdExists(entries, prefix, n)
        invariant forall m :: nextId <= m < n ==> IdExists(entries, prefix, m)
        invariant AllAhead(entries, prefix, n, left)
        decreases left
      {
        NamesAhead(entries, prefix, n, left);
        left := Ahead(left, prefix, n);
        n := n + 1;
        taken := IsTaken(prefix, n);
      }
      nextId := n + 1;
    }

    /** The part of tb create that touches its own task. */
    method CreateTask(prefix: string, s: Status, legacyFile: bool, text: string) returns (n: nat)
      modifies this
      ensures Allocates(old(Contents()), prefix, n)
      ensures Contents() == Performed(old(Contents()), Perform(CreateOps(prefix, n, s, legacyFile, text)))
    {
      ghost var d := Contents();
      n := AllocateID(prefix);
      assert Contents() == Do(d, SetNextId(n + 1));
      var id := TaskName(prefix, n);
      if legacyFile {
        Act(WriteFile(Path(s, FileName(id)), text));
        AfterTwo(d, CreateOps(prefix, n, s, legacyFile, text));
      } else {
        Act(MakeFolder(Path(s, id)));
        Act(WriteMember(Path(s, id), TaskFile, text));
        AfterThree(d, CreateOps(prefix, n, s, legacyFile, text));
      }
    }

    /** The writes of a promotion, staged next to the task and then published. */
    method StageAndPublish(s: Status, id: string, staging: Path, sources: seq<Attachment>, text: string,
                           ghost ops: seq<Op>)
      requires ops == PromoteOps(s, id, staging, sources, text)
      modifies this
      ensures Contents() == After(old(Contents()), ops, |ops|)
    {
      ghost var d := Contents();
      PromoteOpsAre(s, id, staging, sources, text);
      Act(MakeFolder(staging));
      AfterOne(d, ops);
      for i := 0 to |sources|
        invariant Contents() == After(d, ops, i + 1)
      {
        Act(WriteMember(staging, sources[i].name, sources[i].data));
        AfterNext(d, ops, i + 1);
      }
      Act(WriteMember(staging, TaskFile, text));
      AfterNext(d, ops, |sources| + 1);
      Act(Rename(staging, Path(s, id)));
      AfterNext(d, ops, |sources| + 2);
      Act(Remove(Path(s, FileName(id))));
      AfterNext(d, ops, |sources| + 3);
    }

    /** promoteFileTaskWithAttachments, after the task has been resolved. */
    method PromoteFileTaskWithAttachments(s: Status, id: string, sources: seq<Attachment>, rewrite: string -> string,
                                          token: string)
      returns (outcome: Outcome)
      modifies this
      ensures var plan := PromotePlan(old(entries), s, id, sources, rewrite, token);
              outcome == OutcomeOf(plan) && Contents() == Performed(old(Contents()), plan)
    {
      ghost var d := Contents();
      var ref := ResolveTaskRefInStatus(s, id);
      match ref
      case Missing => return Rejected(NotFound);
      case Broken => return Rejected(Unreadable);
      case Found(FolderForm, _) => return Rejected(NotAFile);
      case Found(FileForm, text) =>
        var taskDir, staging := Path(s, id), Path(s, Staging(id, token));
        if taskDir in entries {
          return Rejected(Collision);
        }
        if !Importable(sources) {
          return Rejected(BadSources);
        }
        if staging in entries {
          return Rejected(Collision);
        }
        ghost var ops := PromoteOps(s, id, staging, sources, rewrite(text));
        PromoteOpsAre(s, id, staging, sources, rewrite(text));
        StageAndPublish(s, id, staging, sources, rewrite(text), ops);
        outcome := Completed;
    }
  }
}
