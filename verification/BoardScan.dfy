/** The directory scan of cli/board.go, written independently of the lookup by ID, and how
    the two compare. */
module BoardScan {
  import opened Wrappers
  import opened BoardDir

  /** isTaskDirName, and discoverTaskRefsInStatus's skip of dot names. */
  predicate IsTaskDirName(prefix: string, name: string) {
    !IsHidden(name) && prefix + "-" <= name && !HasSuffix(name, ".md")
  }

  predicate IsTaskFileName(prefix: string, name: string) {
    !IsHidden(name) && prefix + "-" <= name && HasSuffix(name, ".md")
  }

  /** taskIDFromFileName. */
  function IdOf(name: string): string
    requires HasSuffix(name, ".md")
  {
    name[..|name| - 3]
  }

  // ---------------------------------------------------------------- what the scan sees

  function FolderListed(e: Entries, s: Status, prefix: string, name: string): Lookup {
    var o := At(e, Path(s, name));
    if o.Some? && o.value.Folder? && IsTaskDirName(prefix, name) then FolderSide(o) else Missing
  }

  predicate FileListed(e: Entries, s: Status, prefix: string, name: string) {
    var o := At(e, Path(s, name));
    o.Some? && o.value.File? && IsTaskFileName(prefix, name)
  }

  /** The form under which the scan of a status lists an ID. */
  function Listed(e: Entries, s: Status, prefix: string, id: string): Option<Form> {
    if FolderListed(e, s, prefix, id).Found? then Some(FolderForm)
    else if FileListed(e, s, prefix, FileName(id)) then Some(FileForm)
    else None
  }

  ghost predicate Scannable(e: Entries, s: Status, prefix: string) {
    forall name :: !FolderListed(e, s, prefix, name).Broken?
  }

  // ---------------------------------------------------------------- the scan

  datatype Seen = Seen(folder: bool, file: bool)

  function Entered(seen: map<string, Seen>, id: string): Seen { if id in seen then seen[id] else Seen(false, false) }

  /** The loop has been through the names in `done`. */
  ghost predicate SeenIn(e: Entries, s: Status, prefix: string, done: set<string>, seen: map<string, Seen>) {
    && (forall id {:trigger Entered(seen, id)} ::
          Entered(seen, id).folder <==> id in done && FolderListed(e, s, prefix, id).Found?)
    && (forall id {:trigger Entered(seen, id)} ::
          Entered(seen, id).file <==> FileName(id) in done && FileListed(e, s, prefix, FileName(id)))
    && (forall id :: id in seen ==> seen[id].folder || seen[id].file)
    && (forall name {:trigger FolderListed(e, s, prefix, name)} :: name in done ==>
        !FolderListed(e, s, prefix, name).Broken?)
  }

  lemma FileOf(name: string)
    requires HasSuffix(name, ".md")
    ensures FileName(IdOf(name)) == name
    ensures forall id :: FileName(id) == name ==> id == IdOf(name)
  {
    assert name == name[..|name| - 3] + name[|name| - 3..];
    forall id | FileName(id) == name
      ensures id == IdOf(name)
    {
      FileNameIsInjective(id, IdOf(name));
    }
  }

  function Saw(e: Entries, s: Status, prefix: string, seen: map<string, Seen>, name: string): map<string, Seen> {
    if FolderListed(e, s, prefix, name).Found? then seen[name := Entered(seen, name).(folder := true)]
    else if FileListed(e, s, prefix, name) then seen[IdOf(name) := Entered(seen, IdOf(name)).(file := true)]
    else seen
  }

  lemma SawOneMore(e: Entries, s: Status, prefix: string, done: set<string>, seen: map<string, Seen>, name: string)
    requires SeenIn(e, s, prefix, done, seen) && !FolderListed(e, s, prefix, name).Broken?
    ensures SeenIn(e, s, prefix, done + {name}, Saw(e, s, prefix, seen, name))
  {
    var next := Saw(e, s, prefix, seen, name);
    if FileListed(e, s, prefix, name) {
      FileOf(name);
    }
    forall id
      ensures Entered(next, id).folder <==> id in done + {name} && FolderListed(e, s, prefix, id).Found?
      ensures Entered(next, id).file <==> FileName(id) in done + {name} && FileListed(e, s, prefix, FileName(id))
    {
      assert Entered(seen, id).folder <==> id in done && FolderListed(e, s, prefix, id).Found?;
    }
  }

  function NamesIn(e: Entries, s: Status): set<string> { set p | p in e && p.status == s :: p.name }

  function RefsOf(seen: map<string, Seen>): map<string, Form> {
    map id | id in seen :: if seen[id].folder then FolderForm else FileForm
  }

  ghost predicate AreListed(e: Entries, s: Status, prefix: string, refs: map<string, Form>) {
    forall id :: (if id in refs then Some(refs[id]) else None) == Listed(e, s, prefix, id)
  }

  lemma SawAll(e: Entries, s: Status, prefix: string, seen: map<string, Seen>, id: string)
    requires SeenIn(e, s, prefix, NamesIn(e, s), seen)
    ensures (if id in RefsOf(seen) then Some(RefsOf(seen)[id]) else None) == Listed(e, s, prefix, id)
    ensures !FolderListed(e, s, prefix, id).Broken?
  {
    assert id in NamesIn(e, s) <==> Path(s, id) in e;
    assert FileName(id) in NamesIn(e, s) <==> Path(s, FileName(id)) in e;
    assert Entered(seen, id).folder <==> FolderListed(e, s, prefix, id).Found?;
    assert Entered(seen, id).file <==> FileListed(e, s, prefix, FileName(id));
  }

  lemma SawTheLot(e: Entries, s: Status, prefix: string, seen: map<string, Seen>)
    requires SeenIn(e, s, prefix, NamesIn(e, s), seen)
    ensures Scannable(e, s, prefix)
    ensures AreListed(e, s, prefix, RefsOf(seen))
  {
    forall id
      ensures (if id in RefsOf(seen) then Some(RefsOf(seen)[id]) else None) == Listed(e, s, prefix, id)
      ensures !FolderListed(e, s, prefix, id).Broken?
    {
      SawAll(e, s, prefix, seen, id);
    }
  }

  /** What reading one entry of the directory adds; false when its TASK.md is a directory. */
  method SeeEntry(e: Entries, s: Status, prefix: string, seen: map<string, Seen>,
                  name: string) returns (next: map<string, Seen>, ok: bool)
    requires Path(s, name) in e
    ensures ok <==> !FolderListed(e, s, prefix, name).Broken?
    ensures ok ==> next == Saw(e, s, prefix, seen, name)
  {
    next, ok := seen, true;
    match e[Path(s, name)]
    case Folder(members) =>
      if IsTaskDirName(prefix, name) && TaskFile in members {
        if members[TaskFile].Subfolder? {
          return seen, false;
        }
        next := seen[name := Entered(seen, name).(folder := true)];
      }
    case File(_) =>
      if IsTaskFileName(prefix, name) {
        next := seen[IdOf(name) := Entered(seen, IdOf(name)).(file := true)];
      }
  }

  method DiscoverTaskRefsInStatus(e: Entries, s: Status, prefix: string) returns (refs: map<string, Form>, ok: bool)
    ensures ok <==> Scannable(e, s, prefix)
    ensures ok ==> AreListed(e, s, prefix, refs)
  {
    var seen: map<string, Seen> := map[];
    var todo := NamesIn(e, s);
    while todo != {}
      invariant todo <= NamesIn(e, s) && SeenIn(e, s, prefix, NamesIn(e, s) - todo, seen)
    {
      var name :| name in todo;
      ghost var done, before := NamesIn(e, s) - todo, seen;
      todo := todo - {name};
      assert NamesIn(e, s) - todo == done + {name};
      seen, ok := SeeEntry(e, s, prefix, seen, name);
      if !ok {
        return map[], false;
      }
      SawOneMore(e, s, prefix, done, before, name);
    }
    assert NamesIn(e, s) - todo == NamesIn(e, s);
    SawTheLot(e, s, prefix, seen);
    return RefsOf(seen), true;
  }

  datatype Place = Place(status: Status, form: Form)

  /** No ID is listed in two of the first `n` directories. */
  ghost predicate ListedOnce(e: Entries, dirs: seq<Status>, prefix: string, n: nat)
    requires n <= |dirs|
  {
    forall i, j, id :: 0 <= i < j < n && Listed(e, dirs[i], prefix, id).Some? ==>
      Listed(e, dirs[j], prefix, id).None?
  }

  ghost predicate ScannableUpTo(e: Entries, dirs: seq<Status>, prefix: string, n: nat)
    requires n <= |dirs|
  {
    forall i :: 0 <= i < n ==> Scannable(e, dirs[i], prefix)
  }

  ghost predicate Lists(e: Entries, dirs: seq<Status>, prefix: string, n: nat, refs: map<string, Place>)
    requires n <= |dirs|
  {
    && (forall id :: id in refs ==>
        refs[id].status in dirs[..n] && Listed(e, refs[id].status, prefix, id) == Some(refs[id].form))
    && (forall i, id :: 0 <= i < n && Listed(e, dirs[i], prefix, id).Some? ==> id in refs && refs[id].status == dirs[i])
  }

  function Merged(refs: map<string, Place>, s: Status, statusRefs: map<string, Form>): map<string, Place> {
    refs + map id | id in statusRefs :: Place(s, statusRefs[id])
  }

  /** discoverTaskRefs over any directories; it gives up when an ID is listed twice. */
  method DiscoverTaskRefs(e: Entries, dirs: seq<Status>, prefix: string) returns (refs: map<string, Place>, ok: bool)
    ensures ok <==> ScannableUpTo(e, dirs, prefix, |dirs|) && ListedOnce(e, dirs, prefix, |dirs|)
    ensures ok ==> Lists(e, dirs, prefix, |dirs|, refs)
  {
    refs := map[];
    for n := 0 to |dirs|
      invariant ScannableUpTo(e, dirs, prefix, n) && ListedOnce(e, dirs, prefix, n) && Lists(e, dirs, prefix, n, refs)
    {
      var statusRefs, scanned := DiscoverTaskRefsInStatus(e, dirs[n], prefix);
      if !scanned {
        return map[], false;
      }
      if id :| id in statusRefs && id in refs {
        TwiceListed(e, dirs, prefix, n, refs, statusRefs, id);
        return map[], false;
      }
      OnceMore(e, dirs, prefix, n, refs, statusRefs);
      ListsOneMore(e, dirs, prefix, n, refs, statusRefs);
      refs := Merged(refs, dirs[n], statusRefs);
    }
    ok := true;
  }

  lemma TwiceListed(e: Entries, dirs: seq<Status>, prefix: string, n: nat, refs: map<string, Place>,
                    statusRefs: map<string, Form>, id: string)
    requires n < |dirs| && Lists(e, dirs, prefix, n, refs) && AreListed(e, dirs[n], prefix, statusRefs)
    requires id in refs && id in statusRefs
    ensures !ListedOnce(e, dirs, prefix, |dirs|)
  {
    var i :| 0 <= i < n && dirs[i] == refs[id].status;
    assert Listed(e, dirs[i], prefix, id).Some?;
    assert Listed(e, dirs[n], prefix, id).Some?;
  }

  lemma ListsOneMore(e: Entries, dirs: seq<Status>, prefix: string, n: nat, refs: map<string, Place>,
                     statusRefs: map<string, Form>)
    requires n < |dirs| && Lists(e, dirs, prefix, n, refs) && AreListed(e, dirs[n], prefix, statusRefs)
    requires forall id :: id in statusRefs ==> id !in refs
    ensures Lists(e, dirs, prefix, n + 1, Merged(refs, dirs[n], statusRefs))
  {
    var next := Merged(refs, dirs[n], statusRefs);
    forall id | id in next
      ensures next[id].status in dirs[..n + 1] && Listed(e, next[id].status, prefix, id) == Some(next[id].form)
    {
      IsListedStill(e, dirs, prefix, n, refs, statusRefs, id);
    }
    forall i, id | 0 <= i < n + 1 && Listed(e, dirs[i], prefix, id).Some?
      ensures id in next && next[id].status == dirs[i]
    {
      IsFoundStill(e, dirs, prefix, n, refs, statusRefs, i, id);
    }
  }

  lemma IsListedStill(e: Entries, dirs: seq<Status>, prefix: string, n: nat, refs: map<string, Place>,
                      statusRefs: map<string, Form>, id: string)
    requires n < |dirs| && Lists(e, dirs, prefix, n, refs) && AreListed(e, dirs[n], prefix, statusRefs)
    requires id in Merged(refs, dirs[n], statusRefs)
    ensures var p := Merged(refs, dirs[n], statusRefs)[id];
            p.status in dirs[..n + 1] && Listed(e, p.status, prefix, id) == Some(p.form)
  {
    MergedIs(refs, dirs[n], statusRefs, id);
    assert dirs[..n + 1] == dirs[..n] + [dirs[n]];
  }

  lemma IsFoundStill(e: Entries, dirs: seq<Status>, prefix: string, n: nat, refs: map<string, Place>,
                     statusRefs: map<string, Form>, i: nat, id: string)
    requires n < |dirs| && Lists(e, dirs, prefix, n, refs) && AreListed(e, dirs[n], prefix, statusRefs)
    requires id in statusRefs ==> id !in refs
    requires i <= n && Listed(e, dirs[i], prefix, id).Some?
    ensures var next := Merged(refs, dirs[n], statusRefs); id in next && next[id].status == dirs[i]
  {
    MergedIs(refs, dirs[n], statusRefs, id);
  }

  lemma MergedIs(refs: map<string, Place>, s: Status, statusRefs: map<string, Form>, id: string)
    ensures id in Merged(refs, s, statusRefs) <==> id in refs || id in statusRefs
    ensures id in Merged(refs, s, statusRefs) ==>
              Merged(refs, s, statusRefs)[id] == if id in statusRefs then Place(s, statusRefs[id]) else refs[id]
  {
  }

  lemma OnceMore(e: Entries, dirs: seq<Status>, prefix: string, n: nat, refs: map<string, Place>,
                 statusRefs: map<string, Form>)
    requires n < |dirs| && Lists(e, dirs, prefix, n, refs) && AreListed(e, dirs[n], prefix, statusRefs)
    requires ListedOnce(e, dirs, prefix, n) && forall id :: id in statusRefs ==> id !in refs
    ensures ListedOnce(e, dirs, prefix, n + 1)
  {
    forall i, j, id | 0 <= i < j < n + 1 && Listed(e, dirs[i], prefix, id).Some?
      ensures Listed(e, dirs[j], prefix, id).None?
    {
    }
  }

  // ---------------------------------------------------------------- against the lookup by ID

  function FormOf(r: Lookup): Option<Form> { if r.Found? then Some(r.form) else None }

  /** For a task's ID the scan and the lookup find the same canonical path, unless the lookup
      reports an error; and where the scan does not also report one, that is exactly when a
      plain file has the folder's name or a folder has the file's. */
  lemma ResolversAgreeIff(e: Entries, s: Status, prefix: string, id: string)
    requires IsTaskDirName(prefix, id)
    ensures !Resolve(e, s, id).Broken? ==> Listed(e, s, prefix, id) == FormOf(Resolve(e, s, id))
    ensures Scannable(e, s, prefix) ==>
              (Resolve(e, s, id).Broken? <==>
               (Path(s, id) in e && e[Path(s, id)].File?) ||
                (Path(s, FileName(id)) in e && e[Path(s, FileName(id))].Folder?))
  {
    FileIsTaskFile(prefix, id);
    var folder := FolderListed(e, s, prefix, id);
  }

  /** A plain file under the folder's name: the scan lists the task, the lookup fails. */
  lemma ScanListsWhatLookupRefuses(s: Status, prefix: string, id: string, text: string)
    requires IsTaskDirName(prefix, id)
    ensures var e := map[Path(s, id) := File(""), Path(s, FileName(id)) := File(text)];
            Scannable(e, s, prefix) && Listed(e, s, prefix, id) == Some(FileForm) && Resolve(e, s, id) == Broken
  {
    assert |FileName(id)| != |id|;
    FileIsTaskFile(prefix, id);
  }

  lemma FileIsTaskFile(prefix: string, id: string)
    requires IsTaskDirName(prefix, id)
    ensures IsTaskFileName(prefix, FileName(id))
  {
    assert FileName(id)[|id|..] == ".md" && FileName(id)[..|id|] == id;
    assert prefix + "-" <= id <= FileName(id);
    assert FileName(id)[0] == id[0];
  }

  function Visible(e: Entries): Entries { map p | p in e && !IsHidden(p.name) :: e[p] }

  /** Whatever lies under names beginning with a dot, neither ever finds it. */
  lemma HiddenIsNeverFound(e: Entries, s: Status, prefix: string, id: string)
    ensures Listed(e, s, prefix, id) == Listed(Visible(e), s, prefix, id)
    ensures Listed(e, s, prefix, id).Some? ==> !IsHidden(id)
    ensures !IsHidden(id) && id != "" ==> Resolve(e, s, id) == Resolve(Visible(e), s, id)
    ensures Scannable(e, s, prefix) <==> Scannable(Visible(e), s, prefix)
  {
    forall name
      ensures FolderListed(e, s, prefix, name) == FolderListed(Visible(e), s, prefix, name)
    {
    }
    if id != "" {
      assert FileName(id)[0] == id[0];
    }
  }
}
