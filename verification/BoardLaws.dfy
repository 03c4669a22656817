/** The board's decisions, told by what is in the directories (cli/board.go, cli/move.go,
    cli/attach.go, cli/edit.go). */
module BoardLaws {
  import opened Wrappers
  import opened BoardDir
  import opened BoardScan
  import Text

  // ---------------------------------------------------------------- lookup and scan

  predicate IsFile(e: Entries, p: Path) { p in e && e[p].File? }

  predicate IsFolder(e: Entries, p: Path) { p in e && e[p].Folder? }

  predicate HasTaskText(e: Entries, p: Path, text: string) {
    IsFolder(e, p) && "TASK.md" in e[p].members && e[p].members["TASK.md"] == Member.Text(text)
  }

  predicate HasTaskFolder(e: Entries, p: Path) {
    IsFolder(e, p) && "TASK.md" in e[p].members && e[p].members["TASK.md"].Subfolder?
  }

  /** A lookup fails when a plain file has the folder's name, a folder the file's, or TASK.md is a
      folder; otherwise the folder's TASK.md is found, or else the file. */
  lemma LookupIs(e: Entries, s: Status, id: string, text: string)
    ensures var folder, file := Path(s, id), Path(s, id + ".md");
            var broken := IsFile(e, folder) || IsFolder(e, file) || HasTaskFolder(e, folder);
            && (Resolve(e, s, id) == Broken <==> broken)
            && (Resolve(e, s, id) == Found(FolderForm, text) <==> !broken && HasTaskText(e, folder, text))
            && (Resolve(e, s, id) == Found(FileForm, text) <==>
                !broken && (folder in e ==> "TASK.md" !in e[folder].members) && file in e && e[file] == File(text))
  {
  }

  /** The scan lists the folders with a TASK.md that is a file and the plain files, if their names
      begin with the prefix and a dash and, without its ending for a file, not with a dot; of a folder
      and a file it lists the folder. */
  lemma ListedIs(e: Entries, s: Status, prefix: string, id: string)
    ensures var folder := exists text :: HasTaskText(e, Path(s, id), text);
            var named := !("." <= id) && prefix + "-" <= id && !HasSuffix(id, ".md");
            && (Listed(e, s, prefix, id) == Some(FolderForm) <==> folder && named)
            && (Listed(e, s, prefix, id) == Some(FileForm) <==>
                !(folder && named) && IsFile(e, Path(s, id + ".md"))
                && !("." <= id) && id != "" && prefix + "-" <= id + ".md")
  {
    FolderIs(e, s, prefix, id);
    FileIs(e, s, prefix, id);
  }

  lemma HiddenIs(id: string)
    ensures IsHidden(id) <==> "." <= id
    ensures IsHidden(id + ".md") <==> "." <= id || id == ""
  {
    assert id != "" ==> (id + ".md")[0] == id[0];
    assert IsHidden(id) ==> id[..1] == ".";
  }

  lemma FolderIs(e: Entries, s: Status, prefix: string, id: string)
    ensures FolderListed(e, s, prefix, id).Found?
            <==> (exists text :: HasTaskText(e, Path(s, id), text))
                 && !("." <= id) && prefix + "-" <= id && !HasSuffix(id, ".md")
  {
    HiddenIs(id);
    if FolderListed(e, s, prefix, id).Found? {
      assert HasTaskText(e, Path(s, id), FolderListed(e, s, prefix, id).text);
    }
  }

  lemma FileIs(e: Entries, s: Status, prefix: string, id: string)
    ensures FileListed(e, s, prefix, FileName(id))
            <==> IsFile(e, Path(s, id + ".md")) && !("." <= id) && id != "" && prefix + "-" <= id + ".md"
  {
    HiddenIs(id);
    assert FileName(id)[|id|..] == ".md";
  }

  // ---------------------------------------------------------------- a move's decision

  ghost predicate SomeLookupFails(e: Entries, id: string) { exists s :: Resolve(e, s, id).Broken? }

  predicate IsOnly(homes: set<Status>, s: Status) { homes == {s} }

  ghost predicate AreHomes(e: Entries, id: string, homes: set<Status>) {
    forall s :: s in homes <==> Resolve(e, s, id).Found?
  }

  /** Where a move takes a task from, by the set of statuses the task lives in. */
  lemma SourceByHomes(e: Entries, id: string, target: Status, homes: set<Status>)
    requires AreHomes(e, id, homes)
    ensures match SourceOf(e, id, target)
            case Fail(Unreadable) => SomeLookupFails(e, id)
            case Fail(NotFound) => !SomeLookupFails(e, id) && homes == {}
            case Fail(Collision) => !SomeLookupFails(e, id) && target in homes && !IsOnly(homes, target)
            case Fail(Ambiguous) =>
              !SomeLookupFails(e, id) && target !in homes && homes != {} && forall s :: !IsOnly(homes, s)
            case Fail(_) => false
            case Already => !SomeLookupFails(e, id) && IsOnly(homes, target)
            case From(s) => !SomeLookupFails(e, id) && IsOnly(homes, s) && s != target
  {
    HomesSay(e, id, homes);
    assert target in homes <==> Lives(e, target, id);
  }

  lemma HomesSay(e: Entries, id: string, homes: set<Status>)
    requires AreHomes(e, id, homes)
    ensures Readable(e, id) <==> !SomeLookupFails(e, id)
    ensures (forall s :: !Lives(e, s, id)) <==> homes == {}
    ensures forall s :: OnlyIn(e, id, s) <==> IsOnly(homes, s)
  {
    assert forall s :: Lives(e, s, id) <==> s in homes;
    forall s
      ensures OnlyIn(e, id, s) <==> IsOnly(homes, s)
    {
      if OnlyIn(e, id, s) {
        assert Lives(e, s, id);
        assert homes == {s};
      }
    }
  }

  /** Why a move with one source is refused, in this order: the review target is missing, the guard
      objects, something is at the destination. */
  lemma MoveRefusedFor(e: Entries, c: Checks, id: string, s: Status, target: Status)
    requires SourceOf(e, id, target) == From(s) && Resolve(e, s, id).Found?
    ensures var plan := MovePlan(e, c, id, target);
            var noRef := target == CodeReview && !c.hasReviewRef(Resolve(e, s, id).text);
            var taken := Path(target, id) in e || Path(target, id + ".md") in e;
            && (plan == Refused(NoReviewRef) <==> noRef)
            && (plan == Refused(Guarded) <==> !noRef && !c.guard(e, id, s, target))
            && (plan == Refused(Collision) <==> !noRef && c.guard(e, id, s, target) && taken)
            && (plan.Perform? <==> !noRef && c.guard(e, id, s, target) && !taken)
  {
  }

  // ---------------------------------------------------------------- attachments

  /** A task is promoted when it is a file, nothing has the folder's name, every attachment's name is
      allowed and none occurs twice, and the staging name is free. */
  lemma PromotionHappensIff(e: Entries, s: Status, id: string, sources: seq<Attachment>, rewrite: string -> string,
                            token: string)
    ensures PromotePlan(e, s, id, sources, rewrite, token).Perform?
            <==> IsFile(e, Path(s, id + ".md")) && Path(s, id) !in e && Path(s, Staging(id, token)) !in e
                 && AllAllowed(sources)
  {
    AllowedIff(sources);
  }

  /** Why a promotion is refused, in this order. */
  lemma PromotionRefusedFor(e: Entries, s: Status, id: string, sources: seq<Attachment>, rewrite: string -> string,
                            token: string)
    ensures var plan, ref := PromotePlan(e, s, id, sources, rewrite, token), Resolve(e, s, id);
            var allowed := AllAllowed(sources);
            match ref
            case Missing => plan == Refused(NotFound)
            case Broken => plan == Refused(Unreadable)
            case Found(FolderForm, _) => plan == Refused(NotAFile)
            case Found(FileForm, _) =>
              if Path(s, id) in e then plan == Refused(Collision)
              else if !allowed then plan == Refused(BadSources)
              else if Path(s, Staging(id, token)) in e then plan == Refused(Collision)
              else plan.Perform?
  {
    AllowedIff(sources);
  }

  lemma AllowedIff(sources: seq<Attachment>)
    ensures Importable(sources) <==> AllAllowed(sources)
  {
    forall i | 0 <= i < |sources|
      ensures IsLeafName(sources[i].name) <==> Allowed(sources[i].name)
    {
      LeafNameIff(sources[i].name);
    }
  }

  predicate AllAllowed(sources: seq<Attachment>) {
    && (forall i :: 0 <= i < |sources| ==> Allowed(sources[i].name))
    && forall i, j :: 0 <= i < j < |sources| ==> sources[i].name != sources[j].name
  }

  /** Not blank, not a path, no dot name, and neither reserved name in whatever case. */
  predicate Allowed(name: string) {
    && (exists c :: c in name && !Text.IsSpace(c))
    && (forall c :: c in name ==> c != '/' && c != '\\' && c != '\0')
    && !("." <= name) && !SameButCase(name, "task.md") && !SameButCase(name, "attachments")
  }

  predicate SameButCase(name: string, word: string) {
    |name| == |word| && forall i :: 0 <= i < |name| ==> SameLetter(name[i], word[i])
  }

  /** The letter, its capital, or for k the Kelvin sign. */
  predicate SameLetter(c: char, letter: char) {
    || c == letter
    || ('a' <= letter <= 'z' && 'A' <= c <= 'Z' && c - 'A' == letter - 'a')
    || (letter == 'k' && c == '\U{212A}')
  }

  lemma LeafNameIff(name: string)
    ensures IsLeafName(name) <==> Allowed(name)
  {
    BlankIff(name);
    LowerIs(name, "task.md");
    LowerIs(name, "attachments");
    assert IsHidden(name) <==> "." <= name by {
      assert IsHidden(name) ==> name[..1] == ".";
    }
  }

  predicate NoCapital(c: char) { !('A' <= c <= 'Z') && c != '\U{212A}' }

  lemma LowerIs(name: string, word: string)
    requires forall i :: 0 <= i < |word| ==> NoCapital(word[i])
    ensures Lower(name) == word <==> SameButCase(name, word)
  {
    if SameButCase(name, word) {
      forall i | 0 <= i < |name|
        ensures Lower(name)[i] == word[i]
      {
        assert SameLetter(name[i], word[i]);
      }
    }
  }

  lemma BlankIff(s: string)
    ensures Text.TrimSpace(s) == "" <==> forall c :: c in s ==> Text.IsSpace(c)
  {
    RightBlankIff(s);
    LeftKeeps(Text.TrimRightSpace(s));
  }

  lemma {:induction false} RightBlankIff(s: string)
    ensures Text.TrimRightSpace(s) == "" <==> forall c :: c in s ==> Text.IsSpace(c)
    ensures var t := Text.TrimRightSpace(s); t == "" || !Text.IsSpace(t[|t| - 1])
  {
    if s != "" && Text.IsSpace(s[|s| - 1]) {
      RightBlankIff(s[..|s| - 1]);
      assert s == s[..|s| - 1] + [s[|s| - 1]];
    }
  }

  lemma {:induction false} LeftKeeps(t: string)
    requires t == "" || !Text.IsSpace(t[|t| - 1])
    ensures Text.TrimLeftSpace(t) == "" <==> t == ""
  {
    if t != "" && Text.IsSpace(t[0]) {
      LeftKeeps(t[1..]);
    }
  }

  // ---------------------------------------------------------------- edit and cleanup

  /** An edit of a folder task leaves no file beside the folder, nor does a cleanup, unless a folder
      with something in it has the file's name. */
  lemma NoOrphanAfterEdit(d: Disk, s: Status, id: string, rewrite: string -> string)
    requires EditPlan(d.entries, s, id, rewrite).Perform? && Resolve(d.entries, s, id).form.FolderForm?
    ensures var e, p := Performed(d, EditPlan(d.entries, s, id, rewrite)).entries, Path(s, id);
            && Path(s, id + ".md") !in e && IsFolder(d.entries, p) && p in e
            && e[p] == Folder(d.entries[p].members["TASK.md" := Member.Text(rewrite(Resolve(d.entries, s, id).text))])
  {
    assert |id| != |FileName(id)|;
    AfterTwo(d, Steps(EditPlan(d.entries, s, id, rewrite)));
  }

  /** An edit is refused exactly when the task is not found or the lookup fails. */
  lemma EditRefusedFor(e: Entries, s: Status, id: string, rewrite: string -> string)
    ensures var plan := EditPlan(e, s, id, rewrite);
            && (plan == Refused(NotFound) <==> Resolve(e, s, id) == Missing)
            && (plan == Refused(Unreadable) <==> Resolve(e, s, id) == Broken)
            && (plan.Perform? <==> Resolve(e, s, id).Found?)
  {
  }

  lemma CleanupIs(d: Disk, s: Status, id: string)
    ensures var e, plan := d.entries, CleanupPlan(d.entries, s, id);
            var folder, file := Path(s, id), Path(s, id + ".md");
            var hasText := IsFolder(e, folder) && "TASK.md" in e[folder].members;
            && (plan.Refused? <==> IsFile(e, folder) || (hasText && IsFolder(e, file) && e[file].members != map[]))
            && Performed(d, plan)
               == if hasText && !plan.Refused? then d.(entries := e - {file}) else d
  {
    if Steps(CleanupPlan(d.entries, s, id)) != [] {
      AfterOne(d, Steps(CleanupPlan(d.entries, s, id)));
    }
  }

  // ---------------------------------------------------------------- the number in an ID

  function DigitsValue(s: string): nat {
    if s == "" then 0
    else DigitsValue(s[..|s| - 1]) * 10 + (if '0' <= s[|s| - 1] <= '9' then (s[|s| - 1] - '0') as nat else 0)
  }

  /** An ID's digits are its number's, without a leading zero. */
  lemma {:induction false} DecimalIs(n: nat)
    ensures DigitsValue(Decimal(n)) == n && Decimal(n) != "" && (n > 0 ==> Decimal(n)[0] != '0')
    ensures forall i :: 0 <= i < |Decimal(n)| ==> '0' <= Decimal(n)[i] <= '9'
  {
    if n >= 10 {
      DecimalIs(n / 10);
    }
  }
}
