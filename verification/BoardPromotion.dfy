/** Promoting a file task to a folder (cli/attach.go): what each crash point leaves, and what
    the next cleanup makes of it. */
module BoardPromotion {
  import opened Wrappers
  import opened BoardDir
  import opened BoardScan

  /** The staged copies of the first `j` sources. */
  function Staged(sources: seq<Attachment>, j: nat): map<string, Member>
    requires j <= |sources|
  {
    if j == 0 then map[] else Staged(sources, j - 1)[sources[j - 1].name := Text(sources[j - 1].data)]
  }

  /** The folder that is published. */
  function Complete(sources: seq<Attachment>, text: string): Entry {
    Folder(Staged(sources, |sources|)[TaskFile := Text(text)])
  }

  /** The promotion of a file task that is not refused. */
  ghost predicate Promotes(d: Disk, s: Status, id: string, sources: seq<Attachment>, rewrite: string -> string,
                           token: string) {
    id != "" && !IsHidden(id) && PromotePlan(d.entries, s, id, sources, rewrite, token).Perform?
  }

  ghost function Promotion(d: Disk, s: Status, id: string, sources: seq<Attachment>, rewrite: string -> string,
                           token: string): seq<Op> {
    Steps(PromotePlan(d.entries, s, id, sources, rewrite, token))
  }

  lemma {:induction false} StagingGrows(d: Disk, s: Status, id: string, staging: Path, sources: seq<Attachment>,
                                        text: string, j: nat)
    requires j <= |sources|
    ensures At(After(d, PromoteOps(s, id, staging, sources, text), j + 1).entries, staging)
            == Some(Folder(Staged(sources, j)))
  {
    var ops := PromoteOps(s, id, staging, sources, text);
    if j == 0 {
      AfterOne(d, ops);
    } else {
      StagingGrows(d, s, id, staging, sources, text, j - 1);
      assert ops[j] == WriteMember(staging, sources[j - 1].name, sources[j - 1].data);
    }
  }

  lemma OpsAt(s: Status, id: string, staging: Path, sources: seq<Attachment>, text: string)
    ensures var ops := PromoteOps(s, id, staging, sources, text);
            var n := |sources|;
            && |ops| == n + 4
            && ops[n + 1] == WriteMember(staging, TaskFile, text)
            && ops[n + 2] == Rename(staging, Path(s, id))
            && ops[n + 3] == Remove(Path(s, FileName(id)))
            && forall i, p :: 0 <= i < n + 2 && p != staging ==> !Touches(ops[i], p)
  {
  }

  lemma StagingIsApart(id: string, token: string)
    requires id != "" && !IsHidden(id)
    ensures Staging(id, token) != id && Staging(id, token) != FileName(id) && id != FileName(id)
  {
    assert Staging(id, token)[0] == '.' && FileName(id)[0] == id[0];
    assert |id| != |FileName(id)|;
  }

  /** Before the folder is published only the staging entry has changed. */
  lemma BeforePublishing(d: Disk, s: Status, id: string, staging: Path, sources: seq<Attachment>, text: string, k: nat,
                         p: Path)
    requires k <= |sources| + 2 && p != staging
    ensures k <= |PromoteOps(s, id, staging, sources, text)|
    ensures At(After(d, PromoteOps(s, id, staging, sources, text), k).entries, p) == At(d.entries, p)
  {
    OpsAt(s, id, staging, sources, text);
    Untouched(d, PromoteOps(s, id, staging, sources, text), k, p);
  }

  lemma Published(d: Disk, s: Status, id: string, staging: Path, sources: seq<Attachment>, text: string, k: nat,
                  p: Path)
    requires |sources| + 3 <= k <= |sources| + 4
    requires staging != Path(s, id) && staging != Path(s, FileName(id)) && id != FileName(id)
    ensures |PromoteOps(s, id, staging, sources, text)| == |sources| + 4
    ensures At(After(d, PromoteOps(s, id, staging, sources, text), k).entries, p)
            == if p == Path(s, id) then Some(Complete(sources, text))
               else if p == staging || (k == |sources| + 4 && p == Path(s, FileName(id))) then None
               else At(d.entries, p)
  {
    var ops, n := PromoteOps(s, id, staging, sources, text), |sources|;
    OpsAt(s, id, staging, sources, text);
    StagingGrows(d, s, id, staging, sources, text, n);
    assert At(After(d, ops, n + 2).entries, staging) == Some(Complete(sources, text));
    if p != staging {
      BeforePublishing(d, s, id, staging, sources, text, n + 2, p);
    }
    assert After(d, ops, n + 3) == Do(After(d, ops, n + 2), ops[n + 2]);
    if k == n + 4 {
      assert After(d, ops, n + 4) == Do(After(d, ops, n + 3), ops[n + 3]);
    }
  }

  // ---------------------------------------------------------------- at every crash point

  /** At every crash point the task resolves to exactly one complete markdown: the old file's
      until the folder is published, and from then on the rewritten one in the folder. The
      lookup by ID and the scan agree on which, and no other status sees a change. */
  lemma PromotionAtAnyCrash(d: Disk, s: Status, id: string, sources: seq<Attachment>, rewrite: string -> string,
                            token: string, k: nat, u: Status)
    requires Promotes(d, s, id, sources, rewrite, token) && k <= |Promotion(d, s, id, sources, rewrite, token)|
    ensures var e := After(d, Promotion(d, s, id, sources, rewrite, token), k).entries;
            var was := Resolve(d.entries, s, id);
            && was.Found? && was.form.FileForm?
            && Resolve(e, u, id)
               == (if u != s || k < |sources| + 3 then Resolve(d.entries, u, id)
                   else Found(FolderForm, rewrite(was.text)))
            && forall prefix :: IsTaskDirName(prefix, id) && !Resolve(e, u, id).Broken? ==>
                 Listed(e, u, prefix, id) == FormOf(Resolve(e, u, id))
  {
    var text := rewrite(Resolve(d.entries, s, id).text);
    var staging := Path(s, Staging(id, token));
    var e := After(d, Promotion(d, s, id, sources, rewrite, token), k).entries;
    StagingIsApart(id, token);
    OpsAt(s, id, staging, sources, text);
    if k < |sources| + 3 {
      BeforePublishing(d, s, id, staging, sources, text, k, Path(u, id));
      BeforePublishing(d, s, id, staging, sources, text, k, Path(u, FileName(id)));
    } else {
      Published(d, s, id, staging, sources, text, k, Path(u, id));
      Published(d, s, id, staging, sources, text, k, Path(u, FileName(id)));
    }
    forall prefix | IsTaskDirName(prefix, id) && !Resolve(e, u, id).Broken?
      ensures Listed(e, u, prefix, id) == FormOf(Resolve(e, u, id))
    {
      ResolversAgreeIff(e, u, prefix, id);
    }
  }

  predicate IsNameOf(sources: seq<Attachment>, j: nat, name: string)
    requires j <= |sources|
  {
    exists i :: 0 <= i < j && sources[i].name == name
  }

  lemma {:induction false} StagedHolds(sources: seq<Attachment>, j: nat, name: string)
    requires j <= |sources|
    ensures name in Staged(sources, j) <==> IsNameOf(sources, j, name)
  {
    if j > 0 {
      StagedHolds(sources, j - 1, name);
    }
  }

  lemma {:induction false} StagedHoldsTheData(sources: seq<Attachment>, j: nat, i: nat)
    requires i < j <= |sources| && Distinct(NamesOf(sources))
    ensures sources[i].name in Staged(sources, j) && Staged(sources, j)[sources[i].name] == Text(sources[i].data)
  {
    if i < j - 1 {
      StagedHoldsTheData(sources, j - 1, i);
      assert NamesOf(sources)[i] != NamesOf(sources)[j - 1];
    }
  }

  function NamesOf(sources: seq<Attachment>): seq<string> {
    seq(|sources|, i requires 0 <= i < |sources| => sources[i].name)
  }

  lemma TaskFileIsReserved()
    ensures IsReserved(TaskFile)
  {
    var l := Lower(TaskFile);
    assert |l| == 7 && l[0] == 't' && l[1] == 'a' && l[2] == 's' && l[3] == 'k' && l[4] == '.' && l[5] == 'm'
        && l[6] == 'd';
    assert l == "task.md";
  }

  /** The published folder holds every attachment with its contents and the rewritten
      markdown, and nothing else. */
  lemma TheFolderIsComplete(sources: seq<Attachment>, text: string, i: nat, name: string)
    requires Importable(sources) && i < |sources|
    ensures var members := Complete(sources, text).members;
            && TaskFile in members && members[TaskFile] == Text(text)
            && sources[i].name in members && members[sources[i].name] == Text(sources[i].data)
            && (name in members <==> name == TaskFile || IsNameOf(sources, |sources|, name))
  {
    TaskFileIsReserved();
    assert IsLeafName(sources[i].name);
    StagedHolds(sources, |sources|, name);
    StagedHoldsTheData(sources, |sources|, i);
  }

  /** The cleanup that the next command does after a crash past publication leaves the folder
      alone with its contents, and no file beside it; before publication it changes nothing. */
  lemma CleanupFinishesPromotion(d: Disk, s: Status, id: string, sources: seq<Attachment>, rewrite: string -> string,
                                 token: string, k: nat)
    requires Promotes(d, s, id, sources, rewrite, token) && k <= |Promotion(d, s, id, sources, rewrite, token)|
    ensures var ops := Promotion(d, s, id, sources, rewrite, token);
            var crashed := After(d, ops, k);
            var cleaned := Performed(crashed, CleanupPlan(crashed.entries, s, id));
            if k < |sources| + 3 then cleaned == crashed && Path(s, id) !in crashed.entries
            else
              && Path(s, FileName(id)) !in cleaned.entries
              && At(cleaned.entries, Path(s, id)) == Some(Complete(sources, rewrite(Resolve(d.entries, s, id).text)))
              && cleaned == After(d, ops, |ops|)
  {
    var ops := Promotion(d, s, id, sources, rewrite, token);
    var text := rewrite(Resolve(d.entries, s, id).text);
    var staging := Path(s, Staging(id, token));
    var crashed := After(d, ops, k);
    StagingIsApart(id, token);
    OpsAt(s, id, staging, sources, text);
    if k < |sources| + 3 {
      BeforePublishing(d, s, id, staging, sources, text, k, Path(s, id));
    } else {
      Published(d, s, id, staging, sources, text, k, Path(s, id));
      Published(d, s, id, staging, sources, text, k, Path(s, FileName(id)));
      CleanupRemovesTheFile(d, crashed, s, id);
      assert After(d, ops, |ops|) == Do(After(d, ops, |sources| + 3), ops[|sources| + 3]);
    }
  }

  lemma CleanupRemovesTheFile(d: Disk, crashed: Disk, s: Status, id: string)
    requires At(crashed.entries, Path(s, id)).Some? && FolderSide(At(crashed.entries, Path(s, id))).Found?
    requires At(crashed.entries, Path(s, FileName(id))).None? || crashed.entries[Path(s, FileName(id))].File?
    ensures Performed(crashed, CleanupPlan(crashed.entries, s, id)) == Do(crashed, Remove(Path(s, FileName(id))))
  {
    AfterOne(crashed, [Remove(Path(s, FileName(id)))]);
  }

  /** A promotion that fails before it publishes removes its staging directory, and the board
      is what it was. */
  lemma FailedPromotionIsUndone(d: Disk, s: Status, id: string, sources: seq<Attachment>, rewrite: string -> string,
                                token: string, k: nat)
    requires Promotes(d, s, id, sources, rewrite, token) && k < |sources| + 3
    ensures k <= |Promotion(d, s, id, sources, rewrite, token)|
    ensures Do(After(d, Promotion(d, s, id, sources, rewrite, token), k), Remove(Path(s, Staging(id, token)))).entries
            == d.entries
  {
    var text := rewrite(Resolve(d.entries, s, id).text);
    var staging := Path(s, Staging(id, token));
    OpsAt(s, id, staging, sources, text);
    var e := After(d, Promotion(d, s, id, sources, rewrite, token), k).entries;
    forall p | p != staging
      ensures At(e, p) == At(d.entries, p)
    {
      BeforePublishing(d, s, id, staging, sources, text, k, p);
    }
    SameEntries(e, d.entries, staging);
  }

  lemma SameEntries(e: Entries, was: Entries, staging: Path)
    requires staging !in was && forall p :: p != staging ==> At(e, p) == At(was, p)
    ensures e - {staging} == was
  {
    var rest := e - {staging};
    forall p
      ensures At(rest, p) == At(was, p)
    {
    }
    assert forall p :: p in was ==> At(rest, p) == Some(was[p]);
    assert forall p :: p in rest ==> At(was, p) == Some(rest[p]);
  }
}
