/** The headings that cli/edit.go manages, and where it puts a section that is missing. */
module TaskHeadings {
  import Text
  import opened Outline
  import opened Sections
  import opened Upsert
  import opened SectionLaws
  import opened FenceLaws

  function Managed(): set<string> {
    {"## Goal", "## Context", "## Constraints", "## Subtasks", "## Acceptance Criteria", "## User Attention",
     "## Review Target", "## Reviewer Notes", "## Review Findings", "## Related Tasks", "## Attachments", "## Log"}
  }

  /** The headings a missing section is put in front of. */
  function Anchors(h: string): set<string> {
    match h
    case "## Goal" =>
      {"## Context", "## Constraints", "## Acceptance Criteria", "## User Attention", "## Related Tasks",
       "## Attachments", "## Log"}
    case "## Context" =>
      {"## Constraints", "## Acceptance Criteria", "## User Attention", "## Review Target", "## Reviewer Notes",
       "## Review Findings", "## Related Tasks", "## Attachments", "## Log"}
    case "## Constraints" =>
      {"## Acceptance Criteria", "## User Attention", "## Review Target", "## Reviewer Notes",
       "## Review Findings", "## Related Tasks", "## Attachments", "## Log"}
    case "## Acceptance Criteria" => {"## User Attention", "## Related Tasks", "## Attachments", "## Log"}
    case "## User Attention" =>
      {"## Review Target", "## Reviewer Notes", "## Review Findings", "## Related Tasks", "## Attachments", "## Log"}
    case "## Review Target" =>
      {"## Reviewer Notes", "## Review Findings", "## Related Tasks", "## Attachments", "## Log"}
    case "## Reviewer Notes" => {"## Review Findings", "## Related Tasks", "## Attachments", "## Log"}
    case "## Review Findings" => {"## Related Tasks", "## Attachments", "## Log"}
    case "## Attachments" => {"## Log"}
    case _ => {}
  }

  function TaskRules(): Rules { Rules(Managed(), Anchors, {"## Context", "## Constraints"}) }

  predicate Trimmed(h: string) {
    |h| > 2 && h[0] == '#' && !Text.IsSpace(h[|h| - 1]) && forall i :: 0 <= i < |h| ==> h[i] != '\n'
  }

  lemma TrimmedIsHeading(h: string)
    requires Trimmed(h)
    ensures IsHeading(h)
  {
    assert Text.TrimRightSpace(h) == h && Text.TrimLeftSpace(h) == h;
  }

  lemma ManagedAreHeadings(h: string)
    requires h in Managed()
    ensures IsHeading(h)
  {
    TrimmedIsHeading(h);
  }

  lemma TaskRulesAreProper()
    ensures Proper(TaskRules())
  {
    forall h | h in Managed()
      ensures IsHeading(h)
    {
      ManagedAreHeadings(h);
    }
    forall h
      ensures Anchors(h) <= Managed()
    {
      AnchorsAreManaged(h);
    }
    assert {"## Context", "## Constraints"} <= Managed();
    ProperParts(TaskRules(), Managed());
  }

  lemma AnchorsAreManaged(h: string)
    ensures Anchors(h) <= Managed()
  {
  }

  lemma ProperParts(r: Rules, hs: set<string>)
    requires r.headings == hs && r.coalesced <= hs
    requires forall h :: h in hs ==> IsHeading(h)
    requires forall h :: r.anchors(h) <= hs
    ensures Proper(r)
  {
  }

  /** In a task with a log, writing any section that has a place of its own is idempotent. */
  lemma WithALogUpsertIsIdempotent(content: string, h: string, body: string)
    requires h in Managed() && WellFormedBody(EditScanner(Managed()), body)
    requires IndexOf(Cut(Managed(), content).secs, {"## Log"}) < |Cut(Managed(), content).secs|
    requires h !in {"## Subtasks", "## Related Tasks"}
    ensures Upserted(TaskRules(), Upserted(TaskRules(), content, h, body), h, body)
            == Upserted(TaskRules(), content, h, body)
  {
    var secs := Cut(Managed(), content).secs;
    TaskRulesAreProper();
    if h != "## Log" {
      LogIsAnAnchor(h);
      FirstOfMore(secs, {"## Log"}, Anchors(h));
    }
    UpsertTwice(TaskRules(), content, h, body);
  }

  /** In an empty text there is nothing to put a section in front of: it is appended, and the
      second write of the same section changes the text once more. */
  lemma AppendingIsNotIdempotent(h: string, body: string)
    requires h in Managed() && WellFormedBody(EditScanner(Managed()), body)
    ensures Upserted(TaskRules(), Upserted(TaskRules(), "", h, body), h, body) != Upserted(TaskRules(), "", h, body)
  {
    TaskRulesAreProper();
    assert Cut(Managed(), "").secs == [] && After(EditScanner(Managed()), false, "") == false;
    UpsertTwice(TaskRules(), "", h, body);
  }

  lemma EmptyBodyIsWellFormed()
    ensures WellFormedBody(EditScanner(Managed()), "")
  {
    var sc := EditScanner(Managed());
    BlankLineIsNothing(Managed(), false, "\n");
    BlankLines(sc, false, 2, "\n");
    assert Text.Newlines(2) == "\n\n" == "" + "\n\n";
  }

  /** For instance an empty goal. */
  lemma EmptyGoalTwice()
    ensures var once := Upserted(TaskRules(), "", "## Goal", ""); Upserted(TaskRules(), once, "## Goal", "") != once
  {
    EmptyBodyIsWellFormed();
    AppendingIsNotIdempotent("## Goal", "");
  }

  lemma LogIsAnAnchor(h: string)
    requires h in Managed() && h !in {"## Subtasks", "## Related Tasks", "## Log"}
    ensures "## Log" in Anchors(h)
  {
  }

  lemma {:induction false} FirstOfMore(secs: seq<string>, hs: set<string>, more: set<string>)
    requires hs <= more
    ensures IndexOf(secs, more) <= IndexOf(secs, hs)
  {
    if secs != [] && Name(secs[0]) !in more {
      FirstOfMore(secs[1..], hs, more);
    }
  }
}
