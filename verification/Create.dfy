/** buildTaskContent in cli/create.go, and the metadata laws for the task files it starts:
    whatever edits follow, parseTaskFile reads the fields and title they leave.

    The template puts a goal, acceptance criteria and further sections below the block; most
    of this module shows that none of their lines, the description aside, reads as a field or
    as a title. */
module Create {
  import opened Wrappers
  import opened Text
  import opened Metadata
  import opened MetadataBlock
  import opened MetadataLaws

  /** The fields parseTaskFile knows, in its order. */
  function TaskFields(): seq<string> {
    ["Type", "Priority", "Size", "Module", "Tags", "Branch", "ReviewRef", "Parent",
     "GroomedBy", "GroomStatus", "ImplementedBy", "ImplementStatus", "ReviewedBy", "ReviewStatus",
     "Agent", "AgentStatus"]
  }

  function TaskFormat(prefix: string): Format { Format(prefix, TaskFields()) }

  /** buildTaskContent's arguments; `description` is a list of lines, empty when it is "". */
  datatype Args = Args(
    number: string, title: string, taskType: string, priority: string, size: string,
    mod: string, tags: string, description: seq<string>, parent: string, date: string, attachments: bool)

  /** What its caller has made sure of. */
  predicate ValidArgs(a: Args) {
    && IsNumber(a.number) && Clean(a.title) && a.title != ""
    && Clean(a.taskType) && Clean(a.priority) && Clean(a.size) && Clean(a.mod) && Clean(a.tags) && Clean(a.parent)
    && a.date != "" && IsDigit(a.date[0])
  }

  function Given(f: string, v: string): seq<(string, string)> { if v == "" then [] else [(f, v)] }

  function CreatedMeta(a: Args): seq<(string, string)> {
    [("Type", a.taskType), ("Priority", a.priority), ("Size", a.size)]
    + Given("Module", a.mod) + Given("Tags", a.tags) + [("Branch", "—")] + Given("Parent", a.parent)
  }

  function GoalOf(text: seq<string>): seq<string> { ["", "## Goal", ""] + text }
  function AcceptancePart(): seq<string> { ["", "## Acceptance Criteria", "", "- [ ] (to be filled)"] }
  function AttachmentsPart(): seq<string> { ["", "## Attachments"] }
  function LogPart(date: string): seq<string> { ["", "## Log", "", "- " + date + ": Created", ""] }

  function CreatedBody(a: Args): seq<string> {
    GoalOf(if a.description == [] then ["(to be filled)"] else a.description)
    + AcceptancePart() + (if a.attachments then AttachmentsPart() else []) + LogPart(a.date)
  }

  function Created(a: Args): Sheet { Sheet(a.number, a.title, CreatedMeta(a), CreatedBody(a)) }

  method BuildTaskContent(prefix: string, a: Args) returns (b: seq<string>)
    ensures b == Lines(TaskFormat(prefix), Created(a))
  {
    b := [HeaderLine(prefix + "-" + a.number, a.title), ""];
    b := b + [FieldLine("Type", a.taskType)];
    b := b + [FieldLine("Priority", a.priority)];
    b := b + [FieldLine("Size", a.size)];
    ghost var b1 := b;
    if a.mod != "" {
      b := b + [FieldLine("Module", a.mod)];
    }
    assert b == b1 + GivenLine("Module", a.mod);
    ghost var b2 := b;
    if a.tags != "" {
      b := b + [FieldLine("Tags", a.tags)];
    }
    assert b == b2 + GivenLine("Tags", a.tags);
    b := b + [FieldLine("Branch", "—")];
    ghost var b3 := b;
    if a.parent != "" {
      b := b + [FieldLine("Parent", a.parent)];
    }
    assert b == b3 + GivenLine("Parent", a.parent);
    BuiltTop(prefix, a, b);
    ghost var b4 := b;
    if a.description != [] {
      b := b + GoalOf(a.description);
    } else {
      b := b + GoalOf(["(to be filled)"]);
    }
    ghost var b5 := b;
    b := b + AcceptancePart();
    ghost var b6 := b;
    if a.attachments {
      b := b + AttachmentsPart();
    }
    assert b == b6 + if a.attachments then AttachmentsPart() else [];
    b := b + LogPart(a.date);
    Assembled(b4, GoalOf(if a.description == [] then ["(to be filled)"] else a.description), AcceptancePart(),
              if a.attachments then AttachmentsPart() else [], LogPart(a.date));
  }

  lemma Assembled(top: seq<string>, w: seq<string>, x: seq<string>, y: seq<string>, z: seq<string>)
    ensures top + w + x + y + z == top + (w + x + y + z)
  {
  }

  function GivenLine(f: string, v: string): seq<string> { if v == "" then [] else [FieldLine(f, v)] }

  lemma BuiltMeta(prefix: string, a: Args)
    ensures MetaLines(CreatedMeta(a))
            == [FieldLine("Type", a.taskType), FieldLine("Priority", a.priority), FieldLine("Size", a.size)]
               + GivenLine("Module", a.mod) + GivenLine("Tags", a.tags) + [FieldLine("Branch", "—")]
               + GivenLine("Parent", a.parent)
  {
  }

  lemma BuiltTop(prefix: string, a: Args, b: seq<string>)
    requires b == [HeaderLine(prefix + "-" + a.number, a.title), ""]
                  + [FieldLine("Type", a.taskType)] + [FieldLine("Priority", a.priority)] + [FieldLine("Size", a.size)]
                  + GivenLine("Module", a.mod) + GivenLine("Tags", a.tags) + [FieldLine("Branch", "—")]
                  + GivenLine("Parent", a.parent)
    ensures b == Top(prefix + "-" + a.number, a.title) + MetaLines(CreatedMeta(a))
  {
    BuiltMeta(prefix, a);
  }

  lemma FieldsArePlain(f: string)
    requires f in TaskFields()
    ensures PlainName(f)
  {
  }

  lemma TaskFormatIsProper(prefix: string)
    ensures Proper(TaskFormat(prefix)) && PlainName("Branch")
  {
    forall f | f in TaskFields()
      ensures PlainName(f)
    {
      FieldsArePlain(f);
    }
  }

  lemma CreatedIsValid(prefix: string, a: Args)
    requires ValidArgs(a)
    ensures Valid(TaskFormat(prefix), Created(a))
  {
    TaskFormatIsProper(prefix);
    CreatedMetaIsValid(TaskFormat(prefix), a);
  }

  /** A valid block with no other fields than `names`. */
  ghost predicate Within(fm: Format, meta: seq<(string, string)>, names: set<string>) {
    ValidMeta(fm, meta) && forall i :: 0 <= i < |meta| ==> meta[i].0 in names
  }

  /** A field that is written only when it has a value. */
  lemma OneGiven(fm: Format, meta: seq<(string, string)>, names: set<string>, f: string, v: string)
    requires Within(fm, meta, names) && f in fm.fields && f !in names && Clean(v)
    ensures Within(fm, meta + Given(f, v), names + {f}) && Within(fm, meta + [(f, v)], names + {f})
  {
    assert meta + [] == meta;
  }

  lemma FirstThree(fm: Format, f: string, v: string, g: string, w: string, h: string, x: string)
    requires f in fm.fields && g in fm.fields && h in fm.fields && f != g && h !in {f} + {g}
    requires Clean(v) && Clean(w) && Clean(x)
    ensures Within(fm, [(f, v), (g, w), (h, x)], {f} + {g} + {h})
  {
  }

  lemma CreatedMetaIsValid(fm: Format, a: Args)
    requires ValidArgs(a) && fm.fields == TaskFields()
    ensures ValidMeta(fm, CreatedMeta(a)) && Names(CreatedMeta(a), "Branch")
  {
    var three := [("Type", a.taskType), ("Priority", a.priority), ("Size", a.size)];
    FirstThree(fm, "Type", a.taskType, "Priority", a.priority, "Size", a.size);
    ModuleAndTags(fm, three, a);
    BranchAndParent(fm, three + Given("Module", a.mod) + Given("Tags", a.tags), a);
  }

  lemma ModuleAndTags(fm: Format, meta: seq<(string, string)>, a: Args)
    requires ValidArgs(a) && fm.fields == TaskFields() && Within(fm, meta, {"Type"} + {"Priority"} + {"Size"})
    ensures Within(fm, meta + Given("Module", a.mod) + Given("Tags", a.tags), FirstNames())
  {
    var names := {"Type"} + {"Priority"} + {"Size"};
    OneGiven(fm, meta, names, "Module", a.mod);
    OneGiven(fm, meta + Given("Module", a.mod), names + {"Module"}, "Tags", a.tags);
  }

  function FirstNames(): set<string> { {"Type"} + {"Priority"} + {"Size"} + {"Module"} + {"Tags"} }

  lemma BranchIsNew()
    ensures "Branch" in TaskFields() && "Branch" !in FirstNames()
  {
    assert TaskFields()[5] == "Branch";
  }

  lemma ParentIsNew()
    ensures "Parent" in TaskFields() && "Parent" !in FirstNames() + {"Branch"}
  {
    assert TaskFields()[7] == "Parent";
  }

  lemma BranchAndParent(fm: Format, meta: seq<(string, string)>, a: Args)
    requires ValidArgs(a) && fm.fields == TaskFields() && Within(fm, meta, FirstNames())
    ensures var meta' := meta + [("Branch", "—")] + Given("Parent", a.parent);
            ValidMeta(fm, meta') && Names(meta', "Branch")
  {
    BranchIsNew();
    ParentIsNew();
    TwoGiven(fm, meta, FirstNames(), "Branch", "—", "Parent", a.parent);
  }

  lemma TwoGiven(fm: Format, meta: seq<(string, string)>, names: set<string>, f: string, v: string, g: string,
                 w: string)
    requires Within(fm, meta, names) && f in fm.fields && f !in names && Clean(v)
    requires g in fm.fields && g !in names + {f} && Clean(w)
    ensures ValidMeta(fm, meta + [(f, v)] + Given(g, w)) && Names(meta + [(f, v)] + Given(g, w), f)
  {
    OneGiven(fm, meta, names, f, v);
    OneGiven(fm, meta + [(f, v)], names + {f}, g, w);
    assert (meta + [(f, v)] + Given(g, w))[|meta|].0 == f;
  }

  /** The description shows parseTaskFile no title-like or field-like line within its window. */
  ghost predicate QuietDescription(fm: Format, description: seq<string>) {
    forall i :: 0 <= i < |description| && i < MAX_METADATA_LINES - 5 ==> Quiet(fm, description[i])
  }

  /** Neither the line nor, after a list dash, what follows starts like a field; nor is it a title. */
  predicate Unmarked(line: string) {
    || |line| < 3
    || (line[0] != '*' && !(line[0] == '#' && line[1] == ' ') && (line[0] == '-' && line[1] == ' ' ==> line[2] != '*'))
  }

  lemma UnmarkedIsQuiet(fm: Format, line: string)
    requires Unmarked(line) && (|line| < 3 ==> line == "") && TrimReturn(line) == line
    ensures Quiet(fm, line)
  {
    QuietWithoutMarks(fm, line);
  }

  lemma QuietConcat(fm: Format, a: seq<string>, b: seq<string>)
    requires QuietBody(fm, a) && AllQuiet(fm, b)
    ensures QuietBody(fm, a + b)
  {
    forall i | 0 <= i < |a + b| && i < MAX_METADATA_LINES - 2
      ensures Quiet(fm, (a + b)[i])
    {
      assert (a + b)[i] == if i < |a| then a[i] else b[i - |a|];
    }
  }

  lemma ConstantPartsAreQuiet(fm: Format, date: string)
    requires date != "" && IsDigit(date[0])
    ensures Quiet(fm, "") && Quiet(fm, "## Goal") && Quiet(fm, "(to be filled)") && Quiet(fm, "## Acceptance Criteria")
    ensures Quiet(fm, "- [ ] (to be filled)") && Quiet(fm, "## Attachments") && Quiet(fm, "## Log")
    ensures Quiet(fm, "- " + date + ": Created")
  {
    UnmarkedIsQuiet(fm, "");
    UnmarkedIsQuiet(fm, "## Goal");
    UnmarkedIsQuiet(fm, "(to be filled)");
    UnmarkedIsQuiet(fm, "## Acceptance Criteria");
    UnmarkedIsQuiet(fm, "- [ ] (to be filled)");
    UnmarkedIsQuiet(fm, "## Attachments");
    UnmarkedIsQuiet(fm, "## Log");
    UnmarkedIsQuiet(fm, "- " + date + ": Created");
  }

  predicate AllQuiet(fm: Format, lines: seq<string>) { forall i :: 0 <= i < |lines| ==> Quiet(fm, lines[i]) }

  lemma PartsAreQuiet(fm: Format, date: string)
    requires date != "" && IsDigit(date[0])
    ensures AllQuiet(fm, AcceptancePart()) && AllQuiet(fm, AttachmentsPart()) && AllQuiet(fm, LogPart(date))
  {
    ConstantPartsAreQuiet(fm, date);
    QuietLines(fm, "", "## Acceptance Criteria", "", "- [ ] (to be filled)");
    QuietLines(fm, "", "## Attachments", "", "");
    QuietLines(fm, "", "## Log", "", "- " + date + ": Created");
  }

  lemma QuietLines(fm: Format, a: string, b: string, c: string, d: string)
    requires Quiet(fm, a) && Quiet(fm, b) && Quiet(fm, c) && Quiet(fm, d)
    ensures AllQuiet(fm, [a, b]) && AllQuiet(fm, [a, b, c, d]) && AllQuiet(fm, [a, b, c, d, c])
  {
  }

  lemma FourParts(fm: Format, w: seq<string>, x: seq<string>, y: seq<string>, z: seq<string>)
    requires QuietBody(fm, w) && AllQuiet(fm, x) && AllQuiet(fm, y) && AllQuiet(fm, z)
    ensures QuietBody(fm, w + x + y + z)
  {
    QuietConcat(fm, w, x);
    QuietConcat(fm, w + x, y);
    QuietConcat(fm, w + x + y, z);
  }

  lemma CreatedBodyIsQuiet(fm: Format, a: Args)
    requires ValidArgs(a) && QuietDescription(fm, a.description)
    ensures QuietBody(fm, CreatedBody(a))
  {
    var text := if a.description == [] then ["(to be filled)"] else a.description;
    ConstantPartsAreQuiet(fm, a.date);
    GoalIsQuiet(fm, text);
    PartsAreQuiet(fm, a.date);
    FourParts(fm, GoalOf(text), AcceptancePart(), if a.attachments then AttachmentsPart() else [], LogPart(a.date));
  }

  lemma GoalIsQuiet(fm: Format, text: seq<string>)
    requires Quiet(fm, "") && Quiet(fm, "## Goal") && QuietDescription(fm, text)
    ensures QuietBody(fm, GoalOf(text))
  {
    forall i | 0 <= i < |GoalOf(text)| && i < MAX_METADATA_LINES - 2
      ensures Quiet(fm, GoalOf(text)[i])
    {
      assert GoalOf(text)[i] == if i < 3 then ["", "## Goal", ""][i] else text[i - 3];
    }
  }

  /** The central law of the metadata: create a task, edit it in any way that keeps its block,
      and read it. What is read is the created task's fields and title, updated by the edits
      as a map. */
  lemma CreateEditParse(prefix: string, a: Args, ops: seq<Op>)
    requires ValidArgs(a) && QuietDescription(TaskFormat(prefix), a.description)
    requires KeepsAnchored(Created(a), ops) && forall i :: 0 <= i < |ops| ==> ValidOp(TaskFormat(prefix), ops[i])
    ensures var fm := TaskFormat(prefix);
            ParseTask(fm, EditAll(fm, Lines(fm, Created(a)), ops))
            == Parsed(UpdateAll(Task(prefix + "-" + a.number, a.title, MapOf(CreatedMeta(a))), ops))
  {
    var fm := TaskFormat(prefix);
    TaskFormatIsProper(prefix);
    CreatedIsValid(prefix, a);
    CreatedBodyIsQuiet(fm, a);
    ParseAfterEdits(fm, Created(a), ops);
  }

  /** A created task has a Branch line: as long as no edit clears that, its block stays. */
  lemma CreatedStaysAnchored(prefix: string, a: Args, ops: seq<Op>)
    requires ValidArgs(a) && Clear("Branch") !in ops
    ensures KeepsAnchored(Created(a), ops)
  {
    TaskFormatIsProper(prefix);
    CreatedMetaIsValid(TaskFormat(prefix), a);
    KeptLineAnchors(Created(a), ops, "Branch");
  }

  // ---------------------------------------------------------------- when the law fails

  lemma {:induction false} PastNothing(xs: seq<Seen>, k0: nat, k: nat, f: string)
    requires k0 <= k <= |xs| && forall i :: k0 <= i < k ==> xs[i] == Nothing
    ensures LastIn(xs, k, f) == LastIn(xs, k0, f) && LastTitle(xs, k) == LastTitle(xs, k0)
    ensures FirstBad(xs, k0) < k0 ==> FirstBad(xs, k) == FirstBad(xs, k0)
    decreases k
  {
    if k0 < k {
      PastNothing(xs, k0, k - 1, f);
    }
  }

  /** The one line that is seen. */
  lemma OneSeen(xs: seq<Seen>, n: nat, k: nat, f: string)
    requires n < k <= |xs| && forall i :: 0 <= i < |xs| && i != n ==> xs[i] == Nothing
    ensures xs[n].FieldSeen? && xs[n].field == f ==> LastIn(xs, k, f) == Some(xs[n].value)
    ensures xs[n].TitleSeen? ==> LastTitle(xs, k) == Some((xs[n].id, xs[n].title))
    ensures xs[n].BadTitle? ==> FirstBad(xs, k) == n
  {
    NothingBelow(Task("", "", map[]), xs, n);
    PastNothing(xs, n + 1, k, f);
  }

  /** A description of one line is the only line of the body that can be seen. */
  lemma OneSeenInTheBody(fm: Format, a: Args, line: string)
    requires ValidArgs(a) && a.description == [line]
    ensures var xs := SeenIn(fm, CreatedBody(a));
            |xs| > 3 && xs[3] == See(fm, line) && forall i :: 0 <= i < |xs| && i != 3 ==> xs[i] == Nothing
  {
    var attachments := if a.attachments then AttachmentsPart() else [];
    var rest := AcceptancePart() + attachments + LogPart(a.date);
    PartsAreQuiet(fm, a.date);
    RestIsQuiet(fm, AcceptancePart(), attachments, LogPart(a.date));
    GoalAlone(fm, a.date, line);
    Regroup(GoalOf([]), line, AcceptancePart(), attachments, LogPart(a.date));
    SeenAround(fm, GoalOf([]), line, rest);
    assert CreatedBody(a) == GoalOf([]) + [line] + rest;
  }

  lemma SeenAround(fm: Format, top: seq<string>, line: string, rest: seq<string>)
    requires AllQuiet(fm, top) && AllQuiet(fm, rest)
    ensures var xs := SeenIn(fm, top + [line] + rest);
            xs[|top|] == See(fm, line) && forall i :: 0 <= i < |xs| && i != |top| ==> xs[i] == Nothing
  {
    NothingSeen(fm, top);
    NothingSeen(fm, rest);
    SeeThree(fm, top, [line], rest);
    AllButOne(SeenIn(fm, top), SeenIn(fm, [line])[0], SeenIn(fm, rest));
    assert SeenIn(fm, [line]) == [SeenIn(fm, [line])[0]];
  }

  lemma NothingSeen(fm: Format, lines: seq<string>)
    requires AllQuiet(fm, lines)
    ensures forall i :: 0 <= i < |lines| ==> SeenIn(fm, lines)[i] == Nothing
  {
    forall i | 0 <= i < |lines|
      ensures See(fm, lines[i]) == Nothing
    {
      QuietIsNothing(fm, lines[i]);
    }
  }

  lemma AllButOne(a: seq<Seen>, x: Seen, b: seq<Seen>)
    requires (forall i :: 0 <= i < |a| ==> a[i] == Nothing) && (forall i :: 0 <= i < |b| ==> b[i] == Nothing)
    ensures (a + [x] + b)[|a|] == x && forall i :: 0 <= i < |a + [x] + b| && i != |a| ==> (a + [x] + b)[i] == Nothing
  {
  }

  lemma Regroup(w: seq<string>, line: string, x: seq<string>, y: seq<string>, z: seq<string>)
    ensures w + [line] + x + y + z == w + [line] + (x + y + z)
  {
  }

  lemma GoalAlone(fm: Format, date: string, line: string)
    requires date != "" && IsDigit(date[0])
    ensures AllQuiet(fm, GoalOf([])) && |GoalOf([])| == 3 && GoalOf([line]) == GoalOf([]) + [line]
  {
    ConstantPartsAreQuiet(fm, date);
    QuietThree(fm, "", "## Goal");
  }

  lemma QuietThree(fm: Format, a: string, b: string)
    requires Quiet(fm, a) && Quiet(fm, b)
    ensures AllQuiet(fm, [a, b, a] + [])
  {
  }

  lemma RestIsQuiet(fm: Format, x: seq<string>, y: seq<string>, z: seq<string>)
    requires AllQuiet(fm, x) && AllQuiet(fm, y) && AllQuiet(fm, z)
    ensures AllQuiet(fm, x + y + z)
  {
  }

  lemma FieldLineIsSeen(fm: Format, v: string)
    requires Proper(fm) && "Type" in fm.fields && Clean(v)
    ensures See(fm, FieldLine("Type", v)) == FieldSeen("Type", v)
  {
    var line := FieldLine("Type", v);
    assert line[0] == '*' && line[|line| - 1] == if v == "" then ' ' else v[|v| - 1];
    FieldInFieldLine(fm.fields, "Type", v);
  }

  /** A description that is itself a field line within the window overrides the field: the
      task just created already reads back with the wrong type. */
  lemma DescriptionCanOverrideAField(prefix: string, a: Args, v: string)
    requires ValidArgs(a) && a.description == [FieldLine("Type", v)] && Clean(v) && v != a.taskType
    ensures var fm := TaskFormat(prefix);
            ParseTask(fm, Lines(fm, Created(a))) != Parsed(TaskOf(fm, Created(a)))
  {
    var fm, s := TaskFormat(prefix), Created(a);
    TaskFormatIsProper(prefix);
    CreatedIsValid(prefix, a);
    TypeIsFirst(a);
    FieldLineIsSeen(fm, v);
    OneSeenInTheBody(fm, a, a.description[0]);
    OneSeen(SeenIn(fm, s.body), 3, Exposed(s), "Type");
    Disagree(SeenIn(fm, s.body), MapOf(s.meta), Exposed(s), "Type", v);
    ReadsTheBlockIff(fm, s);
  }

  lemma Disagree(xs: seq<Seen>, m: map<string, string>, k: nat, f: string, v: string)
    requires k <= |xs| && LastIn(xs, k, f) == Some(v) && (f in m ==> m[f] != v)
    ensures !FieldsAgree(xs, m, k)
  {
  }

  lemma TypeIsFirst(a: Args)
    ensures "Type" in MapOf(CreatedMeta(a)) ==> MapOf(CreatedMeta(a))["Type"] == a.taskType
    ensures |CreatedMeta(a)| <= 7 && 4 <= Exposed(Created(a))
  {
    var meta := CreatedMeta(a);
    assert meta == [("Type", a.taskType)] + meta[1..];
    MapOfConcat([("Type", a.taskType)], meta[1..]);
    MapOfNames(meta[1..], "Type");
    assert [("Type", a.taskType)][..0] == [];
  }

  // ---------------------------------------------------------------- title-like descriptions

  lemma TitleLineIsSeen(prefix: string, number: string, title: string)
    requires IsNumber(number) && Clean(title) && title != ""
    ensures See(TaskFormat(prefix), HeaderLine(prefix + "-" + number, title)) == TitleSeen(prefix + "-" + number, title)
  {
    var line := HeaderLine(prefix + "-" + number, title);
    HeaderOfHeaderLine(prefix, number, title);
    assert TrimReturn(line) == line by {
      assert line[|line| - 1] == title[|title| - 1] != '\r';
    }
    SeenTitle(TaskFormat(prefix), line, prefix + "-" + number, title);
  }

  /** A description that is a title line gives the task just created another ID and title. */
  lemma DescriptionCanOverrideTheTitle(prefix: string, a: Args, number: string, title: string)
    requires ValidArgs(a) && a.description == [HeaderLine(prefix + "-" + number, title)]
    requires IsNumber(number) && Clean(title) && title != "" && number != a.number
    ensures var fm := TaskFormat(prefix);
            var r := ParseTask(fm, Lines(fm, Created(a)));
            && r != Parsed(TaskOf(fm, Created(a)))
            && (r.Parsed? ==> r.task.id == prefix + "-" + number && r.task.title == title)
  {
    var fm, s := TaskFormat(prefix), Created(a);
    TaskFormatIsProper(prefix);
    CreatedIsValid(prefix, a);
    TypeIsFirst(a);
    TitleLineIsSeen(prefix, number, title);
    OneSeenInTheBody(fm, a, a.description[0]);
    OneSeen(SeenIn(fm, s.body), 3, Exposed(s), "");
    ParseOfSheet(fm, s);
    IdsDiffer(prefix, number, a.number);
  }

  lemma IdsDiffer(prefix: string, m: string, n: string)
    requires m != n
    ensures prefix + "-" + m != prefix + "-" + n
  {
    var p := prefix + "-";
    assert (p + m)[|p|..] == m && (p + n)[|p|..] == n;
  }

  lemma BareTitleIsBad(prefix: string, number: string, line: string)
    requires IsNumber(number) && line == "# " + prefix + "-" + number
    ensures See(TaskFormat(prefix), line) == BadTitle
  {
    assert line == HeaderPrefix(prefix) + number && line[|HeaderPrefix(prefix)|..] == number;
    DigitsOfNumber(number, "");
    assert number + "" == number && line[|line| - 1] == number[|number| - 1] != '\r';
  }

  /** A description that looks like a title line without a title makes the task just created
      unreadable. */
  lemma DescriptionCanBreakTheTask(prefix: string, a: Args, number: string)
    requires ValidArgs(a) && a.description == ["# " + prefix + "-" + number] && IsNumber(number)
    ensures var fm := TaskFormat(prefix); ParseTask(fm, Lines(fm, Created(a))).MalformedHeader?
  {
    var fm, s := TaskFormat(prefix), Created(a);
    TaskFormatIsProper(prefix);
    CreatedIsValid(prefix, a);
    TypeIsFirst(a);
    BareTitleIsBad(prefix, number, a.description[0]);
    OneSeenInTheBody(fm, a, a.description[0]);
    OneSeen(SeenIn(fm, s.body), 3, Exposed(s), "");
    ParseOfSheet(fm, s);
  }
}
