/** A task as it is created: the fields that are read from it and the sections it has
    (cli/create.go). */
module CreatedTask {
  import opened Wrappers
  import opened Text
  import opened Metadata
  import opened MetadataBlock
  import opened MetadataLaws
  import opened Create
  import Outline
  import TaskSections

  // ---------------------------------------------------------------- its fields

  function IfGiven(f: string, v: string): map<string, string> { if v == "" then map[] else map[f := v] }

  lemma MapOfGiven(f: string, v: string)
    ensures MapOf(Given(f, v)) == IfGiven(f, v) && MapOf([(f, v)]) == map[f := v]
  {
    assert [(f, v)][..0] == [];
  }

  lemma MapOfSeven(a: seq<(string, string)>, b: seq<(string, string)>, c: seq<(string, string)>,
                   d: seq<(string, string)>, e: seq<(string, string)>)
    ensures MapOf(a + b + c + d + e) == MapOf(a) + MapOf(b) + MapOf(c) + MapOf(d) + MapOf(e)
  {
    MapOfConcat(a, b);
    MapOfConcat(a + b, c);
    MapOfConcat(a + b + c, d);
    MapOfConcat(a + b + c + d, e);
  }

  lemma MapOfThree(f: string, v: string, g: string, w: string, h: string, x: string)
    ensures MapOf([(f, v), (g, w), (h, x)]) == map[f := v][g := w][h := x]
  {
    var s := [(f, v), (g, w), (h, x)];
    MapOfMore(s, 0);
    MapOfMore(s, 1);
    MapOfMore(s, 2);
    assert s[..0] == [] && s[..3] == s;
  }

  /** A created task reads back with the values it was created with, Branch being a dash; module,
      tags and parent are absent unless given. */
  lemma CreatedReads(prefix: string, a: Args, fm: Format)
    requires ValidArgs(a) && fm == TaskFormat(prefix) && QuietDescription(fm, a.description)
    ensures ParseTask(fm, Lines(fm, Created(a)))
            == Parsed(Task(prefix + "-" + a.number, a.title,
                           map["Type" := a.taskType]["Priority" := a.priority]["Size" := a.size]
                           + IfGiven("Module", a.mod) + IfGiven("Tags", a.tags) + map["Branch" := "—"]
                           + IfGiven("Parent", a.parent)))
  {
    CreatedMap(a, "Type", "Priority", "Size", "Branch");
    CreatedStaysAnchored(prefix, a, []);
    CreateEditParse(prefix, a, []);
  }

  lemma CreatedMap(a: Args, f: string, g: string, h: string, b: string)
    requires f == "Type" && g == "Priority" && h == "Size" && b == "Branch"
    ensures MapOf(CreatedMeta(a))
            == map[f := a.taskType][g := a.priority][h := a.size]
               + IfGiven("Module", a.mod) + IfGiven("Tags", a.tags) + map[b := "—"] + IfGiven("Parent", a.parent)
  {
    MapOfThree(f, a.taskType, g, a.priority, h, a.size);
    MapOfGiven("Module", a.mod);
    MapOfGiven("Tags", a.tags);
    MapOfGiven(b, "—");
    MapOfGiven("Parent", a.parent);
    MapOfSeven([(f, a.taskType), (g, a.priority), (h, a.size)], Given("Module", a.mod), Given("Tags", a.tags),
               [(b, "—")], Given("Parent", a.parent));
  }

  // ---------------------------------------------------------------- its sections

  /** One line that is neither a fence nor a section's heading. */
  predicate Ordinary(line: string) {
    '\n' !in line && !("```" <= line) && !("~~~" <= line) && !("## " <= line)
  }

  predicate AllOrdinary(lines: seq<string>) { forall i :: 0 <= i < |lines| ==> Ordinary(lines[i]) }

  lemma OrdinaryLine(sc: Outline.Scanner<string>, l: string, nl: string)
    requires sc == TaskSections.TaskScanner() && Ordinary(l) && nl == "\n"
    ensures sc.next("", l + nl) == "" && !sc.heads("", l + nl) && FirstLineIs(l + nl)
  {
    OneLine(l);
    TaskSections.LineEndIsIgnored(l);
  }

  lemma OneMoreOrdinary(sc: Outline.Scanner<string>, l: string, t: string)
    requires sc.start == "" && sc.next("", l) == "" && !sc.heads("", l) && FirstLineIs(l)
    requires Outline.Plain(sc, t) && Outline.Closed(sc, t)
    ensures Outline.Plain(sc, l + t) && Outline.Closed(sc, l + t)
  {
    Outline.LineThen(sc, "", l, t);
  }

  predicate FirstLineIs(l: string) { l != "" && FirstLine(l) == l && Terminated(l) }

  lemma {:induction false} OrdinaryLines(sc: Outline.Scanner<string>, lines: seq<string>)
    requires sc == TaskSections.TaskScanner() && AllOrdinary(lines)
    ensures Outline.Plain(sc, Joined(lines)) && Outline.Closed(sc, Joined(lines))
  {
    if lines != [] {
      OrdinaryLine(sc, lines[0], "\n");
      OrdinaryLines(sc, lines[1..]);
      OneMoreOrdinary(sc, lines[0] + "\n", Joined(lines[1..]));
      JoinedFirst(lines[0], lines[1..], lines);
    }
  }

  lemma JoinedFirst(h: string, lines: seq<string>, all: seq<string>)
    requires all != [] && all[0] == h && all[1..] == lines
    ensures Joined(all) == (h + "\n") + Joined(lines)
  {
    assert h + ("\n" + Joined(lines)) == (h + "\n") + Joined(lines);
  }

  lemma HeadingLine(sc: Outline.Scanner<string>, h: string, nl: string)
    requires sc == TaskSections.TaskScanner() && "## " <= h && '\n' !in h && nl == "\n"
    ensures sc.next("", h + nl) == "" && sc.heads("", h + nl) && FirstLineIs(h + nl)
  {
    OneLine(h);
    TaskSections.LineEndIsIgnored(h);
    assert h[0] == '#';
  }

  lemma HeadedSection(sc: Outline.Scanner<string>, l: string, t: string)
    requires sc.start == "" && sc.next("", l) == "" && sc.heads("", l) && FirstLineIs(l)
    requires Outline.Plain(sc, t) && Outline.Closed(sc, t)
    ensures Outline.OneSection(sc, l + t) && Outline.Closed(sc, l + t)
  {
    Outline.LineThen(sc, "", l, t);
  }

  /** A heading and ordinary lines are one section. */
  lemma SectionLines(sc: Outline.Scanner<string>, h: string, lines: seq<string>)
    requires sc == TaskSections.TaskScanner() && "## " <= h && '\n' !in h && AllOrdinary(lines)
    ensures Outline.OneSection(sc, Joined([h] + lines)) && Outline.Closed(sc, Joined([h] + lines))
  {
    HeadingLine(sc, h, "\n");
    OrdinaryLines(sc, lines);
    HeadedSection(sc, h + "\n", Joined(lines));
    JoinedFirst(h, lines, [h] + lines);
  }

  lemma {:induction false} JoinedConcat(a: seq<string>, b: seq<string>)
    ensures Joined(a + b) == Joined(a) + Joined(b)
  {
    if a == [] {
      assert a + b == b;
    } else {
      assert (a + b)[0] == a[0] && (a + b)[1..] == a[1..] + b;
      JoinedConcat(a[1..], b);
    }
  }

  /** Headings, each with the lines below it. */
  function SectionsOf(parts: seq<(string, seq<string>)>): seq<string> {
    seq(|parts|, i requires 0 <= i < |parts| => Joined([parts[i].0] + parts[i].1))
  }

  function LinesOf(parts: seq<(string, seq<string>)>): seq<string> {
    if parts == [] then [] else [parts[0].0] + parts[0].1 + LinesOf(parts[1..])
  }

  predicate Parts(parts: seq<(string, seq<string>)>) {
    forall i :: 0 <= i < |parts| ==> "## " <= parts[i].0 && '\n' !in parts[i].0 && AllOrdinary(parts[i].1)
  }

  lemma {:induction false} JoinedParts(parts: seq<(string, seq<string>)>)
    ensures Joined(LinesOf(parts)) == Outline.Concat(SectionsOf(parts))
  {
    if parts != [] {
      JoinedParts(parts[1..]);
      JoinedConcat([parts[0].0] + parts[0].1, LinesOf(parts[1..]));
      assert SectionsOf(parts)[1..] == SectionsOf(parts[1..]);
    }
  }

  /** Ordinary lines and then such parts have exactly the parts as their sections. */
  lemma OutlineOfParts(sc: Outline.Scanner<string>, top: seq<string>, parts: seq<(string, seq<string>)>)
    requires sc == TaskSections.TaskScanner() && AllOrdinary(top) && Parts(parts)
    ensures Outline.Parse(sc, "", Joined(top + LinesOf(parts))) == Outline.Doc(Joined(top), SectionsOf(parts))
  {
    var d := Outline.Doc(Joined(top), SectionsOf(parts));
    OrdinaryLines(sc, top);
    forall i | 0 <= i < |parts|
      ensures Outline.OneSection(sc, d.secs[i]) && Outline.Closed(sc, d.secs[i])
    {
      SectionLines(sc, parts[i].0, parts[i].1);
    }
    JoinedConcat(top, LinesOf(parts));
    JoinedParts(parts);
    Outline.ParseOfWhole(sc, d);
  }

  /** The lines of the goal. */
  function GoalText(a: Args): seq<string> { if a.description == [] then ["(to be filled)"] else a.description }

  /** The parts of a created task: goal, acceptance criteria, attachments if it has any, and log. */
  function CreatedParts(a: Args): seq<(string, seq<string>)> {
    [("## Goal", [""] + GoalText(a) + [""]), ("## Acceptance Criteria", ["", "- [ ] (to be filled)", ""])]
    + (if a.attachments then [("## Attachments", [""])] else [])
    + [("## Log", ["", "- " + a.date + ": Created"])]
  }

  /** Every field is of one line, and so is every line of the description, which is neither a fence
      nor a heading. */
  predicate OneLineArgs(prefix: string, a: Args) {
    Unbroken(prefix) && Unbroken(a.date) && AllOrdinary(a.description)
  }

  lemma LinesOfMore(part: (string, seq<string>), rest: seq<(string, seq<string>)>, all: seq<(string, seq<string>)>)
    requires all == [part] + rest
    ensures LinesOf(all) == [part.0] + part.1 + LinesOf(rest)
  {
    assert all[1..] == rest;
  }

  lemma TwoOrThree(w: (string, seq<string>), x: (string, seq<string>), y: (string, seq<string>),
                   z: (string, seq<string>), some: bool)
    ensures LinesOf([w, x] + (if some then [y] else []) + [z])
            == [w.0] + w.1 + ([x.0] + x.1) + (if some then [y.0] + y.1 else []) + ([z.0] + z.1)
  {
    var last := (if some then [y] else []) + [z];
    LinesOfMore(w, [x] + last, [w, x] + (if some then [y] else []) + [z]);
    LinesOfMore(x, last, [x] + last);
    LinesOfMore(y, [z], [y] + [z]);
    LinesOfMore(z, [], [z]);
    assert !some ==> last == [z];
  }

  lemma BodyIsParts(a: Args)
    ensures CreatedBody(a) == [""] + LinesOf(CreatedParts(a)) + [""]
  {
    TwoOrThree(("## Goal", [""] + GoalText(a) + [""]), ("## Acceptance Criteria", ["", "- [ ] (to be filled)", ""]),
               ("## Attachments", [""]), ("## Log", ["", "- " + a.date + ": Created"]), a.attachments);
  }

  lemma OrdinaryStart(line: string)
    requires Unbroken(line) && line != "" && line[0] !in {'`', '~', '#'}
    ensures Ordinary(line)
  {
    assert ("```")[0] == '`' && ("~~~")[0] == '~' && ("## ")[0] == '#';
  }

  lemma NoBreak(a: string, b: string)
    requires Unbroken(a) && Unbroken(b)
    ensures Unbroken(a + b)
  {
  }

  lemma FieldLineIsOrdinary(f: string, v: string)
    requires Unbroken(f) && Unbroken(v)
    ensures Ordinary(FieldLine(f, v))
  {
    NoBreak(f, v);
    assert FieldLine(f, v)[0] == '*';
    OrdinaryStart(FieldLine(f, v));
  }

  lemma HeaderLineIsOrdinary(id: string, title: string)
    requires Unbroken(id) && Unbroken(title)
    ensures Ordinary(HeaderLine(id, title))
  {
    assert HeaderLine(id, title)[0] == '#' && HeaderLine(id, title)[1] == ' ';
  }

  lemma TopIsOrdinary(prefix: string, a: Args)
    requires ValidArgs(a) && OneLineArgs(prefix, a)
    ensures AllOrdinary(Top(prefix + "-" + a.number, a.title) + MetaLines(CreatedMeta(a)) + [""])
  {
    assert forall i :: 0 <= i < |a.number| ==> IsDigit(a.number[i]);
    HeaderLineIsOrdinary(prefix + "-" + a.number, a.title);
    var meta := CreatedMeta(a);
    CreatedMetaIsValid(TaskFormat(prefix), a);
    forall i | 0 <= i < |meta|
      ensures Ordinary(MetaLines(meta)[i])
    {
      FieldsAreUnbroken(meta[i].0);
      FieldLineIsOrdinary(meta[i].0, meta[i].1);
    }
    TopAnd(HeaderLine(prefix + "-" + a.number, a.title), MetaLines(meta));
  }

  lemma FieldsAreUnbroken(f: string)
    requires f in TaskFields()
    ensures Unbroken(f)
  {
  }

  lemma TopAnd(header: string, block: seq<string>)
    requires Ordinary(header) && AllOrdinary(block)
    ensures AllOrdinary([header, ""] + block + [""])
  {
  }

  lemma PartsAreGood(prefix: string, a: Args)
    requires ValidArgs(a) && OneLineArgs(prefix, a)
    ensures Parts(CreatedParts(a))
  {
    GoalIsOrdinary(a);
    LogIsOrdinary(a.date);
    OrdinaryStart("- [ ] (to be filled)");
  }

  lemma GoalIsOrdinary(a: Args)
    requires AllOrdinary(a.description)
    ensures AllOrdinary([""] + GoalText(a) + [""])
  {
    OrdinaryStart("(to be filled)");
  }

  lemma LogIsOrdinary(date: string)
    requires Unbroken(date)
    ensures AllOrdinary(["", "- " + date + ": Created"])
  {
    OrdinaryStart("- " + date + ": Created");
  }

  /** A created task has exactly these sections, in this order, each with its lines: the log's first
      entry is the creation, and nothing follows it. */
  lemma CreatedSections(prefix: string, a: Args, lines: seq<string>)
    requires ValidArgs(a) && OneLineArgs(prefix, a) && lines == Lines(TaskFormat(prefix), Created(a))
    ensures lines != [] && lines[|lines| - 1] == ""
    ensures TaskSections.Sectioned(Joined(lines[..|lines| - 1])).secs == SectionsOf(CreatedParts(a))
  {
    var top := Top(prefix + "-" + a.number, a.title) + MetaLines(CreatedMeta(a)) + [""];
    TopIsOrdinary(prefix, a);
    PartsAreGood(prefix, a);
    BodyIsParts(a);
    LinesAre(Top(prefix + "-" + a.number, a.title), MetaLines(CreatedMeta(a)), LinesOf(CreatedParts(a)), lines);
    OutlineOfParts(TaskSections.TaskScanner(), top, CreatedParts(a));
  }

  lemma LinesAre(top: seq<string>, block: seq<string>, parts: seq<string>, lines: seq<string>)
    requires lines == top + block + ([""] + parts + [""])
    ensures lines != [] && lines[|lines| - 1] == "" && lines[..|lines| - 1] == top + block + [""] + parts
  {
  }
}
