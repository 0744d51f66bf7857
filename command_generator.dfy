/** `generate_command_from_skill`: the command Markdown rendered from a SKILL.md file and its
    intent, written to the output path. */
module CommandGenerator {
  import opened Common
  import opened Text
  import opened Paths
  import opened Frontmatter
  import opened Intents
  import opened Markdown

  /** The command's name: the intent's, else the name of the directory holding SKILL.md. */
  function CommandName(data: IntentData, skillPath: string): string {
    data.name.GetOr(BaseName(DirName(skillPath)))
  }

  /** The description written: the one read from the skill's frontmatter, else the intent's
      purpose (even an empty one), else a sentence naming the skill. */
  function CommandDescription(extracted: string, data: IntentData, name: string): (r: string)
    ensures extracted != "" ==> r == extracted
    ensures extracted == "" && data.purpose.Some? ==> r == data.purpose.value
    ensures extracted == "" && data.purpose.None? ==> r == "Execute " + name + " workflow"
  {
    if extracted != "" then extracted else data.purpose.GetOr("Execute " + name + " workflow")
  }

  /** The frontmatter: a single `description:` line between the fences. */
  function CommandHeader(description: string): string {
    "---\ndescription: " + description + "\n---\n"
  }

  /** The rest of the opening f-string: the execution-mode instructions, the title and the purpose. */
  function CommandOpening(name: string, data: IntentData): string {
    "\n**Execution Mode**: Auto-Coder\n\n"
    + "When this command is invoked, you must:\n"
    + "1. Switch to Auto-Coder mode (if not already)\n"
    + "2. Load the skill context from `.claude/skills/" + name + "/SKILL.md`\n"
    + "3. Execute the workflow defined in the skill\n"
    + "4. Return to the original mode after completion\n\n"
    + "# /" + name + "\n\n"
    + data.purpose.GetOr("Execute the workflow for this skill") + "\n\n## Purpose\n\n"
  }

  /** A section that is present only for a non-empty list: its heading, one rendering per item in
      order, and a blank line. */
  function ListSection(heading: string, xs: seq<string>, f: string -> string): (r: string)
    ensures r == "" <==> xs == []
    ensures xs != [] ==> |r| > |heading| && r[..|heading|] == heading && r[|r| - 1] == '\n'
  {
    if xs != [] then heading + Each(xs, f) + "\n" else ""
  }

  const UseCasesHeading: string := "This command is useful when:\n"

  const ConceptsHeading: string := "## Key Concepts\n\n"

  const WorkflowHeading: string := "## Workflow\n\n"

  const DependenciesHeading: string := "## Dependencies\n\n"

  /** The words that make the usage line take arguments. */
  const ArgumentKeywords: seq<string> := ["argument", "parameter", "input", "specify"]

  /** One step's text, lowered, names one of the keywords. */
  predicate MentionsKeyword(step: string) {
    exists kw :: kw in ArgumentKeywords && Contains(Lower(step), kw)
  }

  /** The `any(...)` of the keyword rule: some step mentions some keyword. */
  function TakesArguments(steps: seq<string>): (r: bool)
    ensures r <==> exists i :: 0 <= i < |steps| && MentionsKeyword(steps[i])
  {
    if steps == [] then false
    else if MentionsKeyword(steps[0]) then true
    else
      var r := TakesArguments(steps[1..]);
      assert forall i :: 1 <= i < |steps| ==> steps[i] == steps[1..][i - 1];
      r
  }

  /** The line between the code fences of the usage section. */
  function UsageLine(name: string, steps: seq<string>): string {
    if TakesArguments(steps) then "/" + name + " <arguments>\n" else "/" + name + "\n"
  }

  const UsageOpen: string := "## Usage\n\n```\n"

  const UsageClose: string := "```\n\n"

  function UsageSection(name: string, steps: seq<string>): string {
    UsageOpen + UsageLine(name, steps) + UsageClose
  }

  /** What one workflow step renders as, numbered i. */
  function StepLine(i: nat, step: string): string {
    NatToString(i) + ". " + step + "\n"
  }

  /** The numbered steps, present only when there are steps. */
  function WorkflowSection(steps: seq<string>): (r: string)
    ensures r == "" <==> steps == []
  {
    if steps != [] then WorkflowHeading + Numbered(steps, 1, StepLine) + "\n" else ""
  }

  /** The closing f-string: where the skill lives and the purpose again. */
  function CommandClosing(name: string, data: IntentData): string {
    "## Related Documentation\n\n"
    + "For complete details, see the full skill documentation:\n"
    + "- [Skill Documentation](.claude/skills/" + name + "/SKILL.md)\n\n"
    + "## Quick Reference\n\n"
    + "**Command:** `/" + name + "`\n\n"
    + "**Skill Source:** `.claude/skills/" + name + "/SKILL.md`\n\n"
    + "**Purpose:** " + data.purpose.GetOr("Execute skill workflow") + "\n"
  }

  /** Everything after the frontmatter: the sections in the order they are appended. */
  function CommandBody(name: string, data: IntentData): string {
    CommandOpening(name, data)
    + ListSection(UseCasesHeading, data.useCases.GetOr([]), Bullet)
    + UsageSection(name, data.workflowSteps.GetOr([]))
    + ListSection(ConceptsHeading, data.keyConcepts.GetOr([]), BoldBullet)
    + WorkflowSection(data.workflowSteps.GetOr([]))
    + ListSection(DependenciesHeading, data.dependencies.GetOr([]), Bullet)
    + CommandClosing(name, data)
  }

  /** The whole command text. */
  function CommandDoc(name: string, description: string, data: IntentData): string {
    CommandHeader(description) + CommandBody(name, data)
  }

  /** The loops over use cases, concepts and dependencies: the heading, one rendering per item, and
      a blank line, when the list is non-empty. */
  method AppendList(commandMd: string, heading: string, xs: seq<string>, f: string -> string)
    returns (r: string)
    ensures r == commandMd + ListSection(heading, xs, f)
  {
    r := commandMd;
    if xs != [] {
      r := r + heading;
      for i := 0 to |xs|
        invariant r == commandMd + heading + Each(xs[..i], f)
      {
        assert xs[..i + 1] == xs[..i] + [xs[i]];
        EachSnoc(xs[..i], xs[i], f);
        Associative(commandMd + heading, Each(xs[..i], f), f(xs[i]));
        r := r + f(xs[i]);
      }
      assert xs[..|xs|] == xs;
      Associative(commandMd, heading, Each(xs, f));
      Associative(commandMd, heading + Each(xs, f), "\n");
      r := r + "\n";
    }
  }

  /** The usage section: the opening fence, the usage line the keyword rule picks, the closing fence. */
  method AppendUsage(commandMd: string, name: string, steps: seq<string>) returns (r: string)
    ensures r == commandMd + UsageSection(name, steps)
  {
    var line: string;
    if steps != [] && TakesArguments(steps) {
      line := "/" + name + " <arguments>\n";
    } else {
      line := "/" + name + "\n";
    }
    assert line == UsageLine(name, steps);
    r := commandMd + UsageOpen + line + UsageClose;
    Associative(commandMd, UsageOpen, line);
    Associative(commandMd, UsageOpen + line, UsageClose);
  }

  /** The loop over the steps enumerated from 1, when there are steps. */
  method AppendWorkflow(commandMd: string, steps: seq<string>) returns (r: string)
    ensures r == commandMd + WorkflowSection(steps)
  {
    r := commandMd;
    if steps != [] {
      r := r + WorkflowHeading;
      for i := 0 to |steps|
        invariant r == commandMd + WorkflowHeading + Numbered(steps[..i], 1, StepLine)
      {
        assert steps[..i + 1] == steps[..i] + [steps[i]];
        NumberedSnoc(steps[..i], steps[i], 1, StepLine);
        Associative(commandMd + WorkflowHeading, Numbered(steps[..i], 1, StepLine), StepLine(i + 1, steps[i]));
        r := r + StepLine(i + 1, steps[i]);
      }
      assert steps[..|steps|] == steps;
      Associative(commandMd, WorkflowHeading, Numbered(steps, 1, StepLine));
      Associative(commandMd, WorkflowHeading + Numbered(steps, 1, StepLine), "\n");
      r := r + "\n";
    }
  }

  /** The rendering part of `generate_command_from_skill`: the opening f-string, then each section
      appended in turn. */
  method RenderCommand(name: string, description: string, data: IntentData) returns (commandMd: string)
    ensures commandMd == CommandDoc(name, description, data)
  {
    commandMd := CommandHeader(description) + CommandOpening(name, data);
    commandMd := AppendList(commandMd, UseCasesHeading, data.useCases.GetOr([]), Bullet);
    commandMd := AppendUsage(commandMd, name, data.workflowSteps.GetOr([]));
    commandMd := AppendList(commandMd, ConceptsHeading, data.keyConcepts.GetOr([]), BoldBullet);
    commandMd := AppendWorkflow(commandMd, data.workflowSteps.GetOr([]));
    commandMd := AppendList(commandMd, DependenciesHeading, data.dependencies.GetOr([]), Bullet);
    commandMd := commandMd + CommandClosing(name, data);
    RegroupSeven(CommandHeader(description), CommandOpening(name, data),
      ListSection(UseCasesHeading, data.useCases.GetOr([]), Bullet),
      UsageSection(name, data.workflowSteps.GetOr([])),
      ListSection(ConceptsHeading, data.keyConcepts.GetOr([]), BoldBullet),
      WorkflowSection(data.workflowSteps.GetOr([])),
      ListSection(DependenciesHeading, data.dependencies.GetOr([]), Bullet),
      CommandClosing(name, data));
  }

  /** Appending seven parts one after the other to h is appending them joined. */
  lemma RegroupSeven(h: string, a0: string, a1: string, a2: string, a3: string, a4: string,
                     a5: string, a6: string)
    ensures h + a0 + a1 + a2 + a3 + a4 + a5 + a6 == h + (a0 + a1 + a2 + a3 + a4 + a5 + a6)
  {
    Associative(h, a0, a1);
    Associative(h, a0 + a1, a2);
    Associative(h, a0 + a1 + a2, a3);
    Associative(h, a0 + a1 + a2 + a3, a4);
    Associative(h, a0 + a1 + a2 + a3 + a4, a5);
    Associative(h, a0 + a1 + a2 + a3 + a4 + a5, a6);
  }

  /** What one of the second to sixth of seven parts contains, the parts appended in turn contain. */
  lemma InSeven(a0: string, a1: string, a2: string, a3: string, a4: string, a5: string, a6: string,
                pat: string)
    requires Contains(a1, pat) || Contains(a2, pat) || Contains(a3, pat) || Contains(a4, pat)
          || Contains(a5, pat)
    ensures Contains(a0 + a1 + a2 + a3 + a4 + a5 + a6, pat)
  {
    var b1 := a0 + a1;
    var b2 := b1 + a2;
    var b3 := b2 + a3;
    var b4 := b3 + a4;
    if Contains(a1, pat) { ContainsRight(a0, a1, pat); }
    if Contains(b1, pat) { ContainsLeft(b1, a2, pat); } else if Contains(a2, pat) { ContainsRight(b1, a2, pat); }
    if Contains(b2, pat) { ContainsLeft(b2, a3, pat); } else if Contains(a3, pat) { ContainsRight(b2, a3, pat); }
    if Contains(b3, pat) { ContainsLeft(b3, a4, pat); } else if Contains(a4, pat) { ContainsRight(b3, a4, pat); }
    if Contains(b4, pat) { ContainsLeft(b4, a5, pat); } else { ContainsRight(b4, a5, pat); }
    ContainsLeft(b4 + a5, a6, pat);
  }

  /** What the file `generate_command_from_skill` writes gives: whether the write completed. Named
      as a function, like the skill generator's outcome, so that contracts about whole documents
      refer to it as one term. */
  function CommandWriteOutcome(outputPath: string, commandMd: string, disk: Disk): Try<bool> {
    Ok(disk.write(outputPath, commandMd).Done?)
  }

  /** The writing part: a failed write gives false, a completed one true. */
  method WriteCommand(outputPath: string, commandMd: string, disk: Disk) returns (outcome: Try<bool>)
    ensures outcome == CommandWriteOutcome(outputPath, commandMd, disk)
    ensures outcome.Ok? && (outcome.value <==> disk.write(outputPath, commandMd).Done?)
  {
    var written := disk.write(outputPath, commandMd);
    outcome := Ok(written.Done?);
  }

  /** `generate_command_from_skill`. A failed read of the skill file raises out of the function;
      otherwise the rendered text is handed to the write, whose failure gives false. */
  method GenerateCommandFromSkill(skillPath: string, data: IntentData, outputPath: string, disk: Disk)
    returns (outcome: Try<bool>)
    ensures disk.read(skillPath).Raised? ==> outcome == Raised(disk.read(skillPath).message)
    ensures disk.read(skillPath).Ok? ==>
      var name := CommandName(data, skillPath);
      outcome == CommandWriteOutcome(outputPath,
        CommandDoc(name, CommandDescription(ExtractDescription(disk.read(skillPath).value), data, name), data),
        disk)
  {
    var name := CommandName(data, skillPath);
    var read := disk.read(skillPath);
    if read.Raised? {
      return Raised(read.message);
    }
    var description := CommandDescription(ExtractDescription(read.value), data, name);
    var commandMd := RenderCommand(name, description, data);
    outcome := WriteCommand(outputPath, commandMd, disk);
  }

  /** The usage line takes arguments exactly when some step mentions a keyword. */
  lemma UsageLineIff(name: string, steps: seq<string>)
    ensures UsageLine(name, steps) == "/" + name + " <arguments>\n"
        <==> exists i :: 0 <= i < |steps| && MentionsKeyword(steps[i])
    ensures UsageLine(name, steps) == "/" + name + "\n"
        <==> !exists i :: 0 <= i < |steps| && MentionsKeyword(steps[i])
  {
    assert |"/" + name + " <arguments>\n"| != |"/" + name + "\n"|;
  }

  /** Whatever follows the frontmatter, the file opens with it as the validation phase checks. */
  lemma HeaderOpens(description: string, rest: string)
    ensures OpensFrontmatter(CommandHeader(description) + rest)
  {
    var c := CommandHeader(description) + rest;
    assert c[..3] == "---" && c[3] == '\n';
  }

  /** Every generated command file passes the frontmatter check. */
  lemma CommandDocOpens(name: string, description: string, data: IntentData)
    ensures OpensFrontmatter(CommandDoc(name, description, data))
  {
    HeaderOpens(description, CommandBody(name, data));
  }

  /** The block of a file that starts with the header of a single-line description is its one
      `description:` line, whatever follows. */
  lemma HeaderBlock(description: string, rest: string)
    requires '\n' !in description
    ensures Block(CommandHeader(description) + rest) == Some("description: " + description)
  {
    var c := CommandHeader(description) + rest;
    var x := "description: " + description;
    forall k | 0 <= k && k + 4 <= |x|
      ensures !OccursAt(x, "\n---", k)
    {
      assert x[k..k + 4][0] == x[k];
      if k >= 13 {
        assert x[k] == description[k - 13];
      }
    }
    assert c[..|x| + 8] == "---\n" + x + "\n---";
    BlockOfDocument(c, x);
  }

  /** The description read back from a file that starts with the header is the one written, when it
      is a non-empty, stripped single line. */
  lemma HeaderDescription(description: string, rest: string)
    requires description != [] && IsStripped(description) && '\n' !in description
    ensures ExtractDescription(CommandHeader(description) + rest) == description
  {
    HeaderBlock(description, rest);
    assert "description: " + description == "" + "description: " + description + "";
    DescriptionOfLine("", description, "");
  }

  /** An empty description reads back as empty: nothing but whitespace follows the key. */
  lemma HeaderEmptyDescription(rest: string)
    ensures ExtractDescription(CommandHeader("") + rest) == ""
  {
    HeaderBlock("", rest);
    var fm := "description: ";
    assert OccursAt(fm, "description:", 0);
    IndexOfIs(fm, "description:", 0, 0);
    assert SpaceEnd(fm, 12) == 13;
  }

  /** The description a later run reads back from a generated command file is the one written. */
  lemma CommandDocDescription(name: string, description: string, data: IntentData)
    requires description != [] && IsStripped(description) && '\n' !in description
    ensures ExtractDescription(CommandDoc(name, description, data)) == description
  {
    HeaderDescription(description, CommandBody(name, data));
  }

  /** A command written with an empty description reads back with none. */
  lemma CommandDocEmptyDescription(name: string, data: IntentData)
    ensures ExtractDescription(CommandDoc(name, "", data)) == ""
  {
    HeaderEmptyDescription(CommandBody(name, data));
  }

  /** What the use-case, usage, concept, workflow or dependency section contains, the body contains. */
  lemma InCommandBody(name: string, data: IntentData, pat: string)
    requires || Contains(ListSection(UseCasesHeading, data.useCases.GetOr([]), Bullet), pat)
             || Contains(UsageSection(name, data.workflowSteps.GetOr([])), pat)
             || Contains(ListSection(ConceptsHeading, data.keyConcepts.GetOr([]), BoldBullet), pat)
             || Contains(WorkflowSection(data.workflowSteps.GetOr([])), pat)
             || Contains(ListSection(DependenciesHeading, data.dependencies.GetOr([]), Bullet), pat)
    ensures Contains(CommandBody(name, data), pat)
  {
    InSeven(CommandOpening(name, data),
      ListSection(UseCasesHeading, data.useCases.GetOr([]), Bullet),
      UsageSection(name, data.workflowSteps.GetOr([])),
      ListSection(ConceptsHeading, data.keyConcepts.GetOr([]), BoldBullet),
      WorkflowSection(data.workflowSteps.GetOr([])),
      ListSection(DependenciesHeading, data.dependencies.GetOr([]), Bullet),
      CommandClosing(name, data), pat);
  }

  /** The same, for the whole document. */
  lemma InCommandDoc(name: string, description: string, data: IntentData, pat: string)
    requires || Contains(ListSection(UseCasesHeading, data.useCases.GetOr([]), Bullet), pat)
             || Contains(UsageSection(name, data.workflowSteps.GetOr([])), pat)
             || Contains(ListSection(ConceptsHeading, data.keyConcepts.GetOr([]), BoldBullet), pat)
             || Contains(WorkflowSection(data.workflowSteps.GetOr([])), pat)
             || Contains(ListSection(DependenciesHeading, data.dependencies.GetOr([]), Bullet), pat)
    ensures Contains(CommandDoc(name, description, data), pat)
  {
    InCommandBody(name, data, pat);
    ContainsRight(CommandHeader(description), CommandBody(name, data), pat);
  }

  /** Item k of a list section's list is rendered in it, after the heading and the items before it. */
  lemma ItemOccurs(heading: string, xs: seq<string>, f: string -> string, k: nat)
    requires k < |xs|
    ensures OccursAt(ListSection(heading, xs, f), f(xs[k]), |heading| + |Each(xs[..k], f)|)
    ensures Contains(ListSection(heading, xs, f), f(xs[k]))
  {
    var before := heading + Each(xs[..k], f);
    var after := Each(xs[k + 1..], f) + "\n";
    EachAt(xs, k, f);
    Associative(heading, Each(xs[..k], f) + f(xs[k]), Each(xs[k + 1..], f));
    Associative(heading, Each(xs[..k], f), f(xs[k]));
    Associative(before, f(xs[k]), Each(xs[k + 1..], f));
    Associative(before, f(xs[k]) + Each(xs[k + 1..], f), "\n");
    Associative(f(xs[k]), Each(xs[k + 1..], f), "\n");
    OccursInRight(before, f(xs[k]) + after, f(xs[k]), 0);
  }

  /** Step k (from 0) is rendered as the line numbered k + 1 in the workflow section, after the
      heading and the lines of the steps before it. */
  lemma StepOccurs(steps: seq<string>, k: nat)
    requires k < |steps|
    ensures OccursAt(WorkflowSection(steps), StepLine(k + 1, steps[k]),
                     |WorkflowHeading| + |Numbered(steps[..k], 1, StepLine)|)
    ensures Contains(WorkflowSection(steps), StepLine(k + 1, steps[k]))
  {
    var line := StepLine(k + 1, steps[k]);
    var prior := Numbered(steps[..k], 1, StepLine);
    var rest := Numbered(steps[k + 1..], k + 2, StepLine);
    var before := WorkflowHeading + prior;
    NumberedAt(steps, k, 1, StepLine);
    Associative(WorkflowHeading, prior + line, rest);
    Associative(WorkflowHeading, prior, line);
    Associative(before, line, rest);
    Associative(before, line + rest, "\n");
    Associative(line, rest, "\n");
    OccursInRight(before, line + (rest + "\n"), line, 0);
  }

  /** The usage line is in the usage section. */
  lemma UsageOccurs(name: string, steps: seq<string>)
    ensures Contains(UsageSection(name, steps), UsageLine(name, steps))
  {
    OccursInRight(UsageOpen, UsageLine(name, steps), UsageLine(name, steps), 0);
    OccursInLeft(UsageOpen + UsageLine(name, steps), UsageClose, UsageLine(name, steps), |UsageOpen|);
  }

  /** Each use case shows up in the generated command as a bullet. */
  lemma UseCasesInCommandDoc(name: string, description: string, data: IntentData)
    ensures forall k :: 0 <= k < |data.useCases.GetOr([])| ==>
      Contains(CommandDoc(name, description, data), Bullet(data.useCases.GetOr([])[k]))
  {
    var useCases := data.useCases.GetOr([]);
    forall k | 0 <= k < |useCases|
      ensures Contains(CommandDoc(name, description, data), Bullet(useCases[k]))
    {
      ItemOccurs(UseCasesHeading, useCases, Bullet, k);
      InCommandDoc(name, description, data, Bullet(useCases[k]));
    }
  }

  /** Each key concept shows up in the generated command as a bold bullet. */
  lemma ConceptsInCommandDoc(name: string, description: string, data: IntentData)
    ensures forall k :: 0 <= k < |data.keyConcepts.GetOr([])| ==>
      Contains(CommandDoc(name, description, data), BoldBullet(data.keyConcepts.GetOr([])[k]))
  {
    var concepts := data.keyConcepts.GetOr([]);
    forall k | 0 <= k < |concepts|
      ensures Contains(CommandDoc(name, description, data), BoldBullet(concepts[k]))
    {
      ItemOccurs(ConceptsHeading, concepts, BoldBullet, k);
      InCommandDoc(name, description, data, BoldBullet(concepts[k]));
    }
  }

  /** Each dependency shows up in the generated command as a bullet. */
  lemma DependenciesInCommandDoc(name: string, description: string, data: IntentData)
    ensures forall k :: 0 <= k < |data.dependencies.GetOr([])| ==>
      Contains(CommandDoc(name, description, data), Bullet(data.dependencies.GetOr([])[k]))
  {
    var dependencies := data.dependencies.GetOr([]);
    forall k | 0 <= k < |dependencies|
      ensures Contains(CommandDoc(name, description, data), Bullet(dependencies[k]))
    {
      ItemOccurs(DependenciesHeading, dependencies, Bullet, k);
      InCommandDoc(name, description, data, Bullet(dependencies[k]));
    }
  }

  /** Each workflow step k (from 0) shows up in the generated command as the line numbered k + 1. */
  lemma StepsInCommandDoc(name: string, description: string, data: IntentData)
    ensures forall k :: 0 <= k < |data.workflowSteps.GetOr([])| ==>
      Contains(CommandDoc(name, description, data), StepLine(k + 1, data.workflowSteps.GetOr([])[k]))
  {
    var steps := data.workflowSteps.GetOr([]);
    forall k | 0 <= k < |steps|
      ensures Contains(CommandDoc(name, description, data), StepLine(k + 1, steps[k]))
    {
      StepOccurs(steps, k);
      InCommandDoc(name, description, data, StepLine(k + 1, steps[k]));
    }
  }

  /** The usage line the keyword rule picks shows up in the generated command. */
  lemma UsageInCommandDoc(name: string, description: string, data: IntentData)
    ensures Contains(CommandDoc(name, description, data), UsageLine(name, data.workflowSteps.GetOr([])))
  {
    UsageOccurs(name, data.workflowSteps.GetOr([]));
    InCommandDoc(name, description, data, UsageLine(name, data.workflowSteps.GetOr([])));
  }
}
