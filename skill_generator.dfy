/** `generate_skill_from_command`: the SKILL.md text rendered from a command file and its intent,
    written to `<output_dir>/<name>/SKILL.md`. */
module SkillGenerator {
  import opened Common
  import opened Text
  import opened Paths
  import opened Frontmatter
  import opened Intents
  import opened Markdown

  /** The skill's name: the intent's, else the stem of the command file. */
  function SkillName(data: IntentData, commandPath: string): string {
    data.name.GetOr(Stem(BaseName(commandPath)))
  }

  /** The description written: the one read from the command's frontmatter, else the intent's
      purpose (even an empty one), else a sentence naming the command. */
  function SkillDescription(extracted: string, data: IntentData, name: string): (r: string)
    ensures extracted != "" ==> r == extracted
    ensures extracted == "" && data.purpose.Some? ==> r == data.purpose.value
    ensures extracted == "" && data.purpose.None? ==> r == "Skill for /" + name + " command"
  {
    if extracted != "" then extracted else data.purpose.GetOr("Skill for /" + name + " command")
  }

  /** The lines between the two "---" fences. */
  function SkillFrontmatter(name: string, description: string): string {
    "name: " + name + "\n" + "description: " + description + "\nlicense: MIT"
  }

  function SkillHeader(name: string, description: string): string {
    "---\n" + SkillFrontmatter(name, description) + "\n---\n"
  }

  /** The rest of the opening f-string: title, overview and the use-case lead-in. */
  function SkillOverview(name: string, data: IntentData): string {
    "\n# " + Title(ReplaceChar(name, '-', ' ')) + " Skill\n\n## Overview\n\n"
    + data.purpose.GetOr("This skill provides capabilities for the corresponding slash command.")
    + "\n\n**When to use this skill:**\n"
  }

  function DefaultUseCase(name: string): string {
    "- When you need to execute the `/" + name + "` workflow\n"
  }

  /** One bullet per use case, or the default bullet when there is none. */
  function UseCaseSection(name: string, useCases: seq<string>): string {
    if useCases != [] then Each(useCases, Bullet) else DefaultUseCase(name)
  }

  const ProcessHeading: string := "\n---\n\n# Process\n\n"

  const WorkflowHeading: string := "## High-Level Workflow\n\n"

  const DefaultWorkflow: string := Lines(DefaultWorkflowLines)

  const DefaultWorkflowLines: seq<string> := [
    "## High-Level Workflow", "",
    "### Step 1: Preparation", "", "Gather necessary inputs and context.", "",
    "### Step 2: Execution", "", "Execute the main workflow.", "",
    "### Step 3: Validation", "", "Verify results and provide feedback.", ""]

  function StepHeading(i: nat, step: string): string {
    "### Step " + NatToString(i) + ": " + step + "\n\n"
  }

  function StepDetail(step: string): string {
    "Execute: " + step + "\n\n"
  }

  /** What one workflow step renders as, numbered i. */
  function StepBlock(i: nat, step: string): string {
    StepHeading(i, step) + StepDetail(step)
  }

  /** The steps numbered from 1, or the three fixed steps when there is none. */
  function WorkflowSection(steps: seq<string>): string {
    if steps != [] then WorkflowHeading + Numbered(steps, 1, StepBlock) else DefaultWorkflow
  }

  function ConceptHeading(concept: string): string {
    "### " + concept + "\n\n"
  }

  function ConceptDetail(concept: string): string {
    concept + " is an important aspect of this workflow.\n\n"
  }

  function ConceptBlock(concept: string): string {
    ConceptHeading(concept) + ConceptDetail(concept)
  }

  const ConceptsHeading: string := "## Key Concepts\n\n"

  /** The "Key Concepts" section, present only when there are concepts. */
  function ConceptSection(concepts: seq<string>): (r: string)
    ensures r == "" <==> concepts == []
    ensures concepts != [] ==> |r| >= |ConceptsHeading| && r[..|ConceptsHeading|] == ConceptsHeading
  {
    if concepts != [] then ConceptsHeading + Each(concepts, ConceptBlock) else ""
  }

  const DependenciesHeading: string := "## Dependencies\n\n"

  /** The "Dependencies" section, present only when there are dependencies. */
  function DependencySection(dependencies: seq<string>): (r: string)
    ensures r == "" <==> dependencies == []
    ensures dependencies != [] ==> |r| >= |DependenciesHeading| && r[..|DependenciesHeading|] == DependenciesHeading
  {
    if dependencies != [] then DependenciesHeading + Each(dependencies, BoldBullet) + "\n" else ""
  }

  const BestPractices: string := Lines(BestPracticesLines)

  const BestPracticesLines: seq<string> := [
    "## Best Practices", "",
    "### Do's",
    "- Follow the workflow steps in order",
    "- Validate inputs before processing",
    "- Provide clear feedback on results", "",
    "### Don'ts",
    "- Skip validation steps",
    "- Ignore error conditions",
    "- Assume implicit context", ""]

  const Troubleshooting: string := Lines(TroubleshootingLines)

  const TroubleshootingLines: seq<string> := [
    "## Troubleshooting", "",
    "### Common Issues", "",
    "**Issue: Workflow fails to execute**",
    "- Verify all dependencies are available",
    "- Check input parameters are valid",
    "- Review error messages for specific guidance", "",
    "**Issue: Unexpected results**",
    "- Validate input data format",
    "- Check for conflicting configurations",
    "- Review workflow logs for details", ""]

  const SuccessCriteria: string := Lines(SuccessCriteriaLines)

  const SuccessCriteriaLines: seq<string> := [
    "## Success Criteria", "",
    "You've successfully used this skill when:", "",
    "- [ ] All workflow steps completed without errors",
    "- [ ] Results meet expected quality standards",
    "- [ ] Validation checks pass",
    "- [ ] Output is properly formatted and actionable", "",
    "---", ""]

  /** The closing section, which points back at the command. */
  function RelatedResources(name: string): string {
    Lines([
      "## Related Resources", "",
      "### Slash Command", "",
      "This skill corresponds to the `/" + name + "` slash command.", "",
      "**Command Documentation:** [.claude/commands/" + name + ".md](.claude/commands/" + name + ".md)", "",
      "### Additional Documentation", "",
      "For more information, consult:",
      "- Skill source: `.claude/skills/" + name + "/SKILL.md`",
      "- Command source: `.claude/commands/" + name + ".md`", "",
      "---", ""])
    + SuccessCriteria
    + Lines([
      "**Note:** This skill was auto-generated from the `/" + name + "` command using Thoughtbox reasoning.",
      "Review and refine as needed for your specific use case."])
  }

  /** Everything after the frontmatter: the sections in the order they are appended. */
  function SkillBody(name: string, data: IntentData): string {
    SkillOverview(name, data)
    + UseCaseSection(name, data.useCases.GetOr([]))
    + ProcessHeading
    + WorkflowSection(data.workflowSteps.GetOr([]))
    + ConceptSection(data.keyConcepts.GetOr([]))
    + DependencySection(data.dependencies.GetOr([]))
    + BestPractices
    + Troubleshooting
    + RelatedResources(name)
  }

  /** The whole SKILL.md text. */
  function SkillDoc(name: string, description: string, data: IntentData): string {
    SkillHeader(name, description) + SkillBody(name, data)
  }

  /** The use-case loop: one bullet per use case, or the default bullet. */
  method AppendUseCases(skillMd: string, name: string, useCases: seq<string>) returns (r: string)
    ensures r == skillMd + UseCaseSection(name, useCases)
  {
    r := skillMd;
    if useCases != [] {
      for i := 0 to |useCases|
        invariant r == skillMd + Each(useCases[..i], Bullet)
      {
        assert useCases[..i + 1] == useCases[..i] + [useCases[i]];
        EachSnoc(useCases[..i], useCases[i], Bullet);
        r := r + Bullet(useCases[i]);
      }
      assert useCases[..|useCases|] == useCases;
    } else {
      r := r + DefaultUseCase(name);
    }
  }

  /** The workflow loop over the steps enumerated from 1, or the fixed workflow. */
  method AppendWorkflow(skillMd: string, steps: seq<string>) returns (r: string)
    ensures r == skillMd + WorkflowSection(steps)
  {
    r := skillMd;
    if steps != [] {
      r := r + WorkflowHeading;
      for i := 0 to |steps|
        invariant r == skillMd + WorkflowHeading + Numbered(steps[..i], 1, StepBlock)
      {
        assert steps[..i + 1] == steps[..i] + [steps[i]];
        NumberedSnoc(steps[..i], steps[i], 1, StepBlock);
        Associative(skillMd + WorkflowHeading, Numbered(steps[..i], 1, StepBlock), StepBlock(i + 1, steps[i]));
        Associative(r, StepHeading(i + 1, steps[i]), StepDetail(steps[i]));
        r := r + StepHeading(i + 1, steps[i]);
        r := r + StepDetail(steps[i]);
      }
      assert steps[..|steps|] == steps;
      Associative(skillMd, WorkflowHeading, Numbered(steps, 1, StepBlock));
    } else {
      r := r + DefaultWorkflow;
    }
  }

  /** The concept loop, when there are concepts. */
  method AppendConcepts(skillMd: string, concepts: seq<string>) returns (r: string)
    ensures r == skillMd + ConceptSection(concepts)
  {
    r := skillMd;
    if concepts != [] {
      r := r + ConceptsHeading;
      for i := 0 to |concepts|
        invariant r == skillMd + ConceptsHeading + Each(concepts[..i], ConceptBlock)
      {
        assert concepts[..i + 1] == concepts[..i] + [concepts[i]];
        EachSnoc(concepts[..i], concepts[i], ConceptBlock);
        Associative(skillMd + ConceptsHeading, Each(concepts[..i], ConceptBlock), ConceptBlock(concepts[i]));
        Associative(r, ConceptHeading(concepts[i]), ConceptDetail(concepts[i]));
        r := r + ConceptHeading(concepts[i]);
        r := r + ConceptDetail(concepts[i]);
      }
      assert concepts[..|concepts|] == concepts;
      Associative(skillMd, ConceptsHeading, Each(concepts, ConceptBlock));
    }
  }

  /** The dependency loop, when there are dependencies. */
  method AppendDependencies(skillMd: string, dependencies: seq<string>) returns (r: string)
    ensures r == skillMd + DependencySection(dependencies)
  {
    r := skillMd;
    if dependencies != [] {
      r := r + DependenciesHeading;
      for i := 0 to |dependencies|
        invariant r == skillMd + DependenciesHeading + Each(dependencies[..i], BoldBullet)
      {
        assert dependencies[..i + 1] == dependencies[..i] + [dependencies[i]];
        EachSnoc(dependencies[..i], dependencies[i], BoldBullet);
        Associative(skillMd + DependenciesHeading, Each(dependencies[..i], BoldBullet), BoldBullet(dependencies[i]));
        r := r + BoldBullet(dependencies[i]);
      }
      assert dependencies[..|dependencies|] == dependencies;
      Associative(skillMd, DependenciesHeading, Each(dependencies, BoldBullet));
      Associative(skillMd, DependenciesHeading + Each(dependencies, BoldBullet), "\n");
      r := r + "\n";
    }
  }

  /** The rendering part of `generate_skill_from_command`: the opening f-string, then each section
      appended in turn. */
  method RenderSkill(name: string, description: string, data: IntentData) returns (skillMd: string)
    ensures skillMd == SkillDoc(name, description, data)
  {
    skillMd := SkillHeader(name, description) + SkillOverview(name, data);
    skillMd := AppendUseCases(skillMd, name, data.useCases.GetOr([]));
    skillMd := skillMd + ProcessHeading;
    skillMd := AppendWorkflow(skillMd, data.workflowSteps.GetOr([]));
    skillMd := AppendConcepts(skillMd, data.keyConcepts.GetOr([]));
    skillMd := AppendDependencies(skillMd, data.dependencies.GetOr([]));
    skillMd := skillMd + BestPractices;
    skillMd := skillMd + Troubleshooting;
    skillMd := skillMd + RelatedResources(name);
    Regroup(SkillHeader(name, description), SkillOverview(name, data),
      UseCaseSection(name, data.useCases.GetOr([])), ProcessHeading,
      WorkflowSection(data.workflowSteps.GetOr([])), ConceptSection(data.keyConcepts.GetOr([])),
      DependencySection(data.dependencies.GetOr([])), BestPractices, Troubleshooting,
      RelatedResources(name));
  }

  /** Appending nine parts one after the other to h is appending their concatenation. */
  lemma Regroup(h: string, a0: string, a1: string, a2: string, a3: string, a4: string, a5: string,
                a6: string, a7: string, a8: string)
    ensures h + a0 + a1 + a2 + a3 + a4 + a5 + a6 + a7 + a8
         == h + (a0 + a1 + a2 + a3 + a4 + a5 + a6 + a7 + a8)
  {
    var b := a0 + a1 + a2 + a3 + a4 + a5 + a6 + a7;
    Associative(h, a0, a1);
    Associative(h, a0 + a1, a2);
    Associative(h, a0 + a1 + a2, a3);
    Associative(h, a0 + a1 + a2 + a3, a4);
    Associative(h, a0 + a1 + a2 + a3 + a4, a5);
    Associative(h, a0 + a1 + a2 + a3 + a4 + a5, a6);
    Associative(h, a0 + a1 + a2 + a3 + a4 + a5 + a6, a7);
    Associative(h, b, a8);
  }

  /** What one of nine parts contains, the parts appended in turn contain. */
  lemma InNine(a0: string, a1: string, a2: string, a3: string, a4: string, a5: string,
               a6: string, a7: string, a8: string, pat: string)
    requires Contains(a0, pat) || Contains(a1, pat) || Contains(a2, pat) || Contains(a3, pat)
          || Contains(a4, pat) || Contains(a5, pat) || Contains(a6, pat) || Contains(a7, pat)
          || Contains(a8, pat)
    ensures Contains(a0 + a1 + a2 + a3 + a4 + a5 + a6 + a7 + a8, pat)
  {
    var b1 := a0 + a1;
    var b2 := b1 + a2;
    var b3 := b2 + a3;
    var b4 := b3 + a4;
    var b5 := b4 + a5;
    var b6 := b5 + a6;
    var b7 := b6 + a7;
    if Contains(a0, pat) { ContainsLeft(a0, a1, pat); } else if Contains(a1, pat) { ContainsRight(a0, a1, pat); }
    if Contains(b1, pat) { ContainsLeft(b1, a2, pat); } else if Contains(a2, pat) { ContainsRight(b1, a2, pat); }
    if Contains(b2, pat) { ContainsLeft(b2, a3, pat); } else if Contains(a3, pat) { ContainsRight(b2, a3, pat); }
    if Contains(b3, pat) { ContainsLeft(b3, a4, pat); } else if Contains(a4, pat) { ContainsRight(b3, a4, pat); }
    if Contains(b4, pat) { ContainsLeft(b4, a5, pat); } else if Contains(a5, pat) { ContainsRight(b4, a5, pat); }
    if Contains(b5, pat) { ContainsLeft(b5, a6, pat); } else if Contains(a6, pat) { ContainsRight(b5, a6, pat); }
    if Contains(b6, pat) { ContainsLeft(b6, a7, pat); } else if Contains(a7, pat) { ContainsRight(b6, a7, pat); }
    if Contains(b7, pat) { ContainsLeft(b7, a8, pat); } else { ContainsRight(b7, a8, pat); }
  }

  /** What the writing part of `generate_skill_from_command` gives: the exception of a failed
      mkdir of the skill's directory, otherwise whether SKILL.md was written. The case split lives
      in this function so that contracts about whole documents name the outcome as one term; a
      case split over a document-sized write makes those proofs far more expensive. */
  function WriteOutcome(dir: string, skillMd: string, disk: Disk): Try<bool> {
    match disk.makeDir(dir)
    case Failed(message) => Raised(message)
    case Done => Ok(disk.write(Join(dir, "SKILL.md"), skillMd).Done?)
  }

  /** The writing part of `generate_skill_from_command`: create the skill's directory, then write
      SKILL.md. */
  method WriteSkill(dir: string, skillMd: string, disk: Disk) returns (outcome: Try<bool>)
    ensures outcome == WriteOutcome(dir, skillMd, disk)
    ensures outcome.Raised? <==> disk.makeDir(dir).Failed?
    ensures outcome == Ok(true) ==> disk.write(Join(dir, "SKILL.md"), skillMd).Done?
  {
    var made := disk.makeDir(dir);
    if made.Failed? {
      return Raised(made.message);
    }
    var written := disk.write(Join(dir, "SKILL.md"), skillMd);
    outcome := Ok(written.Done?);
  }

  /** `generate_skill_from_command`. A failed read of the command file raises out of the function;
      otherwise it renders skillMd and hands it to the writing part. */
  method GenerateSkillFromCommand(commandPath: string, data: IntentData, outputDir: string, disk: Disk)
    returns (outcome: Try<bool>)
    ensures disk.read(commandPath).Raised? ==> outcome == Raised(disk.read(commandPath).message)
    ensures disk.read(commandPath).Ok? ==>
      var name := SkillName(data, commandPath);
      outcome == WriteOutcome(Join(outputDir, name),
        SkillDoc(name, SkillDescription(ExtractDescription(disk.read(commandPath).value), data, name), data), disk)
  {
    var name := SkillName(data, commandPath);
    var read := disk.read(commandPath);
    if read.Raised? {
      return Raised(read.message);
    }
    var description := SkillDescription(ExtractDescription(read.value), data, name);
    var skillMd := RenderSkill(name, description, data);
    outcome := WriteSkill(Join(outputDir, name), skillMd, disk);
  }

  /** Whatever follows the frontmatter, the file opens with it as the validation phase checks. */
  lemma HeaderOpens(name: string, description: string, rest: string)
    ensures OpensFrontmatter(SkillHeader(name, description) + rest)
  {
    var c := SkillHeader(name, description) + rest;
    assert c[..3] == "---" && c[3] == '\n';
  }

  /** Every generated SKILL.md passes the frontmatter check of the validation phase. */
  lemma SkillDocOpens(name: string, description: string, data: IntentData)
    ensures OpensFrontmatter(SkillDoc(name, description, data))
  {
    HeaderOpens(name, description, SkillBody(name, data));
  }

  /** ':' occurs in "name: " + n + "\n" only at index 4 when n holds none, so the key
      "description:" does not occur in it: a single-line name without ':' is key-free. */
  lemma NameLineHasNoKey(name: string)
    requires '\n' !in name && ':' !in name
    ensures KeyFreeName(name)
  {
    var y := "name: " + name + "\n";
    forall k | 0 <= k && k + 12 <= |y|
      ensures !OccursAt(y, "description:", k)
    {
      assert y[k..k + 12][11] == y[k + 11];
      if k + 11 < 6 + |name| {
        assert y[k + 11] == name[k + 5];
      }
    }
  }

  /** The name line of a SKILL.md cannot be taken for the `description:` key. A description round
      trip also excludes names holding '\r', which a text-mode read turns into a line break. */
  predicate KeyFreeName(name: string) {
    '\n' !in name && !Contains("name: " + name + "\n", "description:")
  }

  /** The frontmatter of a generated SKILL.md holds no "\n---" when name and description are
      single lines. */
  lemma FrontmatterHasNoFence(name: string, description: string)
    requires '\n' !in name && '\n' !in description
    ensures !Contains(SkillFrontmatter(name, description), "\n---")
  {
    var x := SkillFrontmatter(name, description);
    assert x == "name: " + name + "\ndescription: " + description + "\nlicense: MIT";
    var i := 6 + |name|;
    var j := i + 14 + |description|;
    forall k | 0 <= k && k + 4 <= |x|
      ensures !OccursAt(x, "\n---", k)
    {
      assert x[k..k + 4][0] == x[k] && x[k..k + 4][1] == x[k + 1];
      if 6 <= k < i {
        assert x[k] == name[k - 6];
      } else if i + 14 <= k < j {
        assert x[k] == description[k - i - 14];
      } else if k == i {
        assert x[k + 1] == 'd';
      } else if k == j {
        assert x[k + 1] == 'l';
      }
    }
  }

  /** The block of a file that starts with the header of a single-line name and description is the
      frontmatter, whatever follows it. */
  lemma HeaderBlock(name: string, description: string, rest: string)
    requires '\n' !in name && '\n' !in description
    ensures Block(SkillHeader(name, description) + rest) == Some(SkillFrontmatter(name, description))
  {
    var c := SkillHeader(name, description) + rest;
    var x := SkillFrontmatter(name, description);
    FrontmatterHasNoFence(name, description);
    assert c[..|x| + 8] == "---\n" + x + "\n---";
    BlockOfDocument(c, x);
  }

  /** The description read back from a file that starts with the header is the one written, when it
      is a non-empty, stripped single line and the name line holds no key. */
  lemma HeaderDescription(name: string, description: string, rest: string)
    requires description != [] && IsStripped(description) && '\n' !in description
    requires KeyFreeName(name)
    ensures ExtractDescription(SkillHeader(name, description) + rest) == description
  {
    HeaderBlock(name, description, rest);
    DescriptionOfLine("name: " + name + "\n", description, "\nlicense: MIT");
  }

  /** With an empty description, the `\s*` after "description:" runs over the end of its line, so
      the description read from the frontmatter is the license line. */
  lemma EmptyDescriptionValue(name: string)
    requires !Contains("name: " + name + "\n", "description:")
    ensures DescriptionValue(SkillFrontmatter(name, "")) == "license: MIT"
  {
    var y := "name: " + name + "\n";
    assert SkillFrontmatter(name, "") == y + "description: \n" + "license: MIT";
    DescriptionOfEmptyLine(y, "license: MIT");
  }

  /** The same, read from a whole file that starts with the header. */
  lemma HeaderEmptyDescription(name: string, rest: string)
    requires KeyFreeName(name)
    ensures ExtractDescription(SkillHeader(name, "") + rest) == "license: MIT"
  {
    HeaderBlock(name, "", rest);
    EmptyDescriptionValue(name);
  }

  /** The round trip a later run makes: the command generator reads back, from a generated
      SKILL.md, exactly the description written into it. */
  lemma SkillDocDescription(name: string, description: string, data: IntentData)
    requires description != [] && IsStripped(description) && '\n' !in description
    requires KeyFreeName(name)
    ensures ExtractDescription(SkillDoc(name, description, data)) == description
  {
    HeaderDescription(name, description, SkillBody(name, data));
  }

  /** A skill written with an empty description (an intent whose purpose is "") reads back with
      the license line as its description. */
  lemma EmptyDescriptionReadsLicense(name: string, data: IntentData)
    requires KeyFreeName(name)
    ensures ExtractDescription(SkillDoc(name, "", data)) == "license: MIT"
  {
    HeaderEmptyDescription(name, SkillBody(name, data));
  }

  /** What one of the list sections contains, the body contains. */
  lemma InSkillBody(name: string, data: IntentData, pat: string)
    requires || Contains(UseCaseSection(name, data.useCases.GetOr([])), pat)
             || Contains(WorkflowSection(data.workflowSteps.GetOr([])), pat)
             || Contains(ConceptSection(data.keyConcepts.GetOr([])), pat)
             || Contains(DependencySection(data.dependencies.GetOr([])), pat)
    ensures Contains(SkillBody(name, data), pat)
  {
    InNine(SkillOverview(name, data),
      UseCaseSection(name, data.useCases.GetOr([])), ProcessHeading,
      WorkflowSection(data.workflowSteps.GetOr([])), ConceptSection(data.keyConcepts.GetOr([])),
      DependencySection(data.dependencies.GetOr([])), BestPractices, Troubleshooting,
      RelatedResources(name), pat);
  }

  /** What one of the list sections contains, the document contains. */
  lemma InSkillDoc(name: string, description: string, data: IntentData, pat: string)
    requires || Contains(UseCaseSection(name, data.useCases.GetOr([])), pat)
             || Contains(WorkflowSection(data.workflowSteps.GetOr([])), pat)
             || Contains(ConceptSection(data.keyConcepts.GetOr([])), pat)
             || Contains(DependencySection(data.dependencies.GetOr([])), pat)
    ensures Contains(SkillDoc(name, description, data), pat)
  {
    InSkillBody(name, data, pat);
    ContainsRight(SkillHeader(name, description), SkillBody(name, data), pat);
  }

  /** Use case k is a bullet of the use-case section, after the bullets of the use cases before it. */
  lemma UseCaseOccurs(name: string, useCases: seq<string>, k: nat)
    requires k < |useCases|
    ensures OccursAt(UseCaseSection(name, useCases), Bullet(useCases[k]), |Each(useCases[..k], Bullet)|)
  {
    var before := Each(useCases[..k], Bullet);
    var after := Each(useCases[k + 1..], Bullet);
    EachAt(useCases, k, Bullet);
    Associative(before, Bullet(useCases[k]), after);
    OccursInRight(before, Bullet(useCases[k]) + after, Bullet(useCases[k]), 0);
  }

  /** Step k (from 0) is rendered as the block numbered k + 1, after the heading and the blocks of
      the steps before it. */
  lemma StepOccurs(steps: seq<string>, k: nat)
    requires k < |steps|
    ensures OccursAt(WorkflowSection(steps), StepBlock(k + 1, steps[k]),
                     |WorkflowHeading| + |Numbered(steps[..k], 1, StepBlock)|)
  {
    var block := StepBlock(k + 1, steps[k]);
    var before := WorkflowHeading + Numbered(steps[..k], 1, StepBlock);
    var after := Numbered(steps[k + 1..], k + 2, StepBlock);
    NumberedAt(steps, k, 1, StepBlock);
    Associative(WorkflowHeading, Numbered(steps[..k], 1, StepBlock) + block, after);
    Associative(WorkflowHeading, Numbered(steps[..k], 1, StepBlock), block);
    Associative(before, block, after);
    OccursInRight(before, block + after, block, 0);
  }

  /** Concept k has its block in the concept section, after the heading and the blocks before it. */
  lemma ConceptOccurs(concepts: seq<string>, k: nat)
    requires k < |concepts|
    ensures OccursAt(ConceptSection(concepts), ConceptBlock(concepts[k]),
                     |ConceptsHeading| + |Each(concepts[..k], ConceptBlock)|)
  {
    var block := ConceptBlock(concepts[k]);
    var before := ConceptsHeading + Each(concepts[..k], ConceptBlock);
    var after := Each(concepts[k + 1..], ConceptBlock);
    EachAt(concepts, k, ConceptBlock);
    Associative(ConceptsHeading, Each(concepts[..k], ConceptBlock) + block, after);
    Associative(ConceptsHeading, Each(concepts[..k], ConceptBlock), block);
    Associative(before, block, after);
    OccursInRight(before, block + after, block, 0);
  }

  /** Dependency k is a bold bullet of the dependency section, after the heading and the bullets
      before it. */
  lemma DependencyOccurs(dependencies: seq<string>, k: nat)
    requires k < |dependencies|
    ensures OccursAt(DependencySection(dependencies), BoldBullet(dependencies[k]),
                     |DependenciesHeading| + |Each(dependencies[..k], BoldBullet)|)
  {
    var line := BoldBullet(dependencies[k]);
    var prior := Each(dependencies[..k], BoldBullet);
    var before := DependenciesHeading + prior;
    var after := Each(dependencies[k + 1..], BoldBullet) + "\n";
    var rest := Each(dependencies[k + 1..], BoldBullet);
    EachAt(dependencies, k, BoldBullet);
    Associative(DependenciesHeading, prior + line, rest);
    Associative(DependenciesHeading, prior, line);
    Associative(before, line, rest);
    Associative(before, line + rest, "\n");
    Associative(line, rest, "\n");
    OccursInRight(before, line + after, line, 0);
  }

  /** Each use case shows up in the generated SKILL.md as a bullet. */
  lemma UseCasesInSkillDoc(name: string, description: string, data: IntentData)
    ensures forall k :: 0 <= k < |data.useCases.GetOr([])| ==>
      Contains(SkillDoc(name, description, data), Bullet(data.useCases.GetOr([])[k]))
  {
    var useCases := data.useCases.GetOr([]);
    forall k | 0 <= k < |useCases|
      ensures Contains(SkillDoc(name, description, data), Bullet(useCases[k]))
    {
      UseCaseOccurs(name, useCases, k);
      InSkillDoc(name, description, data, Bullet(useCases[k]));
    }
  }

  /** Each workflow step k (from 0) shows up in the generated SKILL.md as the block numbered k + 1. */
  lemma StepsInSkillDoc(name: string, description: string, data: IntentData)
    ensures forall k :: 0 <= k < |data.workflowSteps.GetOr([])| ==>
      Contains(SkillDoc(name, description, data), StepBlock(k + 1, data.workflowSteps.GetOr([])[k]))
  {
    var steps := data.workflowSteps.GetOr([]);
    forall k | 0 <= k < |steps|
      ensures Contains(SkillDoc(name, description, data), StepBlock(k + 1, steps[k]))
    {
      StepOccurs(steps, k);
      InSkillDoc(name, description, data, StepBlock(k + 1, steps[k]));
    }
  }

  /** Each key concept shows up in the generated SKILL.md as its block. */
  lemma ConceptsInSkillDoc(name: string, description: string, data: IntentData)
    ensures forall k :: 0 <= k < |data.keyConcepts.GetOr([])| ==>
      Contains(SkillDoc(name, description, data), ConceptBlock(data.keyConcepts.GetOr([])[k]))
  {
    var concepts := data.keyConcepts.GetOr([]);
    forall k | 0 <= k < |concepts|
      ensures Contains(SkillDoc(name, description, data), ConceptBlock(concepts[k]))
    {
      ConceptOccurs(concepts, k);
      InSkillDoc(name, description, data, ConceptBlock(concepts[k]));
    }
  }

  /** Each dependency shows up in the generated SKILL.md as a bold bullet. */
  lemma DependenciesInSkillDoc(name: string, description: string, data: IntentData)
    ensures forall k :: 0 <= k < |data.dependencies.GetOr([])| ==>
      Contains(SkillDoc(name, description, data), BoldBullet(data.dependencies.GetOr([])[k]))
  {
    var dependencies := data.dependencies.GetOr([]);
    forall k | 0 <= k < |dependencies|
      ensures Contains(SkillDoc(name, description, data), BoldBullet(dependencies[k]))
    {
      DependencyOccurs(dependencies, k);
      InSkillDoc(name, description, data, BoldBullet(dependencies[k]));
    }
  }
}
