/** `SyncOrchestrator`: discovery, one intent per gap, one generation per gap, the frontmatter
    check of the skills afterwards, and the result counts. The file system is a `Disk` and directory
    listings are inputs. The client's analysis and the two generators are seen through what they
    return (a value, or an exception): they are modelled on their own in `Intents.Analyze`,
    `SkillGenerator.GenerateSkillFromCommand` and `CommandGenerator.GenerateCommandFromSkill`. */
module Orchestrator {
  import opened Common
  import opened Paths
  import opened Frontmatter
  import opened Discovery
  import opened Intents
  import SG = SkillGenerator

  /** `SyncResult`. */
  datatype SyncResult = SyncResult(
    skillsCreated: nat,
    commandsCreated: nat,
    totalSynced: nat,
    errors: seq<string>,
    success: bool)

  /** `analyze_command` / `analyze_skill` of the client, by kind: the intent of a file's content
      under a name, or the exception raised. */
  type Analyzer = (ItemKind, string, string) -> Try<Intent>

  /** `generate_skill_from_command` / `generate_command_from_skill`: given the path read, the intent
      data and the output location, whether the write completed, or the exception raised. */
  type Generator = (string, IntentData, string) -> Try<bool>

  /** An analyzer that names every intent after its item and types it by the item's kind, as the
      client's analysis does. */
  ghost predicate NamesItsItems(analyze: Analyzer) {
    forall kind, content, name :: analyze(kind, content, name).Ok? ==>
      analyze(kind, content, name).value.name == name && analyze(kind, content, name).value.kind == kind
  }

  /** The client's analysis names and types its intents as `NamesItsItems` asks. */
  lemma AnalyzeNamesItsItems(reason: string -> Try<string>, decode: string -> Decoded)
    ensures NamesItsItems((kind, content, name) => Analyze(kind, content, name, reason, decode))
  {
    forall kind, content, name | Analyze(kind, content, name, reason, decode).Ok?
      ensures Analyze(kind, content, name, reason, decode).value.name == name
      ensures Analyze(kind, content, name, reason, decode).value.kind == kind
    {
    }
  }

  /** The gap lists hold the names of the two set differences. */
  lemma GapSets(commands: set<string>, skills: set<string>)
    ensures var d := ComputeGaps(commands, skills);
      && (set x | x in d.commandsWithoutSkills) == commands - skills
      && (set x | x in d.skillsWithoutCommands) == skills - commands
  {
  }

  /** Two sets with no common element have as many elements together as apart. */
  lemma DisjointSize(a: set<string>, b: set<string>)
    requires a !! b
    ensures |a + b| == |a| + |b|
  {
  }

  /** What became of one gap item in the generation phase: a counter bump, or one error. */
  datatype Step = Created | Error(message: string)

  /** How many of the steps bumped a counter. */
  function CreatedCount(steps: seq<Step>): nat {
    if steps == [] then 0
    else CreatedCount(steps[..|steps| - 1]) + (if steps[|steps| - 1].Created? then 1 else 0)
  }

  /** The errors the steps appended, in order. */
  function ErrorsOf(steps: seq<Step>): seq<string> {
    if steps == [] then []
    else ErrorsOf(steps[..|steps| - 1])
         + (if steps[|steps| - 1].Error? then [steps[|steps| - 1].message] else [])
  }

  /** Every step either bumps a counter or appends exactly one error. */
  lemma {:induction false} EachStepCounted(steps: seq<Step>)
    ensures CreatedCount(steps) + |ErrorsOf(steps)| == |steps|
    decreases |steps|
  {
    if steps != [] {
      EachStepCounted(steps[..|steps| - 1]);
    }
  }

  /** One more step adds one to the count or its message to the errors. */
  lemma StepSnoc(steps: seq<Step>, step: Step)
    ensures CreatedCount(steps + [step]) == CreatedCount(steps) + (if step.Created? then 1 else 0)
    ensures ErrorsOf(steps + [step]) == ErrorsOf(steps) + (if step.Error? then [step.message] else [])
  {
    assert (steps + [step])[..|steps|] == steps;
  }

  /** The result the generation phase returns for the skill-side and command-side steps. */
  function Tally(skillSteps: seq<Step>, commandSteps: seq<Step>): (r: SyncResult)
    ensures r.totalSynced == r.skillsCreated + r.commandsCreated
    ensures r.success <==> r.errors == []
    ensures r.skillsCreated + r.commandsCreated + |r.errors| == |skillSteps| + |commandSteps|
  {
    EachStepCounted(skillSteps);
    EachStepCounted(commandSteps);
    var errors := ErrorsOf(skillSteps) + ErrorsOf(commandSteps);
    SyncResult(CreatedCount(skillSteps), CreatedCount(commandSteps),
               CreatedCount(skillSteps) + CreatedCount(commandSteps), errors, |errors| == 0)
  }

  /** The directory the intents are saved under. */
  const TempDir: string := ".sync-temp"

  const IntentsDir: string := ".sync-temp/intents"

  /** The intent used when analysing a command fails. */
  function CommandFallback(name: string): (r: Intent)
    ensures r.name == name && r.kind == CommandItem
  {
    Intent(name, CommandItem, "Execute " + name + " workflow", ["When using /" + name + " command"],
           [], [], [], map[])
  }

  /** The intent used when analysing a skill fails. */
  function SkillFallback(name: string): (r: Intent)
    ensures r.name == name && r.kind == SkillItem
  {
    Intent(name, SkillItem, "Skill for " + name, ["When working with " + name], [], [], [], map[])
  }

  /** The process exit code of `main`: 0 exactly when the run succeeded. */
  function ExitCode(result: SyncResult): (code: int)
    ensures code == 0 <==> result.success
    ensures code == 0 || code == 1
  {
    if result.success then 0 else 1
  }

  class SyncOrchestrator {
    const commandsDir: string
    const skillsDir: string
    /** Stored and reported only; nothing runs concurrently. */
    const parallel: int
    const dryRun: bool
    const verbose: bool
    /** The client's analysis, or None when the client could not be created. */
    const thoughtbox: Option<Analyzer>
    const useThoughtbox: bool

    /** `__init__`: a client that fails to initialise leaves the orchestrator without one. */
    constructor(commandsDir: string, skillsDir: string, parallel: int, dryRun: bool, verbose: bool,
                client: Try<Analyzer>)
      ensures this.commandsDir == commandsDir && this.skillsDir == skillsDir
      ensures this.parallel == parallel && this.dryRun == dryRun && this.verbose == verbose
      ensures useThoughtbox <==> client.Ok?
      ensures client.Ok? ==> thoughtbox == Some(client.value)
      ensures client.Raised? ==> thoughtbox == None
    {
      this.commandsDir := commandsDir;
      this.skillsDir := skillsDir;
      this.parallel := parallel;
      this.dryRun := dryRun;
      this.verbose := verbose;
      if client.Ok? {
        thoughtbox := Some(client.value);
        useThoughtbox := true;
      } else {
        thoughtbox := None;
        useThoughtbox := false;
      }
    }

    /** `self.thoughtbox.analyze_*(content, name)`: without a client the attribute lookup raises. */
    function Analysis(kind: ItemKind, content: string, name: string): (r: Try<Intent>)
      ensures thoughtbox.None? ==> r.Raised?
      ensures thoughtbox.Some? ==> r == thoughtbox.value(kind, content, name)
    {
      match thoughtbox
      case None =>
        Raised("'NoneType' object has no attribute '"
               + (if kind == CommandItem then "analyze_command" else "analyze_skill") + "'")
      case Some(analyze) => analyze(kind, content, name)
    }

    function CommandPath(name: string): string {
      Join(commandsDir, name + ".md")
    }

    function SkillPath(name: string): string {
      Join(Join(skillsDir, name), "SKILL.md")
    }

    function IntentPath(name: string): string {
      Join(IntentsDir, name + "-intent.json")
    }

    /** The intent phase 1 records for one item: the analysed one when reading the file, analysing
        it and saving the intent all succeed, else the fallback. */
    function ItemIntent(kind: ItemKind, name: string, path: string, fallback: Intent, disk: Disk,
                        dump: Intent -> string): Intent
    {
      match disk.read(path)
      case Raised(_) => fallback
      case Ok(content) =>
        match Analysis(kind, content, name)
        case Raised(_) => fallback
        case Ok(intent) =>
          if disk.write(IntentPath(name), dump(intent)).Done? then intent else fallback
    }

    function CommandIntent(name: string, disk: Disk, dump: Intent -> string): Intent {
      ItemIntent(CommandItem, name, CommandPath(name), CommandFallback(name), disk, dump)
    }

    function SkillIntent(name: string, disk: Disk, dump: Intent -> string): Intent {
      ItemIntent(SkillItem, name, SkillPath(name), SkillFallback(name), disk, dump)
    }

    /** The entries phase 1's loop over the commands without skills makes. */
    function CommandIntents(names: seq<string>, disk: Disk, dump: Intent -> string): map<string, Intent> {
      map x | x in names :: CommandIntent(x, disk, dump)
    }

    /** The entries phase 1's loop over the skills without commands makes. */
    function SkillIntents(names: seq<string>, disk: Disk, dump: Intent -> string): map<string, Intent> {
      map x | x in names :: SkillIntent(x, disk, dump)
    }

    /** The dictionary phase 1 fills: the commands' entries, then the skills' entries, a later entry
        replacing an earlier one under the same name. */
    function IntentsFor(d: SyncDiscovery, disk: Disk, dump: Intent -> string): map<string, Intent> {
      CommandIntents(d.commandsWithoutSkills, disk, dump) + SkillIntents(d.skillsWithoutCommands, disk, dump)
    }

    /** Every recorded intent carries its item's name, whichever branch produced it. */
    lemma ItemIntentName(kind: ItemKind, name: string, path: string, fallback: Intent, disk: Disk,
                         dump: Intent -> string)
      requires fallback.name == name && fallback.kind == kind
      requires thoughtbox.Some? ==> NamesItsItems(thoughtbox.value)
      ensures ItemIntent(kind, name, path, fallback, disk, dump).name == name
      ensures ItemIntent(kind, name, path, fallback, disk, dump).kind == kind
    {
      var read := disk.read(path);
      if read.Ok? {
        var analysed := Analysis(kind, read.value, name);
        if analysed.Ok? {
          assert analysed.value.name == name && analysed.value.kind == kind;
        }
      }
    }

    /** One iteration of phase 1's loop over the commands: read the file, analyse it and save the
        intent, falling back on any exception. */
    method AnalyzeCommand(name: string, disk: Disk, dump: Intent -> string) returns (intent: Intent)
      ensures intent == CommandIntent(name, disk, dump)
    {
      intent := CommandFallback(name);
      var content := disk.read(CommandPath(name));
      if content.Ok? {
        var analysed := Analysis(CommandItem, content.value, name);
        if analysed.Ok? {
          var saved := disk.write(IntentPath(name), dump(analysed.value));
          if saved.Done? {
            intent := analysed.value;
          }
        }
      }
    }

    /** One iteration of phase 1's loop over the skills: read the file, analyse it and save the
        intent, falling back on any exception. */
    method AnalyzeSkill(name: string, disk: Disk, dump: Intent -> string) returns (intent: Intent)
      ensures intent == SkillIntent(name, disk, dump)
    {
      intent := SkillFallback(name);
      var content := disk.read(SkillPath(name));
      if content.Ok? {
        var analysed := Analysis(SkillItem, content.value, name);
        if analysed.Ok? {
          var saved := disk.write(IntentPath(name), dump(analysed.value));
          if saved.Done? {
            intent := analysed.value;
          }
        }
      }
    }

    /** Phase 1's loop over the commands without skills, adding one entry per name. */
    method AnalyzeCommands(names: seq<string>, disk: Disk, dump: Intent -> string)
      returns (intents: map<string, Intent>)
      ensures intents == CommandIntents(names, disk, dump)
    {
      intents := map[];
      for i := 0 to |names|
        invariant intents.Keys == set x | x in names[..i]
        invariant forall x :: x in intents ==> intents[x] == CommandIntent(x, disk, dump)
      {
        var intent := AnalyzeCommand(names[i], disk, dump);
        assert names[..i + 1] == names[..i] + [names[i]];
        intents := intents[names[i] := intent];
      }
      assert names[..|names|] == names;
    }

    /** Phase 1's loop over the skills without commands, adding one entry per name to those made
        for the commands. */
    method AnalyzeSkills(start: map<string, Intent>, names: seq<string>, disk: Disk, dump: Intent -> string)
      returns (intents: map<string, Intent>)
      ensures intents == start + SkillIntents(names, disk, dump)
    {
      intents := start;
      for i := 0 to |names|
        invariant intents.Keys == start.Keys + set x | x in names[..i]
        invariant forall x :: x in intents ==>
          intents[x] == if x in names[..i] then SkillIntent(x, disk, dump) else start[x]
      {
        var intent := AnalyzeSkill(names[i], disk, dump);
        assert names[..i + 1] == names[..i] + [names[i]];
        intents := intents[names[i] := intent];
      }
      assert names[..|names|] == names;
    }

    /** `phase_1_reasoning`, after the two temporary directories exist. */
    method PhaseOneReasoning(d: SyncDiscovery, disk: Disk, dump: Intent -> string)
      returns (intents: map<string, Intent>)
      ensures intents == IntentsFor(d, disk, dump)
    {
      intents := AnalyzeCommands(d.commandsWithoutSkills, disk, dump);
      intents := AnalyzeSkills(intents, d.skillsWithoutCommands, disk, dump);
    }

    /** The names phase 1's dictionary holds: those of both loops. */
    lemma MergedKeys(d: SyncDiscovery, disk: Disk, dump: Intent -> string)
      ensures IntentsFor(d, disk, dump).Keys
           == (set x | x in d.commandsWithoutSkills) + (set x | x in d.skillsWithoutCommands)
    {
      var fromCommands := CommandIntents(d.commandsWithoutSkills, disk, dump);
      var fromSkills := SkillIntents(d.skillsWithoutCommands, disk, dump);
      assert (fromCommands + fromSkills).Keys == fromCommands.Keys + fromSkills.Keys;
    }

    /** Phase 1 makes an entry for every gap item and no other, as many entries as gaps. */
    lemma IntentKeys(commands: set<string>, skills: set<string>, disk: Disk, dump: Intent -> string)
      ensures var d := ComputeGaps(commands, skills);
        var intents := IntentsFor(d, disk, dump);
        && intents.Keys == (commands - skills) + (skills - commands)
        && |intents| == d.totalGaps
    {
      var d := ComputeGaps(commands, skills);
      MergedKeys(d, disk, dump);
      GapSets(commands, skills);
      DisjointSize(commands - skills, skills - commands);
    }

    /** Every entry of phase 1's dictionary is named after its key, and typed "skill" exactly when
        the key came from the skills' loop. */
    lemma IntentValues(d: SyncDiscovery, disk: Disk, dump: Intent -> string)
      requires thoughtbox.Some? ==> NamesItsItems(thoughtbox.value)
      ensures var intents := IntentsFor(d, disk, dump);
        forall x :: x in intents ==>
          && intents[x].name == x
          && (intents[x].kind == SkillItem <==> x in d.skillsWithoutCommands)
    {
      var intents := IntentsFor(d, disk, dump);
      forall x | x in intents
        ensures intents[x].name == x
        ensures intents[x].kind == SkillItem <==> x in d.skillsWithoutCommands
      {
        if x in d.skillsWithoutCommands {
          ItemIntentName(SkillItem, x, SkillPath(x), SkillFallback(x), disk, dump);
        } else {
          ItemIntentName(CommandItem, x, CommandPath(x), CommandFallback(x), disk, dump);
        }
      }
    }

    /** The data handed to a generator: the item's intent as a dictionary, or `{}` without one. */
    function DataFor(name: string, intents: map<string, Intent>): IntentData {
      if name in intents then AsData(intents[name]) else NoIntentData
    }

    /** One command's step: counted without a generation in a dry run; otherwise counted when the
        generator returned true, one error when it returned false or raised. */
    function SkillStep(name: string, intents: map<string, Intent>, generate: Generator): Step {
      if dryRun then Created
      else
        match generate(CommandPath(name), DataFor(name, intents), skillsDir)
        case Ok(true) => Created
        case Ok(false) => Error("Failed to create skill for " + name)
        case Raised(e) => Error("Error creating skill for " + name + ": " + e)
    }

    /** One skill's step, the same way round. */
    function CommandStep(name: string, intents: map<string, Intent>, generate: Generator): Step {
      if dryRun then Created
      else
        match generate(SkillPath(name), DataFor(name, intents), CommandPath(name))
        case Ok(true) => Created
        case Ok(false) => Error("Failed to create command for " + name)
        case Raised(e) => Error("Error creating command for " + name + ": " + e)
    }

    /** The steps of the loop over the commands without skills, one per name, in order. */
    function SkillSteps(names: seq<string>, intents: map<string, Intent>, generate: Generator): (r: seq<Step>)
      ensures |r| == |names|
    {
      if names == [] then []
      else SkillSteps(names[..|names| - 1], intents, generate) + [SkillStep(names[|names| - 1], intents, generate)]
    }

    /** The steps of the loop over the skills without commands, one per name, in order. */
    function CommandSteps(names: seq<string>, intents: map<string, Intent>, generate: Generator): (r: seq<Step>)
      ensures |r| == |names|
    {
      if names == [] then []
      else CommandSteps(names[..|names| - 1], intents, generate) + [CommandStep(names[|names| - 1], intents, generate)]
    }

    /** The result of the generation phase. */
    function GenerationResult(d: SyncDiscovery, intents: map<string, Intent>, generateSkill: Generator,
                              generateCommand: Generator): SyncResult {
      Tally(SkillSteps(d.commandsWithoutSkills, intents, generateSkill),
            CommandSteps(d.skillsWithoutCommands, intents, generateCommand))
    }

    /** One iteration of the loop over the commands without skills: the dry-run count, or the
        generator's call and what its result or exception adds. */
    method GenerateSkillFor(name: string, intents: map<string, Intent>, generate: Generator)
      returns (step: Step)
      ensures step == SkillStep(name, intents, generate)
    {
      if dryRun {
        return Created;
      }
      var data := DataFor(name, intents);
      var success := generate(CommandPath(name), data, skillsDir);
      match success
      case Ok(true) =>
        step := Created;
      case Ok(false) =>
        step := Error("Failed to create skill for " + name);
      case Raised(e) =>
        step := Error("Error creating skill for " + name + ": " + e);
    }

    /** The loop over the commands without skills: one skill generation per name. */
    method GenerateSkills(names: seq<string>, intents: map<string, Intent>, generate: Generator)
      returns (created: nat, errors: seq<string>)
      ensures created == CreatedCount(SkillSteps(names, intents, generate))
      ensures errors == ErrorsOf(SkillSteps(names, intents, generate))
    {
      created, errors := 0, [];
      for i := 0 to |names|
        invariant created == CreatedCount(SkillSteps(names[..i], intents, generate))
        invariant errors == ErrorsOf(SkillSteps(names[..i], intents, generate))
      {
        var step := GenerateSkillFor(names[i], intents, generate);
        assert names[..i + 1][..i] == names[..i];
        StepSnoc(SkillSteps(names[..i], intents, generate), step);
        match step
        case Created =>
          created := created + 1;
        case Error(message) =>
          errors := errors + [message];
      }
      assert names[..|names|] == names;
    }

    /** One iteration of the loop over the skills without commands: the dry-run count, or the
        generator's call and what its result or exception adds. */
    method GenerateCommandFor(name: string, intents: map<string, Intent>, generate: Generator)
      returns (step: Step)
      ensures step == CommandStep(name, intents, generate)
    {
      if dryRun {
        return Created;
      }
      var data := DataFor(name, intents);
      var success := generate(SkillPath(name), data, CommandPath(name));
      match success
      case Ok(true) =>
        step := Created;
      case Ok(false) =>
        step := Error("Failed to create command for " + name);
      case Raised(e) =>
        step := Error("Error creating command for " + name + ": " + e);
    }

    /** The loop over the skills without commands: one command generation per name. */
    method GenerateCommands(names: seq<string>, intents: map<string, Intent>, generate: Generator)
      returns (created: nat, errors: seq<string>)
      ensures created == CreatedCount(CommandSteps(names, intents, generate))
      ensures errors == ErrorsOf(CommandSteps(names, intents, generate))
    {
      created, errors := 0, [];
      for i := 0 to |names|
        invariant created == CreatedCount(CommandSteps(names[..i], intents, generate))
        invariant errors == ErrorsOf(CommandSteps(names[..i], intents, generate))
      {
        var step := GenerateCommandFor(names[i], intents, generate);
        assert names[..i + 1][..i] == names[..i];
        StepSnoc(CommandSteps(names[..i], intents, generate), step);
        match step
        case Created =>
          created := created + 1;
        case Error(message) =>
          errors := errors + [message];
      }
      assert names[..|names|] == names;
    }

    /** `phase_2_generation`. */
    method PhaseTwoGeneration(d: SyncDiscovery, intents: map<string, Intent>, generateSkill: Generator,
                              generateCommand: Generator)
      returns (result: SyncResult)
      ensures result == GenerationResult(d, intents, generateSkill, generateCommand)
      ensures result.totalSynced == result.skillsCreated + result.commandsCreated
      ensures result.success <==> result.errors == []
    {
      var skillsCreated, skillErrors := GenerateSkills(d.commandsWithoutSkills, intents, generateSkill);
      var commandsCreated, commandErrors := GenerateCommands(d.skillsWithoutCommands, intents, generateCommand);
      var errors := skillErrors + commandErrors;
      result := SyncResult(skillsCreated, commandsCreated, skillsCreated + commandsCreated, errors,
                           |errors| == 0);
    }

    /** In a dry run every command is counted and none adds an error. */
    lemma {:induction false} DrySkillSteps(names: seq<string>, intents: map<string, Intent>, generate: Generator)
      requires dryRun
      ensures CreatedCount(SkillSteps(names, intents, generate)) == |names|
      ensures ErrorsOf(SkillSteps(names, intents, generate)) == []
      decreases |names|
    {
      if names != [] {
        var prefix := names[..|names| - 1];
        DrySkillSteps(prefix, intents, generate);
        StepSnoc(SkillSteps(prefix, intents, generate), SkillStep(names[|names| - 1], intents, generate));
      }
    }

    /** In a dry run every skill is counted and none adds an error. */
    lemma {:induction false} DryCommandSteps(names: seq<string>, intents: map<string, Intent>, generate: Generator)
      requires dryRun
      ensures CreatedCount(CommandSteps(names, intents, generate)) == |names|
      ensures ErrorsOf(CommandSteps(names, intents, generate)) == []
      decreases |names|
    {
      if names != [] {
        var prefix := names[..|names| - 1];
        DryCommandSteps(prefix, intents, generate);
        StepSnoc(CommandSteps(prefix, intents, generate), CommandStep(names[|names| - 1], intents, generate));
      }
    }

    /** A dry run counts every gap item as created and reports no error. */
    lemma DryRunCounts(d: SyncDiscovery, intents: map<string, Intent>, generateSkill: Generator,
                       generateCommand: Generator)
      requires dryRun
      ensures var r := GenerationResult(d, intents, generateSkill, generateCommand);
        && r.skillsCreated == |d.commandsWithoutSkills|
        && r.commandsCreated == |d.skillsWithoutCommands|
        && r.errors == [] && r.success
    {
      DrySkillSteps(d.commandsWithoutSkills, intents, generateSkill);
      DryCommandSteps(d.skillsWithoutCommands, intents, generateCommand);
    }

    /** Every gap item contributes exactly one outcome: the created counts and the errors add up to
        the number of gaps. */
    lemma GenerationAccountsForEveryGap(commands: set<string>, skills: set<string>,
                                        intents: map<string, Intent>, generateSkill: Generator,
                                        generateCommand: Generator)
      ensures var d := ComputeGaps(commands, skills);
        var r := GenerationResult(d, intents, generateSkill, generateCommand);
        r.skillsCreated + r.commandsCreated + |r.errors| == d.totalGaps
    {
      var d := ComputeGaps(commands, skills);
      assert |SkillSteps(d.commandsWithoutSkills, intents, generateSkill)| == |d.commandsWithoutSkills|;
      assert |CommandSteps(d.skillsWithoutCommands, intents, generateCommand)| == |d.skillsWithoutCommands|;
    }

    /** The warning validation reports for one SKILL.md, if any. */
    function Warning(path: string, content: Try<string>): Option<string> {
      match content
      case Raised(e) => Some("Error reading " + path + ": " + e)
      case Ok(c) => if OpensFrontmatter(c) then None else Some("Missing frontmatter: " + path)
    }

    /** The warnings for the skill directories holding a SKILL.md, in listing order. */
    function Warnings(entries: seq<string>, read: string -> Try<string>): (r: seq<string>)
      ensures r == [] <==> forall k :: 0 <= k < |entries| ==> Warning(SkillPath(entries[k]), read(SkillPath(entries[k]))).None?
      ensures |r| <= |entries|
    {
      if entries == [] then []
      else
        var last := entries[|entries| - 1];
        var w := Warning(SkillPath(last), read(SkillPath(last)));
        var r := Warnings(entries[..|entries| - 1], read) + (if w.Some? then [w.value] else []);
        assert forall k :: 0 <= k < |entries| - 1 ==> entries[..|entries| - 1][k] == entries[k];
        r
    }

    /** A SKILL.md the skill generator wrote is never flagged. */
    lemma GeneratedSkillPasses(path: string, name: string, description: string, data: IntentData)
      ensures Warning(path, Ok(SG.SkillDoc(name, description, data))) == None
    {
      SG.SkillDocOpens(name, description, data);
    }

    /** `phase_3_validation`, given the skill directories that hold a SKILL.md (None when the skills
        directory is missing, where listing it raises) and the files as they are after generation.
        Its warnings are only reported. */
    method PhaseThreeValidation(entries: Option<seq<string>>, read: string -> Try<string>)
      returns (warnings: Try<seq<string>>)
      ensures dryRun ==> warnings == Ok([])
      ensures !dryRun && entries.None? ==> warnings.Raised?
      ensures !dryRun && entries.Some? ==> warnings == Ok(Warnings(entries.value, read))
    {
      if dryRun {
        return Ok([]);
      }
      if entries.None? {
        return Raised("[Errno 2] No such file or directory: '" + skillsDir + "'");
      }
      var list := entries.value;
      var found: seq<string> := [];
      for i := 0 to |list|
        invariant found == Warnings(list[..i], read)
      {
        assert list[..i + 1][..i] == list[..i];
        var path := SkillPath(list[i]);
        var content := read(path);
        match content {
          case Raised(e) =>
            found := found + ["Error reading " + path + ": " + e];
          case Ok(c) =>
            if !OpensFrontmatter(c) {
              found := found + ["Missing frontmatter: " + path];
            }
        }
      }
      assert list[..|list|] == list;
      warnings := Ok(found);
    }

    /** `run`: discovery, an early return when nothing is missing, then the three phases. The
        temporary directories of phase 1 and the listing of phase 3 are outside any handler, so
        their failures raise out of the run. */
    method Run(commandListing: Option<seq<string>>, skillListing: Option<seq<string>>, disk: Disk,
               dump: Intent -> string, generateSkill: Generator, generateCommand: Generator,
               entriesAfter: Option<seq<string>>, readAfter: string -> Try<string>)
      returns (result: Try<SyncResult>)
      ensures var d := ComputeGaps(CommandNames(commandListing), SkillNames(skillListing));
        d.totalGaps == 0 ==> result == Ok(SyncResult(0, 0, 0, [], true))
      ensures var d := ComputeGaps(CommandNames(commandListing), SkillNames(skillListing));
        (d.totalGaps != 0 && (disk.makeDir(TempDir).Failed? || disk.makeDir(IntentsDir).Failed?))
        ==> result.Raised?
      ensures var d := ComputeGaps(CommandNames(commandListing), SkillNames(skillListing));
        (d.totalGaps != 0 && disk.makeDir(TempDir).Done? && disk.makeDir(IntentsDir).Done?)
        ==> if !dryRun && entriesAfter.None? then result.Raised?
            else result == Ok(GenerationResult(d, IntentsFor(d, disk, dump), generateSkill, generateCommand))
      ensures result.Ok? ==> (result.value.success <==> result.value.errors == [])
    {
      var d := Discover(commandListing, skillListing);
      if d.totalGaps == 0 {
        return Ok(SyncResult(0, 0, 0, [], true));
      }
      var made := disk.makeDir(TempDir);
      if made.Failed? {
        return Raised(made.message);
      }
      made := disk.makeDir(IntentsDir);
      if made.Failed? {
        return Raised(made.message);
      }
      var intents := PhaseOneReasoning(d, disk, dump);
      var generated := PhaseTwoGeneration(d, intents, generateSkill, generateCommand);
      var validated := PhaseThreeValidation(entriesAfter, readAfter);
      if validated.Raised? {
        return Raised(validated.message);
      }
      result := Ok(generated);
    }
  }
}
