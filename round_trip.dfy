/** What one generator writes into its frontmatter, the other reads back: a description survives
    command → skill, skill → command, and both round trips. Each generator reads the other's file
    in text mode, so what it parses is `ReadBack` of the text written. */
module RoundTrip {
  import opened Common
  import opened Text
  import opened Paths
  import opened Frontmatter
  import opened Intents
  import SG = SkillGenerator
  import CG = CommandGenerator

  /** A description either generator writes and reads back unchanged: a '\r' in it would read back
      as a line break and cut it short. */
  predicate Portable(description: string) {
    description != [] && IsStripped(description) && '\n' !in description && '\r' !in description
  }

  /** A skill name whose name line, once read back, neither breaks the frontmatter nor holds a
      `description:` key. */
  predicate PortableName(name: string) {
    SG.KeyFreeName(name) && '\r' !in name
  }

  /** A name on one line, without ':' and without '\r', meets the round trip's requirement. */
  lemma PlainNamePortable(name: string)
    requires '\n' !in name && '\r' !in name && ':' !in name
    ensures PortableName(name)
  {
    SG.NameLineHasNoKey(name);
  }

  /** The frontmatter a command file opens with reads back as written. */
  lemma CommandHeaderReadsBack(description: string, body: string)
    requires '\r' !in description
    ensures ReadBack(CG.CommandHeader(description) + body) == CG.CommandHeader(description) + ReadBack(body)
  {
    assert '\r' !in CG.CommandHeader(description);
    ReadBackConcat(CG.CommandHeader(description), body);
  }

  /** The frontmatter a SKILL.md opens with reads back as written. */
  lemma SkillHeaderReadsBack(name: string, description: string, body: string)
    requires '\r' !in name && '\r' !in description
    ensures ReadBack(SG.SkillHeader(name, description) + body)
         == SG.SkillHeader(name, description) + ReadBack(body)
  {
    assert '\r' !in SG.SkillFrontmatter(name, description);
    assert '\r' !in SG.SkillHeader(name, description);
    ReadBackConcat(SG.SkillHeader(name, description), body);
  }

  /** The skill generator, reading a generated command file, keeps the command's description,
      whatever the rest of the file holds. */
  lemma CommandToSkill(commandName: string, description: string, commandData: IntentData,
                       skillName: string, skillData: IntentData)
    requires Portable(description)
    ensures SG.SkillDescription(ExtractDescription(ReadBack(CG.CommandDoc(commandName, description, commandData))),
                                skillData, skillName) == description
  {
    var body := CG.CommandBody(commandName, commandData);
    CommandHeaderReadsBack(description, body);
    CG.HeaderDescription(description, ReadBack(body));
  }

  /** The command generator, reading a generated SKILL.md, keeps the skill's description. */
  lemma SkillToCommand(skillName: string, description: string, skillData: IntentData,
                       commandName: string, commandData: IntentData)
    requires Portable(description) && PortableName(skillName)
    ensures CG.CommandDescription(ExtractDescription(ReadBack(SG.SkillDoc(skillName, description, skillData))),
                                  commandData, commandName) == description
  {
    var body := SG.SkillBody(skillName, skillData);
    SkillHeaderReadsBack(skillName, description, body);
    SG.HeaderDescription(skillName, description, ReadBack(body));
  }

  /** Skill → command → skill: the description the second skill gets is the first skill's. */
  lemma SkillCommandSkill(name: string, description: string, data: IntentData,
                          commandName: string, commandData: IntentData,
                          skillName: string, skillData: IntentData)
    requires Portable(description) && PortableName(name)
    ensures
      var viaCommand := CG.CommandDescription(ExtractDescription(ReadBack(SG.SkillDoc(name, description, data))),
                                              commandData, commandName);
      SG.SkillDescription(ExtractDescription(ReadBack(CG.CommandDoc(commandName, viaCommand, commandData))),
                          skillData, skillName) == description
  {
    SkillToCommand(name, description, data, commandName, commandData);
    CommandToSkill(commandName, description, commandData, skillName, skillData);
  }

  /** Command → skill → command: the description the second command gets is the first command's. */
  lemma CommandSkillCommand(name: string, description: string, data: IntentData,
                            skillName: string, skillData: IntentData,
                            commandName: string, commandData: IntentData)
    requires Portable(description) && PortableName(skillName)
    ensures
      var viaSkill := SG.SkillDescription(ExtractDescription(ReadBack(CG.CommandDoc(name, description, data))),
                                          skillData, skillName);
      CG.CommandDescription(ExtractDescription(ReadBack(SG.SkillDoc(skillName, viaSkill, skillData))),
                            commandData, commandName) == description
  {
    CommandToSkill(name, description, data, skillName, skillData);
    SkillToCommand(skillName, description, skillData, commandName, commandData);
  }

  /** A SKILL.md written with an empty description (an intent whose purpose is "") hands the next
      command the text of its license line as description, since the `description:` pattern's
      whitespace runs on into the following line. */
  lemma EmptySkillDescriptionLeaks(skillName: string, skillData: IntentData,
                                   commandName: string, commandData: IntentData)
    requires PortableName(skillName)
    ensures CG.CommandDescription(ExtractDescription(ReadBack(SG.SkillDoc(skillName, "", skillData))),
                                  commandData, commandName) == "license: MIT"
  {
    EmptySkillHeaderReadsLicense(skillName, SG.SkillBody(skillName, skillData));
  }

  /** The same for any file that opens with the header of an empty description. */
  lemma EmptySkillHeaderReadsLicense(name: string, body: string)
    requires PortableName(name)
    ensures ExtractDescription(ReadBack(SG.SkillHeader(name, "") + body)) == "license: MIT"
  {
    SkillHeaderReadsBack(name, "", body);
    SG.HeaderEmptyDescription(name, ReadBack(body));
  }

  /** A command written with an empty description gives the skill generator nothing to keep: the
      skill's description falls back as if the command had no frontmatter. */
  lemma EmptyCommandDescriptionFallsBack(commandName: string, commandData: IntentData,
                                         skillName: string, skillData: IntentData)
    ensures SG.SkillDescription(ExtractDescription(ReadBack(CG.CommandDoc(commandName, "", commandData))),
                                skillData, skillName)
         == skillData.purpose.GetOr("Skill for /" + skillName + " command")
  {
    EmptyCommandHeaderReadsEmpty(CG.CommandBody(commandName, commandData));
  }

  /** The same for any file that opens with the header of an empty description. */
  lemma EmptyCommandHeaderReadsEmpty(body: string)
    ensures ExtractDescription(ReadBack(CG.CommandHeader("") + body)) == ""
  {
    CommandHeaderReadsBack("", body);
    CG.HeaderEmptyDescription(ReadBack(body));
  }

  /** `generate_skill_from_command` run on a command file this system generated writes a SKILL.md
      carrying that command's description. */
  method SkillFromGeneratedCommand(commandPath: string, commandName: string, description: string,
                                   commandData: IntentData, data: IntentData, outputDir: string,
                                   disk: Disk)
    returns (outcome: Try<bool>)
    requires Portable(description)
    requires disk.read(commandPath) == Ok(ReadBack(CG.CommandDoc(commandName, description, commandData)))
    ensures var name := SG.SkillName(data, commandPath);
      outcome == SG.WriteOutcome(Join(outputDir, name), SG.SkillDoc(name, description, data), disk)
  {
    outcome := SG.GenerateSkillFromCommand(commandPath, data, outputDir, disk);
    CommandToSkill(commandName, description, commandData, SG.SkillName(data, commandPath), data);
  }

  /** `generate_command_from_skill` run on a SKILL.md this system generated writes a command
      carrying that skill's description. */
  method CommandFromGeneratedSkill(skillPath: string, skillName: string, description: string,
                                   skillData: IntentData, data: IntentData, outputPath: string,
                                   disk: Disk)
    returns (outcome: Try<bool>)
    requires Portable(description) && PortableName(skillName)
    requires disk.read(skillPath) == Ok(ReadBack(SG.SkillDoc(skillName, description, skillData)))
    ensures var name := CG.CommandName(data, skillPath);
      outcome == CG.CommandWriteOutcome(outputPath, CG.CommandDoc(name, description, data), disk)
  {
    outcome := CG.GenerateCommandFromSkill(skillPath, data, outputPath, disk);
    SkillToCommand(skillName, description, skillData, CG.CommandName(data, skillPath), data);
  }
}
