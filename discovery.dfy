/** Phase 0 of the synchroniser: the command names found in the commands directory, the skill
    names found in the skills directory, and the gaps between the two. A directory listing is an
    input: `None` when the directory does not exist, otherwise the names of its entries. */
module Discovery {
  import opened Common
  import opened Paths
  import opened Ordering

  /** The result of discovery; every list is sorted. */
  datatype SyncDiscovery = SyncDiscovery(
    commands: seq<string>,
    skills: seq<string>,
    commandsWithoutSkills: seq<string>,
    skillsWithoutCommands: seq<string>,
    totalGaps: int)

  /** Skill directories that are never reported as skills. */
  const ExcludedSkills: seq<string> := ["template-skill", "scripts", "architecture"]

  /** The command names a listing of the commands directory yields: the stem of every entry the
      glob `*.md` matches. */
  function CommandNames(listing: Option<seq<string>>): set<string> {
    match listing
    case None => {}
    case Some(entries) => set e | e in entries && IsMarkdownName(e) :: Stem(e)
  }

  /** The skill names a listing yields. Its entries are the names of the subdirectories that hold a
      SKILL.md file: the parent directory of each match of the glob for SKILL.md one level down. */
  function SkillNames(listing: Option<seq<string>>): set<string> {
    match listing
    case None => {}
    case Some(entries) => set e | e in entries && e !in ExcludedSkills
  }

  /** `discover_commands`: one name per `*.md` entry, its file name without the final ".md". */
  method DiscoverCommands(listing: Option<seq<string>>) returns (commands: set<string>)
    ensures commands == CommandNames(listing)
    ensures listing.None? ==> commands == {}
    ensures listing.Some? ==> forall n :: n in commands <==>
      exists e :: e in listing.value && IsMarkdownName(e) && Stem(e) == n
    ensures listing.Some? ==> forall e :: e in listing.value && IsMarkdownName(e) && |e| > 3 ==>
      e[..|e| - 3] in commands
  {
    commands := {};
    if listing.None? {
      return;
    }
    var entries := listing.value;
    for i := 0 to |entries|
      invariant forall n :: n in commands <==>
        exists e :: e in entries[..i] && IsMarkdownName(e) && Stem(e) == n
    {
      var e := entries[i];
      assert entries[..i + 1] == entries[..i] + [e];
      if IsMarkdownName(e) {
        commands := commands + {Stem(e)};
      }
    }
    assert entries[..|entries|] == entries;
    forall e | e in entries && IsMarkdownName(e) && |e| > 3
      ensures e[..|e| - 3] in commands
    {
      StemOfMarkdown(e);
    }
  }

  /** `discover_skills`: every listed skill directory except the excluded ones. */
  method DiscoverSkills(listing: Option<seq<string>>) returns (skills: set<string>)
    ensures skills == SkillNames(listing)
    ensures listing.None? ==> skills == {}
    ensures listing.Some? ==> forall n :: n in skills <==> n in listing.value && n !in ExcludedSkills
    ensures forall x :: x in ExcludedSkills ==> x !in skills
  {
    skills := {};
    if listing.None? {
      return;
    }
    var entries := listing.value;
    for i := 0 to |entries|
      invariant forall n :: n in skills <==> n in entries[..i] && n !in ExcludedSkills
    {
      var name := entries[i];
      assert entries[..i + 1] == entries[..i] + [name];
      if name !in ExcludedSkills {
        skills := skills + {name};
      }
    }
    assert entries[..|entries|] == entries;
  }

  /** `compute_gaps`: the sorted names on each side, the sorted names present on one side only, and
      how many there are. */
  function ComputeGaps(commands: set<string>, skills: set<string>): (d: SyncDiscovery)
    ensures StrictlyAscending(d.commands) && forall x :: x in d.commands <==> x in commands
    ensures StrictlyAscending(d.skills) && forall x :: x in d.skills <==> x in skills
    ensures StrictlyAscending(d.commandsWithoutSkills)
    ensures forall x :: x in d.commandsWithoutSkills <==> x in commands && x !in skills
    ensures StrictlyAscending(d.skillsWithoutCommands)
    ensures forall x :: x in d.skillsWithoutCommands <==> x in skills && x !in commands
    ensures |d.commands| == |commands| && |d.skills| == |skills|
    ensures d.totalGaps == |d.commandsWithoutSkills| + |d.skillsWithoutCommands|
    ensures d.totalGaps == |commands - skills| + |skills - commands|
  {
    var commandsWithoutSkills := SortedList(commands - skills);
    var skillsWithoutCommands := SortedList(skills - commands);
    SyncDiscovery(
      SortedList(commands),
      SortedList(skills),
      commandsWithoutSkills,
      skillsWithoutCommands,
      |commandsWithoutSkills| + |skillsWithoutCommands|)
  }

  /** The two gap lists never share a name. */
  lemma GapListsDisjoint(commands: set<string>, skills: set<string>)
    ensures var d := ComputeGaps(commands, skills);
      forall x :: x in d.commandsWithoutSkills ==> x !in d.skillsWithoutCommands
  {
  }

  /** There is no gap exactly when both sides name the same set. */
  lemma NoGapsIffSynchronized(commands: set<string>, skills: set<string>)
    ensures ComputeGaps(commands, skills).totalGaps == 0 <==> commands == skills
  {
    var d := ComputeGaps(commands, skills);
    if d.totalGaps == 0 {
      assert d.commandsWithoutSkills == [] && d.skillsWithoutCommands == [];
      forall x | x in commands ensures x in skills {
        assert x !in d.commandsWithoutSkills;
      }
      forall x | x in skills ensures x in commands {
        assert x !in d.skillsWithoutCommands;
      }
    }
  }

  /** `discover`: the gaps between what the two listings hold. */
  method Discover(commandListing: Option<seq<string>>, skillListing: Option<seq<string>>)
    returns (d: SyncDiscovery)
    ensures d == ComputeGaps(CommandNames(commandListing), SkillNames(skillListing))
    ensures forall x :: x in ExcludedSkills ==> x !in d.skills && x !in d.skillsWithoutCommands
  {
    var commands := DiscoverCommands(commandListing);
    var skills := DiscoverSkills(skillListing);
    d := ComputeGaps(commands, skills);
  }
}
