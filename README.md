# Command/skill synchroniser — a verified model

The synchroniser keeps two sets of Markdown documents in step:
- slash commands, one `<name>.md` file per command in a commands directory;
- skills, one `<name>/SKILL.md` directory per skill in a skills directory.

It runs in four stages:
1. **Discovery.** It computes which names exist on one side only. These are the gaps.
2. **Phase 1, reasoning.** It asks an external reasoning service for an *Intent* for every gap item. An Intent holds a purpose, use cases, key concepts, workflow steps and dependencies.
3. **Phase 2, generation.** It renders the missing document from the Intent: a SKILL.md for a command that lacks one, a command file for a skill that lacks one. It counts what it created and collects the errors.
4. **Phase 3, validation.** It checks that every SKILL.md opens with a YAML frontmatter fence.

This Dafny project models that pipeline and proves what each step promises:

| Module | Models | Main results |
|---|---|---|
| `Discovery` | `discovery.py` | Gap lists are exact set differences, strictly ascending and disjoint. There are no gaps if and only if the name sets agree. Excluded skill names never appear. |
| `Frontmatter` | The frontmatter and `description:` regular expressions | Written out as string functions. They follow the regex engine's backtracking order. |
| `SkillGenerator` | `generate_skill_from_command` | An imperative renderer proved equal to a document function. Every use case, step, concept and dependency appears in the output, in order. The write result is modelled too. |
| `CommandGenerator` | `generate_command_from_skill` | The same as `SkillGenerator`, plus the `<arguments>` keyword rule. |
| `RoundTrip` | Both generators together | A description survives skill → command → skill and command → skill → command. |
| `Intents` | `thoughtbox_client.py`'s reply parsing | The `{`…`}` span, the two fallbacks, the field defaults and the 2000-character truncation. |
| `Orchestrator` | `SyncOrchestrator` | One intent per gap. One outcome per gap. Dry-run counts, the early exit, the success flag and the exit code. |
| Helpers | `Text`, `Paths`, `Ordering`, `Markdown`, `Common` | Python's `str.strip`/`isspace`, `Path.stem`/`.name`/`.parent`, and Python's string order with `sorted` over a set. |

File contents, directory listings and the results of writes are passed in:
- The file system is a `Disk` value. It maps a path to a read result (text or an exception), and a directory or a write to an `Effect`.
- A file the synchroniser wrote reads back as `Text.ReadBack` of the text written. Both generators read in text mode, which turns `\r\n` and a lone `\r` into `\n`. The round-trip results read every generated file through it.
- The reasoning service is a function from prompt to `Try<string>`.
- `json.loads` is a function from text to `Decoded`, which is an object or a decode error.
- The generators the orchestrator calls are functions returning `Try<bool>`: success, failure, or an exception.

## Model

| member | source | states |
|---|---|---|
| Discovery.DiscoverCommands | scripts/sync-orchestrator/discovery.py:29-48 | With no directory, the command set is empty. Otherwise a name is in it exactly when it is the stem of a listed `*.md` entry. |
| Discovery.DiscoverSkills | scripts/sync-orchestrator/discovery.py:51-73 | With no directory, the skill set is empty. Otherwise it holds exactly the listed skill directories minus `template-skill`, `scripts` and `architecture`, so an excluded name never appears. |
| Discovery.ComputeGaps | scripts/sync-orchestrator/discovery.py:76-97 | `commands`/`skills` are strictly ascending enumerations of the input sets, with nothing added or dropped. `commands_without_skills` is exactly commands \ skills and `skills_without_commands` exactly skills \ commands, both strictly ascending. `total_gaps` is the sum of their lengths, which is also the size of the two set differences. |
| Discovery.GapListsDisjoint | scripts/sync-orchestrator/discovery.py:87-88 | No name is in both gap lists. |
| Discovery.NoGapsIffSynchronized | scripts/sync-orchestrator/discovery.py:87-89 | `total_gaps == 0` if and only if the command names equal the skill names. |
| Discovery.Discover | scripts/sync-orchestrator/discovery.py:100-121 | The result is the gap computation over the two discovered name sets. No excluded skill name is a skill or a gap. |
| Ordering.AscendingIsSorted | scripts/sync-orchestrator/discovery.py:87-93 | Any strictly ascending list with the elements of a set is `sorted(set)`, so the sorted enumeration is unique. |
| Ordering.SortedList | scripts/sync-orchestrator/discovery.py:87-93 | `sorted(set)` has the set's size and elements and is strictly ascending. |
| Ordering.Least | scripts/sync-orchestrator/discovery.py:87-93 | A non-empty set of names has a least element under Python's code-point string order. |
| Ordering.LessTransitive | scripts/sync-orchestrator/discovery.py:87-93 | Python's string order is transitive. |
| Ordering.LessTotal | scripts/sync-orchestrator/discovery.py:87-93 | Python's string order is total on distinct strings. |
| Paths.StemOfMarkdown | scripts/sync-orchestrator/discovery.py:44-46 | A command's name is its file name with the final `.md` removed. The exception is the file `.md`, whose stem is itself. |
| Paths.StemOfCommandFile | scripts/sync-orchestrator/skill_generator.py:33 | The stem of `<dir>/<name>.md` is `name`, the fallback skill name. |
| Paths.ParentOfSkillFile | scripts/sync-orchestrator/command_generator.py:34 | The name of the directory holding `<dir>/<name>/SKILL.md` is `name`, the fallback command name. |
| Paths.BaseName | scripts/sync-orchestrator/command_generator.py:34 | A path's last component holds no `/`. A name without `/` is its own base name. |
| Frontmatter.Block | scripts/sync-orchestrator/skill_generator.py:41-45 | The frontmatter pattern matches if and only if the text opens with `---`, whitespace containing a newline, and later `\n---`. The captured block is the one the regex engine's backtracking order picks. |
| Frontmatter.DescriptionValue | scripts/sync-orchestrator/skill_generator.py:45-47 | The description read from a block is single-line and stripped. It is empty when the block has no `description:` key. |
| Frontmatter.DescriptionStands | scripts/sync-orchestrator/skill_generator.py:45-47 | A non-empty description is text standing after the first `description:` key and its whitespace. Only whitespace follows it to the end of its line. |
| Frontmatter.ExtractDescription | scripts/sync-orchestrator/skill_generator.py:41-47 | With no frontmatter the description is empty. Otherwise it is the `description:` value of the block, stripped. |
| Frontmatter.DescriptionOfLine | scripts/sync-orchestrator/command_generator.py:42-48 | A block whose first key line is `description: d` yields `d` for any stripped single-line `d`. |
| Frontmatter.DescriptionOfEmptyLine | scripts/sync-orchestrator/skill_generator.py:45-47 | After an empty `description:` the whitespace runs on, so the next line's text becomes the description. |
| Frontmatter.OpensFrontmatter | scripts/sync-orchestrator/sync_orchestrator.py:343-345 | The validation pattern `^---\s*\n` holds if and only if the text opens with `---` followed by whitespace that contains a newline. |
| Frontmatter.BlockOpensFrontmatter | scripts/sync-orchestrator/sync_orchestrator.py:344 | Any text the description parser finds frontmatter in also passes the phase 3 check. |
| Frontmatter.BlockOfDocument | scripts/sync-orchestrator/skill_generator.py:41-45 | A document opening with `---\n` + x + `\n---`, where x does not start with whitespace and has no fence, has block x. |
| SkillGenerator.SkillDescription | scripts/sync-orchestrator/skill_generator.py:50-51 | The extracted description if non-empty. Otherwise `purpose` when the key exists, even if empty. Otherwise `Skill for /<name> command`. |
| SkillGenerator.ConceptSection | scripts/sync-orchestrator/skill_generator.py:105-111 | The Key Concepts section is empty exactly when there are no concepts. Otherwise it starts with its heading. |
| SkillGenerator.DependencySection | scripts/sync-orchestrator/skill_generator.py:113-119 | The Dependencies section is empty exactly when there are no dependencies. Otherwise it starts with its heading. |
| SkillGenerator.AppendUseCases | scripts/sync-orchestrator/skill_generator.py:69-75 | The loop appends one bullet per use case, in order, or the single default line for an empty list. |
| SkillGenerator.AppendWorkflow | scripts/sync-orchestrator/skill_generator.py:79-103 | The loop appends `### Step k: s` / `Execute: s` for each step, 1-based, or the three fixed steps for an empty list. |
| SkillGenerator.AppendConcepts | scripts/sync-orchestrator/skill_generator.py:105-111 | The loop appends the heading and one block per concept only when there are concepts. |
| SkillGenerator.AppendDependencies | scripts/sync-orchestrator/skill_generator.py:113-119 | The loop appends the heading and one bold bullet per dependency only when there are dependencies. |
| SkillGenerator.RenderSkill | scripts/sync-orchestrator/skill_generator.py:54-183 | The string built by `+=` equals the SKILL.md document function. |
| SkillGenerator.WriteSkill | scripts/sync-orchestrator/skill_generator.py:185-204 | A failing `mkdir` raises, because it is outside the handler. Otherwise the result is True exactly when `SKILL.md` is written, and False when the write fails. |
| SkillGenerator.GenerateSkillFromCommand | scripts/sync-orchestrator/skill_generator.py:32-204 | A read failure propagates. Otherwise the write outcome is that of the document built from the name, the extracted or fallback description and the intent. |
| SkillGenerator.SkillDocOpens | scripts/sync-orchestrator/skill_generator.py:54-58 | Every generated SKILL.md passes the phase 3 frontmatter check. |
| SkillGenerator.HeaderBlock | scripts/sync-orchestrator/skill_generator.py:54-58 | The frontmatter block parsed from a generated SKILL.md is exactly its `name`/`description`/`license` lines. |
| SkillGenerator.NameLineHasNoKey | scripts/sync-orchestrator/skill_generator.py:54-58 | A single-line skill name without `:` cannot put a `description:` key on the name line, so every such name is `KeyFreeName`. |
| RoundTrip.PlainNamePortable | scripts/sync-orchestrator/skill_generator.py:54-58 | A single-line skill name without `:` and without `\r` is `PortableName`, so it meets the requirement of every description round trip. |
| SkillGenerator.SkillDocDescription | scripts/sync-orchestrator/skill_generator.py:54-58 | A generated SKILL.md yields back its stripped single-line description. |
| SkillGenerator.EmptyDescriptionReadsLicense | scripts/sync-orchestrator/skill_generator.py:54-58 | A SKILL.md generated with an empty description yields `license: MIT` as its description. |
| SkillGenerator.UseCaseOccurs | scripts/sync-orchestrator/skill_generator.py:69-73 | Use case k's bullet stands after the bullets of use cases 0..k-1, so the bullets come in input order. |
| SkillGenerator.StepOccurs | scripts/sync-orchestrator/skill_generator.py:79-85 | Step k's `### Step k+1` block stands after the blocks of the earlier steps. |
| SkillGenerator.ConceptOccurs | scripts/sync-orchestrator/skill_generator.py:105-111 | Concept k's block stands after the heading and the earlier concepts' blocks. |
| SkillGenerator.DependencyOccurs | scripts/sync-orchestrator/skill_generator.py:113-119 | Dependency k's bullet stands after the heading and the earlier bullets. |
| SkillGenerator.UseCasesInSkillDoc | scripts/sync-orchestrator/skill_generator.py:69-73 | Every use case's bullet occurs in the whole SKILL.md. |
| SkillGenerator.StepsInSkillDoc | scripts/sync-orchestrator/skill_generator.py:79-85 | Every numbered step block occurs in the whole SKILL.md. |
| SkillGenerator.ConceptsInSkillDoc | scripts/sync-orchestrator/skill_generator.py:105-111 | Every concept block occurs in the whole SKILL.md. |
| SkillGenerator.DependenciesInSkillDoc | scripts/sync-orchestrator/skill_generator.py:113-119 | Every dependency bullet occurs in the whole SKILL.md. |
| CommandGenerator.CommandDescription | scripts/sync-orchestrator/command_generator.py:50-52 | The extracted description if non-empty. Otherwise `purpose` when the key exists. Otherwise `Execute <name> workflow`. |
| CommandGenerator.ListSection | scripts/sync-orchestrator/command_generator.py:75-81 | A bulleted section is empty exactly when its list is empty. Otherwise it starts with its heading and ends a line. |
| CommandGenerator.TakesArguments | scripts/sync-orchestrator/command_generator.py:86-87 | True if and only if some workflow step mentions `argument`, `parameter`, `input` or `specify`, ignoring case. |
| CommandGenerator.UsageLineIff | scripts/sync-orchestrator/command_generator.py:83-92 | The usage line is `/<name> <arguments>` when the keyword rule holds and `/<name>` otherwise. |
| CommandGenerator.WorkflowSection | scripts/sync-orchestrator/command_generator.py:102-107 | The numbered workflow is empty exactly when there are no steps. |
| CommandGenerator.AppendList | scripts/sync-orchestrator/command_generator.py:75-81 | The loop appends the heading and one line per element only when the list is non-empty. |
| CommandGenerator.AppendUsage | scripts/sync-orchestrator/command_generator.py:83-92 | The usage section is appended with the line the keyword rule selects. |
| CommandGenerator.AppendWorkflow | scripts/sync-orchestrator/command_generator.py:102-107 | The loop appends `k. s` for each step, 1-based, only when there are steps. |
| CommandGenerator.RenderCommand | scripts/sync-orchestrator/command_generator.py:54-130 | The string built by `+=` equals the command document function. |
| CommandGenerator.WriteCommand | scripts/sync-orchestrator/command_generator.py:132-145 | Never raises. The result is True exactly when the write succeeds. |
| CommandGenerator.GenerateCommandFromSkill | scripts/sync-orchestrator/command_generator.py:33-145 | A read failure propagates. Otherwise the write outcome is that of the document built from the name, the extracted or fallback description and the intent. |
| CommandGenerator.CommandDocOpens | scripts/sync-orchestrator/command_generator.py:55-57 | Every generated command opens with a frontmatter fence. |
| CommandGenerator.HeaderBlock | scripts/sync-orchestrator/command_generator.py:55-57 | The frontmatter block parsed from a generated command is exactly `description: D`. |
| CommandGenerator.CommandDocDescription | scripts/sync-orchestrator/command_generator.py:55-57 | A generated command yields back its stripped single-line description. |
| CommandGenerator.CommandDocEmptyDescription | scripts/sync-orchestrator/command_generator.py:55-57 | A command generated with an empty description yields the empty description. |
| CommandGenerator.ItemOccurs | scripts/sync-orchestrator/command_generator.py:75-115 | Element k's line stands in its section right after the heading and the lines of elements 0..k-1, so the lines come in input order. |
| CommandGenerator.StepOccurs | scripts/sync-orchestrator/command_generator.py:102-107 | Step k stands in the workflow as `k+1. s`, right after the heading and the numbered lines of steps 0..k-1, so the steps come in order. |
| CommandGenerator.UseCasesInCommandDoc | scripts/sync-orchestrator/command_generator.py:75-81 | Every use case's bullet occurs in the whole command. |
| CommandGenerator.ConceptsInCommandDoc | scripts/sync-orchestrator/command_generator.py:94-100 | Every key concept's bullet occurs in the whole command. |
| CommandGenerator.DependenciesInCommandDoc | scripts/sync-orchestrator/command_generator.py:109-115 | Every dependency's bullet occurs in the whole command. |
| CommandGenerator.StepsInCommandDoc | scripts/sync-orchestrator/command_generator.py:102-107 | Every numbered step occurs in the whole command. |
| CommandGenerator.UsageInCommandDoc | scripts/sync-orchestrator/command_generator.py:83-92 | The selected usage line occurs in the whole command. |
| RoundTrip.CommandToSkill | scripts/sync-orchestrator/skill_generator.py:41-51 | A skill generated from a generated command, read back in text mode, gets that command's description. This holds for any non-empty, stripped, single-line description without `\r`, whatever the rest of the file holds. |
| RoundTrip.SkillToCommand | scripts/sync-orchestrator/command_generator.py:42-52 | A command generated from a generated SKILL.md, read back in text mode, gets that skill's description. The skill name must be one line without `\r`, and its name line must hold no `description:` key. |
| RoundTrip.SkillCommandSkill | scripts/sync-orchestrator/skill_generator.py:41-67 | A description survives skill → command → skill. |
| RoundTrip.CommandSkillCommand | scripts/sync-orchestrator/command_generator.py:42-57 | A description survives command → skill → command. |
| RoundTrip.EmptySkillDescriptionLeaks | scripts/sync-orchestrator/command_generator.py:42-52 | A SKILL.md written with an empty description hands the next command `license: MIT` as its description. |
| RoundTrip.EmptyCommandDescriptionFallsBack | scripts/sync-orchestrator/skill_generator.py:41-51 | A command written with an empty description makes the next skill use its fallback description. |
| RoundTrip.EmptySkillHeaderReadsLicense | scripts/sync-orchestrator/command_generator.py:42-52 | Any file that opens with a skill header whose description is empty reads back `license: MIT` as its description, whatever follows. |
| RoundTrip.EmptyCommandHeaderReadsEmpty | scripts/sync-orchestrator/skill_generator.py:41-51 | Any file that opens with a command header whose description is empty reads back an empty description, whatever follows. |
| RoundTrip.SkillFromGeneratedCommand | scripts/sync-orchestrator/skill_generator.py:32-204 | `generate_skill_from_command` run on a generated command writes a SKILL.md carrying that command's description. |
| RoundTrip.CommandHeaderReadsBack | scripts/sync-orchestrator/skill_generator.py:36-37 | The frontmatter of a generated command reads back in text mode as written. Only the rest of the file is translated. |
| RoundTrip.SkillHeaderReadsBack | scripts/sync-orchestrator/command_generator.py:37-38 | The frontmatter of a generated SKILL.md reads back in text mode as written. Only the rest of the file is translated. |
| Text.ReadBack | scripts/sync-orchestrator/skill_generator.py:36-37 | Text read back in text mode holds no `\r` and is no longer than what was written. |
| Text.ReadBackConcat | scripts/sync-orchestrator/command_generator.py:37-38 | Text without `\r` reads back unchanged, and whatever follows it is read back on its own. |
| RoundTrip.CommandFromGeneratedSkill | scripts/sync-orchestrator/command_generator.py:33-145 | `generate_command_from_skill` run on a generated SKILL.md writes a command carrying that skill's description. |
| Intents.Truncate | scripts/sync-orchestrator/thoughtbox_client.py:148 | The embedded content is a prefix of the content, `min(len, 2000)` long. |
| Intents.Prompt | scripts/sync-orchestrator/thoughtbox_client.py:142-168 | The prompt is the fixed head, the truncated content and the fixed tail, so it embeds at most 2000 characters of content. |
| Intents.JsonSpan | scripts/sync-orchestrator/thoughtbox_client.py:176-177 | A span exists if and only if some `{` precedes some `}`. It runs from the first `{` to the last `}`, inclusive. |
| Intents.FromObject | scripts/sync-orchestrator/thoughtbox_client.py:190-199 | The Intent carries the given name and type. Missing keys default to `""`, `[]` and `{}`. Present keys are taken as they are. |
| Intents.ParseReply | scripts/sync-orchestrator/thoughtbox_client.py:176-212 | No span gives the fixed default data. A decode error gives the `Command for`/`Skill for` fallback with one "To be determined" use case. A decoded object gives the object's fields. |
| Intents.NoSpanIntent | scripts/sync-orchestrator/thoughtbox_client.py:179-188 | A reply without `{`…`}` yields the default purpose and the single default use case of its kind. |
| Intents.Analyze | scripts/sync-orchestrator/thoughtbox_client.py:130-294 | A failed reasoning call propagates. Otherwise the result is the parsed reply, named after the item and typed `command` or `skill`. |
| Intents.AsData | scripts/sync-orchestrator/sync_orchestrator.py:241-242 | The dictionary `asdict` hands to a generator carries every Intent field under its key. |
| Orchestrator.Tally | scripts/sync-orchestrator/sync_orchestrator.py:301-307 | `total_synced` is the sum of the counts. `success` holds if and only if there are no errors. Counts plus errors equal the number of steps. |
| Orchestrator.EachStepCounted | scripts/sync-orchestrator/sync_orchestrator.py:239-295 | Every generation step is one creation or one error. |
| Orchestrator.CommandFallback | scripts/sync-orchestrator/sync_orchestrator.py:155-164 | The fallback intent for a command carries its name and type `command`. |
| Orchestrator.SkillFallback | scripts/sync-orchestrator/sync_orchestrator.py:188-197 | The fallback intent for a skill carries its name and type `skill`. |
| Orchestrator.ExitCode | scripts/sync-orchestrator/sync_orchestrator.py:426 | The exit code is 0 if and only if the run succeeded, and 1 otherwise. |
| Orchestrator.AnalyzeNamesItsItems | scripts/sync-orchestrator/thoughtbox_client.py:190-192 | The client's analysis always names the item it was given and types it by the item's kind. |
| Orchestrator.SyncOrchestrator.constructor | scripts/sync-orchestrator/sync_orchestrator.py:41-75 | Keeps the configuration. Thoughtbox is used if and only if the client could be built. |
| Orchestrator.SyncOrchestrator.Analysis | scripts/sync-orchestrator/sync_orchestrator.py:138-153 | Without a client the analysis raises, which selects the fallback. With one it is the client's answer. |
| Orchestrator.SyncOrchestrator.ItemIntentName | scripts/sync-orchestrator/sync_orchestrator.py:134-197 | The intent recorded for an item carries its name and type, whether analysis succeeded or fell back. |
| Orchestrator.SyncOrchestrator.AnalyzeCommand | scripts/sync-orchestrator/sync_orchestrator.py:136-164 | The command loop body yields the analysis, or the fallback on any exception. |
| Orchestrator.SyncOrchestrator.AnalyzeSkill | scripts/sync-orchestrator/sync_orchestrator.py:169-197 | The skill loop body yields the analysis, or the fallback on any exception. |
| Orchestrator.SyncOrchestrator.AnalyzeCommands | scripts/sync-orchestrator/sync_orchestrator.py:134-164 | The command loop fills the dictionary with one entry per command gap. |
| Orchestrator.SyncOrchestrator.AnalyzeSkills | scripts/sync-orchestrator/sync_orchestrator.py:167-197 | The skill loop adds one entry per skill gap to the dictionary so far. |
| Orchestrator.SyncOrchestrator.PhaseOneReasoning | scripts/sync-orchestrator/sync_orchestrator.py:114-200 | Phase 1's dictionary is the command entries followed by the skill entries. |
| Orchestrator.SyncOrchestrator.MergedKeys | scripts/sync-orchestrator/sync_orchestrator.py:134-197 | Phase 1's keys are exactly the names in the two gap lists. |
| Orchestrator.SyncOrchestrator.IntentKeys | scripts/sync-orchestrator/sync_orchestrator.py:134-197 | Phase 1 has an entry for every gap and no other, so there are `total_gaps` intents. |
| Orchestrator.SyncOrchestrator.IntentValues | scripts/sync-orchestrator/sync_orchestrator.py:134-197 | Each entry is named after its key and typed `skill` exactly when the key is a skill gap. |
| Orchestrator.SyncOrchestrator.SkillSteps | scripts/sync-orchestrator/sync_orchestrator.py:231-260 | One outcome per command lacking a skill. |
| Orchestrator.SyncOrchestrator.CommandSteps | scripts/sync-orchestrator/sync_orchestrator.py:265-295 | One outcome per skill lacking a command. |
| Orchestrator.SyncOrchestrator.GenerateSkillFor | scripts/sync-orchestrator/sync_orchestrator.py:234-260 | One iteration: a dry-run creation, a creation, or one error for a False result or an exception. |
| Orchestrator.SyncOrchestrator.GenerateSkills | scripts/sync-orchestrator/sync_orchestrator.py:231-260 | The skill loop's counter and errors are those of the per-item outcomes. |
| Orchestrator.SyncOrchestrator.GenerateCommandFor | scripts/sync-orchestrator/sync_orchestrator.py:268-295 | One iteration: a dry-run creation, a creation, or one error for a False result or an exception. |
| Orchestrator.SyncOrchestrator.GenerateCommands | scripts/sync-orchestrator/sync_orchestrator.py:265-295 | The command loop's counter and errors are those of the per-item outcomes. |
| Orchestrator.SyncOrchestrator.PhaseTwoGeneration | scripts/sync-orchestrator/sync_orchestrator.py:202-307 | Phase 2's result tallies both loops. `total_synced` is the sum of the counts, and `success` holds if and only if there are no errors. |
| Orchestrator.SyncOrchestrator.DryRunCounts | scripts/sync-orchestrator/sync_orchestrator.py:231-271 | In a dry run, `skills_created` is the number of commands lacking skills and `commands_created` the number of skills lacking commands. There are no errors, and the run succeeds. |
| Orchestrator.SyncOrchestrator.GenerationAccountsForEveryGap | scripts/sync-orchestrator/sync_orchestrator.py:239-295 | Created counts plus errors equal `total_gaps`. |
| Orchestrator.SyncOrchestrator.Warnings | scripts/sync-orchestrator/sync_orchestrator.py:335-348 | No warnings if and only if every SKILL.md reads and opens with a frontmatter fence. There is at most one warning per skill. |
| Orchestrator.SyncOrchestrator.GeneratedSkillPasses | scripts/sync-orchestrator/sync_orchestrator.py:343-345 | A generated SKILL.md never draws a validation warning. |
| Orchestrator.SyncOrchestrator.PhaseThreeValidation | scripts/sync-orchestrator/sync_orchestrator.py:309-355 | A dry run skips validation. A missing skills directory raises. Otherwise the warnings are those of the listed skills. |
| Orchestrator.SyncOrchestrator.Run | scripts/sync-orchestrator/sync_orchestrator.py:357-412 | With no gaps the run returns zero counts, no errors and success. A failing temporary-directory `mkdir` or phase 3 listing raises. Otherwise the result is phase 2's tally over phase 1's intents. |

## Left out

- The reasoning service: `ThoughtboxClient.reason` and the client's transport are network calls with timeouts. The model takes the reply as a function from prompt to text-or-exception.
- `json.loads` is a foreign library. The model takes it as a function from text to an object or a decode error. A decoded span is always an object, because it starts with `{`.
- `json.dump` of each intent into the intents directory: its text is a parameter, and its write is a `Disk` effect.
- File-system work (`glob`, `iterdir`, `is_dir`, `exists`, `mkdir`, `open`, `read`, `write`) is passed in as listings and a `Disk` of read results and effects. The `Disk` is a snapshot, so a write does not change what later reads return.
- `Paths.Join`: pathlib's normalisation of `.`, `..` and repeated slashes is not modelled. Join only inserts one `/`.
- `CommandGenerator.TakesArguments`: the source lowercases `str(workflow_steps)`, the list's repr. The model lowercases each step. The two differ only for steps holding characters the repr escapes.
- Lowercasing and `.title()` are modelled for ASCII letters only. Unicode case mapping is not.
- The second discovery in phase 3 only prints counts, so it is left out. Phase 3's warnings are returned rather than printed.
- `print`, logging, banners, `argparse`, `main` and the `.sync-temp` cleanup are left out. They are output only.
- `parallel` is stored but never bounds anything. No scheduler is modelled, because all calls are awaited in sequence.
- `Orchestrator.SyncOrchestrator.constructor`: whether the client can be built is an input (`Try`). Its environment and connection checks are not part of this model.
- `Intents.JsonObject`: the decode oracle returns each intent key as absent or as a value of the type the prompt asks for: a string `purpose`, lists of strings, a string map. The source passes any JSON value through `data.get(...)`. So a `null` purpose, which renders as `description: None`, is not modelled. Nor is a string given as a list, which renders one bullet per character, or a number where a list is expected, which makes a generator raise `TypeError`. Because of this typing, the model's generators raise only on a failed read or `mkdir`.
- The analyzer and the generators called by the orchestrator are inputs. Their own models are `Intents.Analyze` and the two generator modules, and `Orchestrator.AnalyzeNamesItsItems` connects the first to the orchestrator's requirement.
