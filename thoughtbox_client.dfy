/** The intent analysis of a command or a skill: the prompt sent to the reasoning server, and the
    tolerant parsing of its reply into an `Intent`. The server call is an oracle that returns a
    reply or raises; JSON decoding is an oracle that returns an object or a decode error. */
module Intents {
  import opened Common
  import opened Text

  /** The `type` field of an intent: "command" or "skill". */
  datatype ItemKind = CommandItem | SkillItem

  /** The analysed intent of one command or skill. */
  datatype Intent = Intent(
    name: string,
    kind: ItemKind,
    purpose: string,
    useCases: seq<string>,
    keyConcepts: seq<string>,
    workflowSteps: seq<string>,
    dependencies: seq<string>,
    suggestedStructure: map<string, string>)

  /** A decoded JSON object, seen through the keys an intent reads; an absent key is None. */
  datatype JsonObject = JsonObject(
    purpose: Option<string>,
    useCases: Option<seq<string>>,
    keyConcepts: Option<seq<string>>,
    workflowSteps: Option<seq<string>>,
    dependencies: Option<seq<string>>,
    suggestedStructure: Option<map<string, string>>)

  /** What `json.loads` does with a span that starts with '{': an object, or a decode error. */
  datatype Decoded = Decoded(obj: JsonObject) | DecodeError

  /** How many characters of a file the prompt embeds. */
  const ContentLimit: nat := 2000

  /** `content[:2000]`. */
  function Truncate(content: string): (r: string)
    ensures |r| <= ContentLimit && r <= content
    ensures |r| == if |content| <= ContentLimit then |content| else ContentLimit
  {
    if |content| <= ContentLimit then content else content[..ContentLimit]
  }

  /** The part of the prompt before the embedded content. */
  function PromptHead(kind: ItemKind, name: string): string {
    match kind
    case CommandItem =>
      "\nAnalyze this slash command and deeply understand its intent:\n\nCommand: /" + name
      + "\n\nContent:\n"
    case SkillItem =>
      "\nAnalyze this Agent Skill and deeply understand its intent:\n\nSkill: " + name
      + "\n\nContent:\n"
  }

  /** The part of the command prompt after the embedded content. */
  const CommandPromptTail: string :=
      "\n\nYour task:\n"
      + "1. What is the core PURPOSE of this command?\n"
      + "2. What USE CASES does it serve?\n"
      + "3. What are the KEY CONCEPTS the user needs to understand?\n"
      + "4. What are the WORKFLOW STEPS when using this command?\n"
      + "5. What DEPENDENCIES does it have (tools, APIs, knowledge)?\n"
      + "6. How should the corresponding SKILL be structured?\n\n"
      + "Think deeply about the \"why\" behind this command, not just the \"what\".\n"
      + "Output your analysis as structured JSON with these keys:\n"
      + "- purpose: string\n"
      + "- use_cases: array of strings\n"
      + "- key_concepts: array of strings\n"
      + "- workflow_steps: array of strings\n"
      + "- dependencies: array of strings\n"
      + "- suggested_structure: object with title, sections, examples\n\n"
      + "Be concise but thorough. Focus on enabling skill generation.\n"

  /** The part of the skill prompt after the embedded content. */
  const SkillPromptTail: string :=
      "\n\nYour task:\n"
      + "1. What is the core PURPOSE of this skill?\n"
      + "2. What USE CASES does it enable?\n"
      + "3. What are the KEY CONCEPTS it teaches?\n"
      + "4. What are the typical WORKFLOW STEPS when using this skill?\n"
      + "5. What DEPENDENCIES does it have (tools, knowledge, APIs)?\n"
      + "6. How should the corresponding SLASH COMMAND be structured?\n\n"
      + "Think about how to distill this skill into a concise, actionable command.\n"
      + "Output your analysis as structured JSON with these keys:\n"
      + "- purpose: string\n"
      + "- use_cases: array of strings\n"
      + "- key_concepts: array of strings\n"
      + "- workflow_steps: array of strings\n"
      + "- dependencies: array of strings\n"
      + "- suggested_structure: object with command_name, usage_example, key_sections\n\n"
      + "Be concise but thorough. Focus on enabling command generation.\n"

  function PromptTail(kind: ItemKind): string {
    match kind
    case CommandItem => CommandPromptTail
    case SkillItem => SkillPromptTail
  }

  /** The prompt `analyze_command` / `analyze_skill` sends: the fixed text around the name and the
      first 2000 characters of the file. */
  function Prompt(kind: ItemKind, content: string, name: string): (r: string)
    ensures |r| == |PromptHead(kind, name)| + |Truncate(content)| + |PromptTail(kind)|
    ensures |r| <= |PromptHead(kind, name)| + ContentLimit + |PromptTail(kind)|
    ensures var h := |PromptHead(kind, name)|; var n := |Truncate(content)|;
      r[..h] == PromptHead(kind, name) && r[h..h + n] == content[..n] && r[h + n..] == PromptTail(kind)
  {
    var h, t, tail := PromptHead(kind, name), Truncate(content), PromptTail(kind);
    assert t == content[..|t|];
    ThreeParts(h, t, tail);
    h + t + tail
  }

  /** The three parts of a concatenation can be read back from it. */
  lemma ThreeParts(a: string, b: string, c: string)
    ensures |a + b + c| == |a| + |b| + |c|
    ensures (a + b + c)[..|a|] == a && (a + b + c)[|a|..|a| + |b|] == b && (a + b + c)[|a| + |b|..] == c
  {
  }

  /** The text `re.search(r'\{[\s\S]*\}', reply)` matches: from the first '{' to the last '}',
      when a '}' follows the first '{'. */
  function JsonSpan(reply: string): (r: Option<string>)
    ensures r.Some? <==> exists i, j :: 0 <= i < j < |reply| && reply[i] == '{' && reply[j] == '}'
    ensures r.Some? ==> exists i, j ::
      && 0 <= i < j < |reply| && r.value == reply[i..j + 1]
      && reply[i] == '{' && '{' !in reply[..i] && reply[j] == '}' && '}' !in reply[j + 1..]
  {
    match FirstIndexOf(reply, '{')
    case None => None
    case Some(i) =>
      match LastIndexOf(reply, '}')
      case None => None
      case Some(j) =>
        if i < j then Some(reply[i..j + 1])
        else
          None
  }

  /** The object used when the reply holds no span. */
  function NoSpanObject(kind: ItemKind): JsonObject {
    JsonObject(
      Some(match kind case CommandItem => "Extracted from command documentation"
                      case SkillItem => "Extracted from skill documentation"),
      Some([match kind case CommandItem => "General command usage"
                       case SkillItem => "General skill usage"]),
      Some([]), Some([]), Some([]), Some(map[]))
  }

  /** The intent returned when the span does not decode. */
  function DecodeFallback(kind: ItemKind, name: string): Intent {
    match kind
    case CommandItem =>
      Intent(name, kind, "Command for " + name, ["To be determined from command content"],
             [], [], [], map[])
    case SkillItem =>
      Intent(name, kind, "Skill for " + name, ["To be determined from skill content"],
             [], [], [], map[])
  }

  /** The intent built from a decoded object, each missing key taking its empty default. */
  function FromObject(kind: ItemKind, name: string, obj: JsonObject): (r: Intent)
    ensures r.name == name && r.kind == kind
    ensures obj.purpose.None? ==> r.purpose == ""
    ensures obj.purpose.Some? ==> r.purpose == obj.purpose.value
    ensures obj.useCases.None? ==> r.useCases == []
    ensures obj.useCases.Some? ==> r.useCases == obj.useCases.value
    ensures obj.keyConcepts.None? ==> r.keyConcepts == []
    ensures obj.keyConcepts.Some? ==> r.keyConcepts == obj.keyConcepts.value
    ensures obj.workflowSteps.None? ==> r.workflowSteps == []
    ensures obj.workflowSteps.Some? ==> r.workflowSteps == obj.workflowSteps.value
    ensures obj.dependencies.None? ==> r.dependencies == []
    ensures obj.dependencies.Some? ==> r.dependencies == obj.dependencies.value
    ensures obj.suggestedStructure.None? ==> r.suggestedStructure == map[]
    ensures obj.suggestedStructure.Some? ==> r.suggestedStructure == obj.suggestedStructure.value
  {
    Intent(name, kind, obj.purpose.GetOr(""), obj.useCases.GetOr([]), obj.keyConcepts.GetOr([]),
           obj.workflowSteps.GetOr([]), obj.dependencies.GetOr([]), obj.suggestedStructure.GetOr(map[]))
  }

  /** The parsing half of `analyze_command` / `analyze_skill`: the intent made from a reply. */
  function ParseReply(kind: ItemKind, name: string, reply: string, decode: string -> Decoded): (r: Intent)
    ensures r.name == name && r.kind == kind
    ensures JsonSpan(reply).None? ==> r == FromObject(kind, name, NoSpanObject(kind))
    ensures JsonSpan(reply).Some? && decode(JsonSpan(reply).value).DecodeError? ==>
      r == DecodeFallback(kind, name)
    ensures JsonSpan(reply).Some? && decode(JsonSpan(reply).value).Decoded? ==>
      r == FromObject(kind, name, decode(JsonSpan(reply).value).obj)
  {
    match JsonSpan(reply)
    case None => FromObject(kind, name, NoSpanObject(kind))
    case Some(span) =>
      match decode(span)
      case DecodeError => DecodeFallback(kind, name)
      case Decoded(obj) => FromObject(kind, name, obj)
  }

  /** A reply without a span gives the fixed default intent. */
  lemma NoSpanIntent(kind: ItemKind, name: string, reply: string, decode: string -> Decoded)
    requires forall i, j :: 0 <= i < j < |reply| ==> !(reply[i] == '{' && reply[j] == '}')
    ensures var r := ParseReply(kind, name, reply, decode);
      && r.purpose == (if kind == CommandItem then "Extracted from command documentation"
                       else "Extracted from skill documentation")
      && r.useCases == [if kind == CommandItem then "General command usage" else "General skill usage"]
      && r.keyConcepts == [] && r.workflowSteps == [] && r.dependencies == []
      && r.suggestedStructure == map[]
  {
  }

  /** `analyze_command` (kind CommandItem) / `analyze_skill` (kind SkillItem): ask the server, then
      parse; an exception from the server call propagates. */
  function Analyze(kind: ItemKind, content: string, name: string,
                   reason: string -> Try<string>, decode: string -> Decoded): (r: Try<Intent>)
    ensures r.Raised? <==> reason(Prompt(kind, content, name)).Raised?
    ensures r.Raised? ==> r.message == reason(Prompt(kind, content, name)).message
    ensures r.Ok? ==> r.value.name == name && r.value.kind == kind
    ensures r.Ok? ==> r.value == ParseReply(kind, name, reason(Prompt(kind, content, name)).value, decode)
  {
    match reason(Prompt(kind, content, name))
    case Raised(e) => Raised(e)
    case Ok(reply) => Ok(ParseReply(kind, name, reply, decode))
  }

  /** The dictionary a generator receives, seen through the keys it reads; an absent key is None. */
  datatype IntentData = IntentData(
    name: Option<string>,
    purpose: Option<string>,
    useCases: Option<seq<string>>,
    keyConcepts: Option<seq<string>>,
    workflowSteps: Option<seq<string>>,
    dependencies: Option<seq<string>>)

  /** `asdict(intent)`: every key is present. */
  function AsData(intent: Intent): (d: IntentData)
    ensures d.name == Some(intent.name) && d.purpose == Some(intent.purpose)
    ensures d.useCases == Some(intent.useCases) && d.keyConcepts == Some(intent.keyConcepts)
    ensures d.workflowSteps == Some(intent.workflowSteps) && d.dependencies == Some(intent.dependencies)
  {
    IntentData(Some(intent.name), Some(intent.purpose), Some(intent.useCases),
               Some(intent.keyConcepts), Some(intent.workflowSteps), Some(intent.dependencies))
  }

  /** `{}`: the dictionary passed when there is no intent. */
  const NoIntentData: IntentData := IntentData(None, None, None, None, None, None)
}
