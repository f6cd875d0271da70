/** The fixed table from tool name to system prompt, and how a tool name
    found in a request is looked up in it. */
module Prompts {
  import opened Wrappers
  import opened Js

  /** The four tools the route knows. */
  datatype Tool = CodeEvaluation | CodeEvaluationGrade | CodeAnalysis | QcmGenerator

  /** The key under which each tool's prompt is filed. */
  function Name(t: Tool): string {
    match t
    case CodeEvaluation => "code-evaluation"
    case CodeEvaluationGrade => "code-evaluation-grade"
    case CodeAnalysis => "code-analysis"
    case QcmGenerator => "qcm-generator"
  }

  /** The tool filed under `name`, if any (own keys of the table only). */
  function ToolNamed(name: string): (t: Option<Tool>)
    ensures t.Some? ==> Name(t.value) == name
    ensures t.None? ==> forall k: Tool :: Name(k) != name
  {
    if name == "code-evaluation" then Some(CodeEvaluation)
    else if name == "code-evaluation-grade" then Some(CodeEvaluationGrade)
    else if name == "code-analysis" then Some(CodeAnalysis)
    else if name == "qcm-generator" then Some(QcmGenerator)
    else None
  }

  /** Every tool is found again under its own name. */
  lemma ToolNamedInvertsName(t: Tool)
    ensures ToolNamed(Name(t)) == Some(t)
  {
  }

  /** The prompt sent as the system message for each tool, character for
      character (including the indentation of the continuation lines). */
  function Prompt(t: Tool): (p: string)
    ensures p != ""
  {
    match t
    case CodeEvaluation => CodeEvaluationPrompt
    case CodeEvaluationGrade => CodeEvaluationGradePrompt
    case CodeAnalysis => CodeAnalysisPrompt
    case QcmGenerator => QcmGeneratorPrompt
  }

  /** Different tools have different prompts. */
  lemma PromptsDistinct(t: Tool, u: Tool)
    requires t != u
    ensures Prompt(t) != Prompt(u)
  {
    assert |CodeEvaluationPrompt| == 565 && |CodeEvaluationGradePrompt| == 625;
    assert |CodeAnalysisPrompt| == 753 && |QcmGeneratorPrompt| == 964;
  }

  /** `systemPrompts[tool]` read as an own-key lookup: a prompt exactly for the
      four tool names, and nothing for any other string. */
  function SystemPrompt(name: string): (p: Option<string>)
    ensures p.Some? <==> exists t: Tool :: Name(t) == name
    ensures p.Some? ==> p.value != "" && p.value == Prompt(ToolNamed(name).value)
  {
    match ToolNamed(name)
    case Some(t) => Some(Prompt(t))
    case None => None
  }
  const CodeEvaluationPrompt: string := @"Tu es un expert en évaluation de code. Génère exactement 10 questions pertinentes sur le code fourni. 
      Les questions doivent tester la compréhension, la logique, les bonnes pratiques et les concepts utilisés.
      Retourne UNIQUEMENT un objet JSON valide avec cette structure:
      {
        ""questions"": [
          {
            ""id"": 1,
            ""question"": ""Question claire et précise"",
            ""type"": ""open"",
            ""difficulty"": ""facile|moyen|difficile"",
            ""points"": 10
          }
        ],
        ""total_points"": 100
      }"
  const CodeEvaluationGradePrompt: string := @"Tu es un expert en évaluation de code. Évalue les réponses fournies aux questions sur le code.
      Pour chaque réponse, donne une note de 0 à 10 points et un commentaire constructif.
      Retourne UNIQUEMENT un objet JSON valide avec cette structure:
      {
        ""evaluations"": [
          {
            ""question_id"": 1,
            ""score"": 8,
            ""max_score"": 10,
            ""feedback"": ""Commentaire détaillé sur la réponse""
          }
        ],
        ""total_score"": 85,
        ""total_possible"": 100,
        ""percentage"": 85,
        ""general_feedback"": ""Commentaire général sur l'évaluation""
      }"
  const CodeAnalysisPrompt: string := @"Tu es un expert en analyse de code. Analyse le code fourni et les spécifications.
      Identifie les améliorations possibles, les problèmes potentiels et génère des questions d'aide.
      Retourne UNIQUEMENT un objet JSON valide avec cette structure:
      {
        ""analysis"": {
          ""strengths"": [""Points forts du code""],
          ""weaknesses"": [""Points à améliorer""],
          ""suggestions"": [""Recommandations concrètes""]
        },
        ""compliance"": {
          ""score"": 85,
          ""details"": ""Analyse de conformité aux spécifications""
        },
        ""help_questions"": [
          {
            ""question"": ""Question d'aide pour comprendre le code"",
            ""context"": ""Contexte de la question""
          }
        ]
      }"
  const QcmGeneratorPrompt: string := @"Tu es un expert en création de QCM. Génère des questions à choix multiples basées sur le sujet fourni.
      Chaque question doit tester les compétences et connaissances essentielles du sujet.
      Retourne UNIQUEMENT un objet JSON valide avec cette structure:
      {
        ""questions"": [
          {
            ""id"": 1,
            ""question"": ""Question claire"",
            ""options"": [
              {""id"": ""A"", ""text"": ""Option A""},
              {""id"": ""B"", ""text"": ""Option B""},
              {""id"": ""C"", ""text"": ""Option C""},
              {""id"": ""D"", ""text"": ""Option D""}
            ],
            ""correct_answer"": ""A"",
            ""explanation"": ""Explication de la bonne réponse"",
            ""difficulty"": ""facile|moyen|difficile"",
            ""competency"": ""Compétence testée""
          }
        ],
        ""metadata"": {
          ""subject"": ""Sujet du QCM"",
          ""total_questions"": 20,
          ""estimated_time"": ""30 minutes""
        }
      }"

  // ---------------------------------------------------------------------
  // The lookup as the route writes it. `systemPrompts` is an object literal,
  // so `systemPrompts[tool]` also finds the members every object inherits
  // from Object.prototype. All of them are truthy, so the route prepends a
  // system message for them too.

  /** The names an object literal inherits from Object.prototype. */
  const InheritedNames: set<string> := {
    "constructor", "hasOwnProperty", "isPrototypeOf", "propertyIsEnumerable",
    "toLocaleString", "toString", "valueOf", "__defineGetter__",
    "__defineSetter__", "__lookupGetter__", "__lookupSetter__", "__proto__"
  }

  /** What `systemPrompts[name]` yields: an own prompt, an inherited method,
      or (for `__proto__`) Object.prototype itself. */
  datatype Found = OwnPrompt(text: string) | InheritedMethod(name: string) | PrototypeObject

  function LookupAsWritten(name: string): (r: Option<Found>)
    ensures r.Some? <==> (exists t: Tool :: Name(t) == name) || name in InheritedNames
  {
    match ToolNamed(name)
    case Some(t) => Some(OwnPrompt(Prompt(t)))
    case None =>
      if name == "__proto__" then Some(PrototypeObject)
      else if name in InheritedNames then Some(InheritedMethod(name))
      else None
  }

  /** A chat message as `JSON.stringify` puts it on the wire: a content that
      is a function is dropped, Object.prototype becomes `{}`. */
  datatype WireMessage = WireMessage(role: string, content: Option<Json>)

  /** The system message the route puts first for a found entry. */
  function WireSystemMessage(f: Found): (m: WireMessage)
    ensures m.role == "system"
    ensures m.content.Some? <==> !f.InheritedMethod?
  {
    match f
    case OwnPrompt(text) => WireMessage("system", Some(JString(text)))
    case InheritedMethod(_) => WireMessage("system", None)
    case PrototypeObject => WireMessage("system", Some(JObject(map[])))
  }

  /** `tool && systemPrompts[tool]`, as written: the system messages the route
      prepends for a tool name (none or one). */
  function PrependedAsWritten(tool: Option<string>): (ms: seq<WireMessage>)
    ensures |ms| <= 1
    ensures ms != [] <==> tool.Some? && tool.value != "" && LookupAsWritten(tool.value).Some?
    ensures ms != [] ==> ms == [WireSystemMessage(LookupAsWritten(tool.value).value)]
  {
    if tool.Some? && tool.value != "" && LookupAsWritten(tool.value).Some?
    then [WireSystemMessage(LookupAsWritten(tool.value).value)]
    else []
  }

  /** The discrepancy: a request with tool "toString" gets a system message
      with no content at all, where an unknown tool should get none. */
  lemma InheritedNameGetsSystemMessage()
    ensures PrependedAsWritten(Some("toString")) == [WireMessage("system", None)]
    ensures PrependedAsWritten(Some("__proto__")) == [WireMessage("system", Some(JObject(map[])))]
    ensures SystemPrompt("toString") == None && SystemPrompt("__proto__") == None
  {
  }

  /** The discrepancy holds for every inherited name: each of the twelve
      gets a system message put in front, though no tool has that name. */
  lemma EveryInheritedNameGetsSystemMessage(name: string)
    requires name in InheritedNames
    ensures PrependedAsWritten(Some(name)) != []
    ensures SystemPrompt(name).None?
  {
  }

  /** For the four tool names the as-written lookup and the own-key lookup
      agree; they differ exactly on the inherited names. */
  lemma AsWrittenAgreesOnToolNames(name: string)
    ensures SystemPrompt(name).Some? ==> LookupAsWritten(name) == Some(OwnPrompt(SystemPrompt(name).value))
    ensures (LookupAsWritten(name).Some? && SystemPrompt(name).None?) <==> name in InheritedNames
  {
  }
}
