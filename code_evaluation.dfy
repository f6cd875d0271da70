/** The code-evaluation page: questions generated about a piece of code,
    the student's free-text answers, and their grading, both through the AI
    route. The page's React state is the class `CodeEvaluationPage`; each
    handler is a method whose effect is a transition function on
    `PageState`. */
module CodeEvaluation {
  import opened Wrappers
  import opened Js
  import AiRoute
  import ApiClient
  import Prompts

  datatype Step = Upload | QuestionsStep | ResultsStep

  datatype Question = Question(id: int, question: string, kind: string, difficulty: string, points: real)

  /** `{...q, student_answer}`: a question with the answer sent for grading. */
  datatype AnsweredQuestion = AnsweredQuestion(question: Question, studentAnswer: string)

  datatype Evaluation = Evaluation(questionId: int, score: real, maxScore: real, feedback: string)

  datatype EvaluationResult = EvaluationResult(
    evaluations: seq<Evaluation>,
    totalScore: real,
    totalPossible: real,
    percentage: real,
    generalFeedback: string)

  const BlankCode: string := "Veuillez entrer du code à évaluer"
  const GenerationFailed: string := "Erreur lors de la génération"
  const EvaluationFailed: string := "Erreur lors de l'évaluation"
  const QuestionsMarker: string := "questions"
  const EvaluationsMarker: string := "evaluations"
  const DefaultLanguage: string := "javascript"

  datatype PageState = PageState(
    step: Step,
    code: string,
    language: string,
    questions: seq<Question>,
    answers: map<int, string>,
    error: string,
    result: Option<EvaluationResult>)

  const Initial: PageState := PageState(Upload, "", DefaultLanguage, [], map[], "", None)

  // ------------------------------------------------------------------
  // The two requests.

  function QuestionsContent(language: string, code: string): string {
    "Analyse ce code " + language + " et génère 10 questions d'évaluation:\n\n```" + language + "\n" + code + "\n```"
  }

  function QuestionsRequest(language: string, code: string): AiRoute.Request {
    AiRoute.Request(Some(ApiClient.PageModel),
                    Some([AiRoute.Message(AiRoute.User, QuestionsContent(language, code))]),
                    Some(0.5), None, Some(Prompts.Name(Prompts.CodeEvaluation)))
  }

  /** `questions.map(q => ({...q, student_answer: answers[q.id] || ''}))`:
      one entry per question, in order, with the recorded answer or the
      empty string. */
  function Join(questions: seq<Question>, answers: map<int, string>): (j: seq<AnsweredQuestion>)
    ensures |j| == |questions|
    ensures forall i :: 0 <= i < |questions| ==>
              j[i].question == questions[i]
              && j[i].studentAnswer == if questions[i].id in answers then answers[questions[i].id] else ""
  {
    seq(|questions|, i requires 0 <= i < |questions| =>
      AnsweredQuestion(questions[i], if questions[i].id in answers then answers[questions[i].id] else ""))
  }

  function GradingContent(language: string, code: string, answersJson: string): string {
    "Code original:\n```" + language + "\n" + code + "\n```\n\nQuestions et réponses de l'étudiant:\n"
    + answersJson + "\n\nÉvalue chaque réponse et donne une note détaillée."
  }

  /** The grading request; `stringify` is `JSON.stringify(_, null, 2)`. */
  function GradingRequest(language: string, code: string, questions: seq<Question>, answers: map<int, string>,
                          stringify: seq<AnsweredQuestion> -> string): AiRoute.Request {
    AiRoute.Request(Some(ApiClient.PageModel),
                    Some([AiRoute.Message(AiRoute.User,
                                          GradingContent(language, code, stringify(Join(questions, answers))))]),
                    Some(0.5), None, Some(Prompts.Name(Prompts.CodeEvaluationGrade)))
  }

  /** The route accepts both requests and puts the matching system prompt
      in front of the page's message. */
  lemma RequestsCompose(s: PageState, stringify: seq<AnsweredQuestion> -> string)
    ensures var u := AiRoute.Compose(QuestionsRequest(s.language, s.code));
            u.Some? && u.value.messages ==
              [AiRoute.Message(AiRoute.System, Prompts.Prompt(Prompts.CodeEvaluation)),
               AiRoute.Message(AiRoute.User, QuestionsContent(s.language, s.code))]
    ensures var u := AiRoute.Compose(GradingRequest(s.language, s.code, s.questions, s.answers, stringify));
            u.Some? && u.value.messages ==
              [AiRoute.Message(AiRoute.System, Prompts.Prompt(Prompts.CodeEvaluationGrade)),
               AiRoute.Message(AiRoute.User, GradingContent(s.language, s.code, stringify(Join(s.questions, s.answers))))]
  {
    var r := QuestionsRequest(s.language, s.code);
    assert AiRoute.FinalMessages(r.tool, r.messages.value)[1..] == r.messages.value;
    var g := GradingRequest(s.language, s.code, s.questions, s.answers, stringify);
    assert AiRoute.FinalMessages(g.tool, g.messages.value)[1..] == g.messages.value;
  }

  // ------------------------------------------------------------------
  // Transitions.

  /** `generateQuestions`; `api` is the reply for a request and `decode`
      reads `data.questions` as typed questions. */
  function Generated(s: PageState, api: AiRoute.Request -> ApiClient.Reply, decode: Json -> seq<Question>): PageState {
    if IsBlank(s.code) then s.(error := BlankCode)
    else QuestionsLoaded(s, ApiClient.Accept(api(QuestionsRequest(s.language, s.code)), QuestionsMarker, GenerationFailed), decode)
  }

  /** The page once the reply to the questions request is read. */
  function QuestionsLoaded(s: PageState, reply: Result<Json>, decode: Json -> seq<Question>): PageState {
    match reply
    case Ok(data) => s.(questions := decode(data), step := QuestionsStep, error := "")
    case Err(message) => s.(error := message)
  }

  /** `evaluateAnswers`; `decode` reads `data` as an evaluation result. */
  function Evaluated(s: PageState, api: AiRoute.Request -> ApiClient.Reply, stringify: seq<AnsweredQuestion> -> string,
                     decode: Json -> EvaluationResult): PageState {
    match ApiClient.Accept(api(GradingRequest(s.language, s.code, s.questions, s.answers, stringify)), EvaluationsMarker, EvaluationFailed)
    case Ok(data) => s.(result := Some(decode(data)), step := ResultsStep, error := "")
    case Err(message) => s.(error := message)
  }

  /** The answer text area of one question. */
  function Edited(s: PageState, questionId: int, text: string): PageState {
    s.(answers := s.answers[questionId := text])
  }

  /** `resetEvaluation`, which keeps the chosen language. */
  function Reset(s: PageState): PageState {
    Initial.(language := s.language)
  }

  /** The evaluate button, disabled while the answer map has no entry. */
  predicate CanEvaluate(s: PageState) {
    s.step == QuestionsStep && |s.answers| > 0
  }

  /** The result badge: a pass is at least 70% of the question's points. */
  predicate Passes(e: Evaluation) {
    e.score >= e.maxScore * 0.7
  }

  // ------------------------------------------------------------------
  // Properties.

  /** For whole-number scores the badge rule is `10 * score >= 7 * max_score`. */
  lemma PassesIntegerForm(questionId: int, score: int, maxScore: int, feedback: string)
    ensures Passes(Evaluation(questionId, score as real, maxScore as real, feedback)) <==> 10 * score >= 7 * maxScore
  {
    assert (score as real >= maxScore as real * 0.7) <==> (10.0 * score as real >= 7.0 * maxScore as real);
  }

  /** Blank code sets the error and sends nothing; otherwise the page moves
      to the questions exactly when the reply carries `data.questions`, and
      a failure only sets the message. The answers are kept either way. */
  lemma GenerationOutcome(s: PageState, api: AiRoute.Request -> ApiClient.Reply, decode: Json -> seq<Question>)
    ensures IsBlank(s.code) ==> Generated(s, api, decode) == s.(error := BlankCode)
    ensures !IsBlank(s.code) ==>
              var r := ApiClient.Accept(api(QuestionsRequest(s.language, s.code)), QuestionsMarker, GenerationFailed);
              Generated(s, api, decode) ==
                if r.Ok? then s.(questions := decode(r.value), step := QuestionsStep, error := "")
                else s.(error := r.error)
    ensures Generated(s, api, decode).answers == s.answers
  {
  }

  /** From the questions step, the page reaches the results exactly when the
      reply carries `data.evaluations`; otherwise the step is unchanged. */
  lemma EvaluationReachesResultsIff(s: PageState, api: AiRoute.Request -> ApiClient.Reply,
                                    stringify: seq<AnsweredQuestion> -> string, decode: Json -> EvaluationResult)
    requires s.step == QuestionsStep
    ensures Evaluated(s, api, stringify, decode).step == ResultsStep <==>
              ApiClient.Accept(api(GradingRequest(s.language, s.code, s.questions, s.answers, stringify)), EvaluationsMarker, EvaluationFailed).Ok?
    ensures Evaluated(s, api, stringify, decode).step != ResultsStep ==>
              Evaluated(s, api, stringify, decode) ==
                s.(error := ApiClient.Accept(api(GradingRequest(s.language, s.code, s.questions, s.answers, stringify)), EvaluationsMarker, EvaluationFailed).error)
  {
  }

  /** Editing one answer changes only that question's entry of the answer
      map and of the joined list sent for grading. */
  lemma EditTouchesOnlyItsEntry(s: PageState, questionId: int, text: string)
    ensures var t := Edited(s, questionId, text);
            t.(answers := s.answers) == s
            && questionId in t.answers && t.answers[questionId] == text
            && (forall k :: k != questionId ==> (k in t.answers <==> k in s.answers))
            && (forall k :: k != questionId && k in s.answers ==> t.answers[k] == s.answers[k])
    ensures var before := Join(s.questions, s.answers);
            var after := Join(s.questions, Edited(s, questionId, text).answers);
            forall i :: 0 <= i < |s.questions| ==>
              after[i] == if s.questions[i].id == questionId then before[i].(studentAnswer := text) else before[i]
  {
  }

  /** The join reads the answer map only at the questions' ids. */
  lemma JoinReadsOnlyQuestionIds(questions: seq<Question>, a: map<int, string>, b: map<int, string>)
    requires forall q :: q in questions ==> (q.id in a <==> q.id in b) && (q.id in a ==> a[q.id] == b[q.id])
    ensures Join(questions, a) == Join(questions, b)
  {
    forall i | 0 <= i < |questions|
      ensures Join(questions, a)[i] == Join(questions, b)[i]
    {
      assert questions[i] in questions;
    }
  }

  /** An answer typed and then erased still enables the evaluate button,
      and is sent for grading as the empty string. */
  lemma ErasedAnswerEnablesEvaluation(s: PageState, i: nat)
    requires s.step == QuestionsStep && i < |s.questions|
    ensures CanEvaluate(Edited(s, s.questions[i].id, ""))
    ensures Join(s.questions, Edited(s, s.questions[i].id, "").answers)[i].studentAnswer == ""
  {
    assert s.questions[i].id in Edited(s, s.questions[i].id, "").answers.Keys;
  }

  /** Reset returns to the upload step with everything but the language
      cleared. */
  lemma ResetClears(s: PageState)
    ensures Reset(s) == PageState(Upload, "", s.language, [], map[], "", None)
  {
  }

  // ------------------------------------------------------------------
  // The page.

  class CodeEvaluationPage {
    var step: Step
    var code: string
    var language: string
    var questions: seq<Question>
    var answers: map<int, string>
    var error: string
    var result: Option<EvaluationResult>

    ghost function State(): PageState
      reads this
    {
      PageState(step, code, language, questions, answers, error, result)
    }

    constructor ()
      ensures State() == Initial
    {
      step, code, language := Upload, "", DefaultLanguage;
      questions, answers, error, result := [], map[], "", None;
    }

    /** The code text area. */
    method EditCode(text: string)
      modifies this
      ensures State() == old(State()).(code := text)
    {
      code := text;
    }

    /** The language selector. */
    method SelectLanguage(name: string)
      modifies this
      ensures State() == old(State()).(language := name)
    {
      language := name;
    }

    /** `generateQuestions`: returns the request posted, if any. */
    method GenerateQuestions(api: AiRoute.Request -> ApiClient.Reply, decode: Json -> seq<Question>)
      returns (sent: Option<AiRoute.Request>)
      modifies this
      ensures sent == if IsBlank(old(code)) then None else Some(QuestionsRequest(old(language), old(code)))
      ensures State() == Generated(old(State()), api, decode)
    {
      ghost var before := State();
      if IsBlank(code) {
        error := BlankCode;
        return None;
      }
      error := "";
      var request := QuestionsRequest(language, code);
      sent := Some(request);
      var reply := ApiClient.Accept(api(request), QuestionsMarker, GenerationFailed);
      assert Generated(before, api, decode) == QuestionsLoaded(before, reply, decode);
      if reply.Ok? {
        questions := decode(reply.value);
        step := QuestionsStep;
      } else {
        error := reply.error;
      }
    }

    /** `evaluateAnswers`: returns the request posted. */
    method EvaluateAnswers(api: AiRoute.Request -> ApiClient.Reply, stringify: seq<AnsweredQuestion> -> string,
                           decode: Json -> EvaluationResult)
      returns (sent: AiRoute.Request)
      modifies this
      ensures sent == GradingRequest(old(language), old(code), old(questions), old(answers), stringify)
      ensures State() == Evaluated(old(State()), api, stringify, decode)
    {
      error := "";
      sent := GradingRequest(language, code, questions, answers, stringify);
      var reply := ApiClient.Accept(api(sent), EvaluationsMarker, EvaluationFailed);
      if reply.Ok? {
        result := Some(decode(reply.value));
        step := ResultsStep;
      } else {
        error := reply.error;
      }
    }

    /** The answer text area's change handler. */
    method EditAnswer(questionId: int, text: string)
      modifies this
      ensures State() == Edited(old(State()), questionId, text)
    {
      answers := answers[questionId := text];
    }

    /** `resetEvaluation`. */
    method ResetEvaluation()
      modifies this
      ensures State() == Reset(old(State()))
    {
      step := Upload;
      code := "";
      questions := [];
      answers := map[];
      result := None;
      error := "";
    }
  }
}
