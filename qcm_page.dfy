/** The multiple-choice generator page: generation of a question bank
    through the AI route, the preview, the exam session and its results.
    The page's React state is the class `QcmGeneratorPage`; each handler is a
    method whose effect is a transition function on `PageState`, and the
    session's properties are proved about those functions. */
module QcmPage {
  import opened Wrappers
  import opened Js
  import AiRoute
  import ApiClient
  import Exam
  import Prompts

  datatype Step = Setup | Preview | ExamStep | Results

  const BlankSubject: string := "Veuillez entrer un sujet ou contenu à analyser"
  const GenerationFailed: string := "Erreur lors de la génération"
  const QuestionsMarker: string := "questions"

  /** A snapshot of the page state. `bank` is `qcmData.questions`, read as
      typed questions. */
  datatype PageState = PageState(
    step: Step,
    subject: string,
    isLatex: bool,
    error: string,
    bank: Option<seq<Exam.QcmQuestion>>,
    examQuestions: seq<Exam.QcmQuestion>,
    answers: map<int, string>,
    reported: set<int>,
    skipped: set<int>,
    results: Option<Exam.ExamResult>)

  const Initial: PageState := PageState(Setup, "", false, "", None, [], map[], {}, {}, None)

  // ------------------------------------------------------------------
  // The generation request.

  function GenerationLead(isLatex: bool): string {
    "Génère un QCM complet basé sur ce " + (if isLatex then "contenu LaTeX" else "sujet") + ":\n\n"
  }

  const GenerationTail: string :=
    "\n\nCrée au moins 20 questions variées avec différents niveaux de difficulté pour tester les compétences essentielles."

  function GenerationContent(subject: string, isLatex: bool): string {
    GenerationLead(isLatex) + subject + GenerationTail
  }

  /** The body `generateQCM` posts to the route. */
  function GenerationRequest(subject: string, isLatex: bool): AiRoute.Request {
    AiRoute.Request(Some(ApiClient.PageModel),
                    Some([AiRoute.Message(AiRoute.User, GenerationContent(subject, isLatex))]),
                    Some(0.5), None, Some(Prompts.Name(Prompts.QcmGenerator)))
  }

  /** The route accepts the page's request, prepends the generator's
      system prompt, and keeps the subject verbatim (untrimmed) in the user
      message. */
  lemma GenerationRequestComposes(subject: string, isLatex: bool)
    ensures AiRoute.Compose(GenerationRequest(subject, isLatex)).Some?
    ensures var u := AiRoute.Compose(GenerationRequest(subject, isLatex)).value;
            u.model == ApiClient.PageModel && u.temperature == 0.5 && u.maxTokens == AiRoute.DefaultMaxTokens
            && u.messages == [AiRoute.Message(AiRoute.System, Prompts.Prompt(Prompts.QcmGenerator)),
                              AiRoute.Message(AiRoute.User, GenerationContent(subject, isLatex))]
    ensures var c := GenerationContent(subject, isLatex);
            c[|GenerationLead(isLatex)|..|c| - |GenerationTail|] == subject
  {
    var r := GenerationRequest(subject, isLatex);
    var fm := AiRoute.FinalMessages(r.tool, r.messages.value);
    assert fm[1..] == r.messages.value;
    var c := GenerationContent(subject, isLatex);
    assert c == GenerationLead(isLatex) + subject + GenerationTail;
  }

  // ------------------------------------------------------------------
  // Transitions.

  /** `generateQCM`; `api` is the reply the page gets for a request. */
  function Generated(s: PageState, api: AiRoute.Request -> ApiClient.Reply, decode: Json -> seq<Exam.QcmQuestion>)
    : PageState
  {
    if IsBlank(s.subject) then s.(error := BlankSubject)
    else BankLoaded(s, ApiClient.Accept(api(GenerationRequest(s.subject, s.isLatex)), QuestionsMarker, GenerationFailed), decode)
  }

  /** The page once the reply to the generation request is read. */
  function BankLoaded(s: PageState, reply: Result<Json>, decode: Json -> seq<Exam.QcmQuestion>): PageState {
    match reply
    case Ok(data) => s.(bank := Some(decode(data)), step := Preview, error := "")
    case Err(message) => s.(error := message)
  }

  /** `startExam` once the exam questions are drawn. */
  function Started(s: PageState, exam: seq<Exam.QcmQuestion>): PageState {
    if s.bank.None? then s
    else s.(examQuestions := exam, answers := map[], reported := {}, skipped := {}, step := ExamStep)
  }

  function Answered(s: PageState, questionId: int, answerId: string): PageState {
    s.(answers := s.answers[questionId := answerId])
  }

  function Skipped(s: PageState, questionId: int): PageState {
    s.(skipped := s.skipped + {questionId}, answers := s.answers - {questionId})
  }

  function Reported(s: PageState, questionId: int): PageState {
    s.(reported := s.reported + {questionId})
  }

  function Submitted(s: PageState): PageState {
    s.(results := Some(Exam.Grade(s.examQuestions, s.answers, s.skipped, s.reported)), step := Results)
  }

  /** `resetQCM`, which leaves the LaTeX switch as it was. */
  function Reset(s: PageState): PageState {
    Initial.(isLatex := s.isLatex)
  }

  // ------------------------------------------------------------------
  // What the page lets the user do.

  /** The generate button (disabled while the subject is blank). */
  predicate CanGenerate(s: PageState) {
    s.step == Setup && !IsBlank(s.subject)
  }

  /** The exam view is shown only for a non-empty exam. */
  predicate ExamVisible(s: PageState) {
    s.step == ExamStep && |s.examQuestions| > 0
  }

  function ExamIds(s: PageState): set<int> {
    set q | q in s.examQuestions :: q.id
  }

  /** A question's radio buttons, shown in the exam view and disabled once
      the question is skipped. */
  predicate CanAnswer(s: PageState, questionId: int) {
    ExamVisible(s) && questionId in ExamIds(s) && questionId !in s.skipped
  }

  predicate CanSkip(s: PageState, questionId: int) {
    ExamVisible(s) && questionId in ExamIds(s) && questionId !in s.skipped
  }

  predicate CanReport(s: PageState, questionId: int) {
    ExamVisible(s) && questionId in ExamIds(s) && questionId !in s.reported
  }

  /** The submit button, disabled while no answer is recorded. */
  predicate CanSubmit(s: PageState) {
    ExamVisible(s) && |s.answers| > 0
  }

  /** What the page's controls keep true of a session: answers, skips and
      reports are about exam questions, and no question is both answered and
      skipped. */
  ghost predicate SessionWellFormed(s: PageState) {
    s.answers.Keys <= ExamIds(s) && s.skipped <= ExamIds(s) && s.reported <= ExamIds(s)
    && s.answers.Keys !! s.skipped
  }

  // ------------------------------------------------------------------
  // Properties of the transitions.

  /** `handleAnswerSelect` records one answer and changes nothing else. */
  lemma AnswerTouchesOnlyItsEntry(s: PageState, questionId: int, answerId: string)
    ensures var t := Answered(s, questionId, answerId);
            questionId in t.answers && t.answers[questionId] == answerId
            && (forall k :: k != questionId ==> (k in t.answers <==> k in s.answers))
            && (forall k :: k != questionId && k in s.answers ==> t.answers[k] == s.answers[k])
            && t.(answers := s.answers) == s
  {
  }

  /** `handleSkipQuestion` marks the question skipped and forgets its
      answer, touching no other answer and not the reports; a second skip
      changes nothing. */
  lemma SkipForgetsOnlyItsAnswer(s: PageState, questionId: int)
    ensures var t := Skipped(s, questionId);
            questionId in t.skipped && questionId !in t.answers
            && t.skipped == s.skipped + {questionId}
            && (forall k :: k != questionId ==> (k in t.answers <==> k in s.answers))
            && (forall k :: k != questionId && k in s.answers ==> t.answers[k] == s.answers[k])
            && t.(answers := s.answers, skipped := s.skipped) == s
    ensures Skipped(Skipped(s, questionId), questionId) == Skipped(s, questionId)
  {
    var t := Skipped(s, questionId);
    assert t.answers - {questionId} == t.answers;
  }

  /** `handleReportQuestion` only grows the reported set, and a second report
      changes nothing. */
  lemma ReportIsIdempotent(s: PageState, questionId: int)
    ensures Reported(s, questionId).reported == s.reported + {questionId}
    ensures Reported(s, questionId).(reported := s.reported) == s
    ensures Reported(Reported(s, questionId), questionId) == Reported(s, questionId)
  {
  }

  /** A blank subject sets the error and nothing else; a failed reply sets
      the message and nothing else; an accepted reply loads the bank and
      moves to the preview with the error cleared. */
  lemma GenerationOutcome(s: PageState, api: AiRoute.Request -> ApiClient.Reply, decode: Json -> seq<Exam.QcmQuestion>)
    ensures IsBlank(s.subject) ==> Generated(s, api, decode) == s.(error := BlankSubject)
    ensures !IsBlank(s.subject) ==>
              var r := ApiClient.Accept(api(GenerationRequest(s.subject, s.isLatex)), QuestionsMarker, GenerationFailed);
              Generated(s, api, decode) ==
                if r.Ok? then s.(bank := Some(decode(r.value)), step := Preview, error := "")
                else s.(error := r.error)
    ensures CanGenerate(s) ==>
              Generated(s, api, decode)
              == BankLoaded(s, ApiClient.Accept(api(GenerationRequest(s.subject, s.isLatex)), QuestionsMarker, GenerationFailed), decode)
    ensures s.step == Setup && !CanGenerate(s) ==> Generated(s, api, decode) == s.(error := BlankSubject)
    ensures Generated(s, api, decode).examQuestions == s.examQuestions
    ensures Generated(s, api, decode).answers == s.answers
    ensures Generated(s, api, decode).skipped == s.skipped
    ensures Generated(s, api, decode).reported == s.reported
  {
  }

  /** From the setup step, the page reaches the preview exactly when the
      subject is not blank and the reply carries `data.questions`. */
  lemma GenerationReachesPreviewIff(s: PageState, api: AiRoute.Request -> ApiClient.Reply,
                                    decode: Json -> seq<Exam.QcmQuestion>)
    requires s.step == Setup
    ensures Generated(s, api, decode).step == Preview <==>
              !IsBlank(s.subject)
              && ApiClient.Accept(api(GenerationRequest(s.subject, s.isLatex)), QuestionsMarker, GenerationFailed).Ok?
  {
  }

  /** Starting an exam without a bank does nothing; with one it opens an
      empty session and leaves the bank as it was. */
  lemma StartOpensEmptySession(s: PageState, exam: seq<Exam.QcmQuestion>)
    ensures s.bank.None? ==> Started(s, exam) == s
    ensures s.bank.Some? ==>
              var t := Started(s, exam);
              t.step == ExamStep && t.examQuestions == exam && t.bank == s.bank
              && t.answers == map[] && t.skipped == {} && t.reported == {}
              && SessionWellFormed(t)
  {
  }

  /** An empty bank (the marker check accepts `questions: []`) leads to an
      exam step that shows no exam view. */
  lemma EmptyBankHidesExam(s: PageState)
    requires s.bank == Some([])
    ensures Started(s, []).step == ExamStep && !ExamVisible(Started(s, []))
  {
  }

  /** Reset returns to setup with everything but the LaTeX switch cleared. */
  lemma ResetClears(s: PageState)
    ensures var t := Reset(s);
            t.step == Setup && t.subject == "" && t.bank.None? && t.examQuestions == []
            && t.answers == map[] && t.skipped == {} && t.reported == {} && t.results.None?
            && t.error == "" && t.isLatex == s.isLatex
    ensures SessionWellFormed(Reset(s))
  {
  }

  /** Every control the page offers keeps the session well formed. */
  lemma ControlsKeepSessionWellFormed(s: PageState, questionId: int, answerId: string)
    requires SessionWellFormed(s)
    ensures CanAnswer(s, questionId) ==> SessionWellFormed(Answered(s, questionId, answerId))
    ensures CanSkip(s, questionId) ==> SessionWellFormed(Skipped(s, questionId))
    ensures CanReport(s, questionId) ==> SessionWellFormed(Reported(s, questionId))
    ensures SessionWellFormed(Submitted(s))
  {
  }

  lemma GenerationKeepsSessionWellFormed(s: PageState, api: AiRoute.Request -> ApiClient.Reply,
                                         decode: Json -> seq<Exam.QcmQuestion>)
    requires SessionWellFormed(s)
    ensures SessionWellFormed(Generated(s, api, decode))
  {
    GenerationOutcome(s, api, decode);
  }

  /** Through the page's controls, the "Correctes" box equals the score. */
  lemma CorrectBoxIsScore(s: PageState)
    requires SessionWellFormed(s)
    ensures var t := Submitted(s);
            Exam.Tally(t.results.value.details).correct == t.results.value.score
  {
    Exam.CorrectCountIsScore(s.examQuestions, s.answers, s.skipped, s.reported);
  }

  /** An exam whose every question was skipped cannot be submitted: the
      skips have removed every answer. */
  lemma AllSkippedCannotSubmit(s: PageState)
    requires SessionWellFormed(s)
    requires forall q :: q in s.examQuestions ==> q.id in s.skipped
    ensures !CanSubmit(s)
  {
    assert ExamIds(s) <= s.skipped;
    assert s.answers.Keys == {};
  }

  /** A submission from the exam view gives a percentage between 0 and 100,
      and 100 exactly for a perfect session (exams here have at most 20
      questions). */
  lemma SubmittedPercentage(s: PageState)
    requires ExamVisible(s)
    ensures var r := Submitted(s).results.value;
            r.percentage.Percent? && 0 <= r.percentage.value <= 100
    ensures |s.examQuestions| < 200 ==>
              (Submitted(s).results.value.percentage.value == 100 <==>
                 forall i :: 0 <= i < |s.examQuestions| ==>
                   var q := s.examQuestions[i];
                   q.id in s.answers && s.answers[q.id] == q.correctAnswer && q.id !in s.skipped)
  {
    var r := Submitted(s).results.value;
    Exam.PercentageInRange(r.score, r.total);
    if |s.examQuestions| < 200 {
      Exam.PercentageExtremes(r.score, r.total);
    }
    Exam.FullScoreIff(s.examQuestions, s.answers, s.skipped, s.reported);
  }

  // ------------------------------------------------------------------
  // The page.

  class QcmGeneratorPage {
    var step: Step
    var subject: string
    var isLatex: bool
    var error: string
    var bank: Option<seq<Exam.QcmQuestion>>
    var examQuestions: seq<Exam.QcmQuestion>
    var answers: map<int, string>
    var reported: set<int>
    var skipped: set<int>
    var results: Option<Exam.ExamResult>

    ghost function State(): PageState
      reads this
    {
      PageState(step, subject, isLatex, error, bank, examQuestions, answers, reported, skipped, results)
    }

    constructor ()
      ensures State() == Initial
    {
      step, subject, isLatex, error := Setup, "", false, "";
      bank, examQuestions, answers := None, [], map[];
      reported, skipped, results := {}, {}, None;
    }

    /** The subject text area. */
    method EditSubject(text: string)
      modifies this
      ensures State() == old(State()).(subject := text)
    {
      subject := text;
    }

    /** The LaTeX switch. */
    method SetLatex(on: bool)
      modifies this
      ensures State() == old(State()).(isLatex := on)
    {
      isLatex := on;
    }

    /** `generateQCM`: returns the request posted, if any. */
    method GenerateQcm(api: AiRoute.Request -> ApiClient.Reply, decode: Json -> seq<Exam.QcmQuestion>)
      returns (sent: Option<AiRoute.Request>)
      modifies this
      ensures sent == if IsBlank(old(subject)) then None else Some(GenerationRequest(old(subject), old(isLatex)))
      ensures State() == Generated(old(State()), api, decode)
    {
      ghost var before := State();
      if IsBlank(subject) {
        error := BlankSubject;
        return None;
      }
      error := "";
      var request := GenerationRequest(subject, isLatex);
      sent := Some(request);
      var reply := ApiClient.Accept(api(request), QuestionsMarker, GenerationFailed);
      assert Generated(before, api, decode) == BankLoaded(before, reply, decode);
      if reply.Ok? {
        bank := Some(decode(reply.value));
        step := Preview;
      } else {
        error := reply.error;
      }
    }

    /** `startExam(numQuestions)`, the shuffles driven by the given choices. */
    method StartExam(numQuestions: int, questionChoices: seq<nat>, optionChoices: seq<seq<nat>>)
      modifies this
      ensures old(bank).None? ==> State() == old(State())
      ensures old(bank).Some? ==>
                State() == Started(old(State()), examQuestions)
                && |examQuestions| == Exam.SampleSize(numQuestions, |old(bank).value|)
                && multiset(Exam.Keys(examQuestions)) <= multiset(Exam.Keys(old(bank).value))
    {
      if bank.None? {
        return;
      }
      var drawn := Exam.DrawExam(bank.value, numQuestions, questionChoices, optionChoices);
      examQuestions := drawn;
      answers := map[];
      reported := {};
      skipped := {};
      step := ExamStep;
    }

    /** `handleAnswerSelect`. */
    method SelectAnswer(questionId: int, answerId: string)
      modifies this
      ensures State() == Answered(old(State()), questionId, answerId)
    {
      answers := answers[questionId := answerId];
    }

    /** `handleSkipQuestion`. */
    method SkipQuestion(questionId: int)
      modifies this
      ensures State() == Skipped(old(State()), questionId)
    {
      skipped := skipped + {questionId};
      answers := answers - {questionId};
    }

    /** `handleReportQuestion`. */
    method ReportQuestion(questionId: int)
      modifies this
      ensures State() == Reported(old(State()), questionId)
    {
      reported := reported + {questionId};
    }

    /** `submitExam`. */
    method SubmitExam()
      modifies this
      ensures State() == Submitted(old(State()))
    {
      results := Some(Exam.Grade(examQuestions, answers, skipped, reported));
      step := Results;
    }

    /** `resetQCM`. */
    method ResetQcm()
      modifies this
      ensures State() == Reset(old(State()))
    {
      step := Setup;
      subject := "";
      bank := None;
      examQuestions := [];
      answers := map[];
      reported := {};
      skipped := {};
      results := None;
      error := "";
    }
  }
}
