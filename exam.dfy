/** The multiple-choice exam: the question bank, drawing an exam from it,
    grading a submitted session, and the counts the pages display. */
module Exam {
  import Shuffle

  datatype QcmOption = QcmOption(id: string, text: string)

  datatype QcmQuestion = QcmQuestion(
    id: int,
    question: string,
    options: seq<QcmOption>,
    correctAnswer: string,
    explanation: string,
    difficulty: string,
    competency: string)

  // ------------------------------------------------------------------
  // Drawing an exam from the bank.

  /** A question with the order of its options forgotten. */
  type QuestionKey = (QcmQuestion, multiset<QcmOption>)

  function Key(q: QcmQuestion): QuestionKey {
    (q.(options := []), multiset(q.options))
  }

  function Keys(qs: seq<QcmQuestion>): seq<QuestionKey> {
    Shuffle.Map(Key, qs)
  }

  function IdOf(q: QcmQuestion): int {
    q.id
  }

  function Ids(qs: seq<QcmQuestion>): seq<int> {
    Shuffle.Map(IdOf, qs)
  }

  /** `e` is `b` with its options possibly put in another order. */
  ghost predicate SameUpToOptionOrder(e: QcmQuestion, b: QcmQuestion) {
    e.(options := b.options) == b && multiset(e.options) == multiset(b.options)
  }

  lemma KeyCharacterizes(e: QcmQuestion, b: QcmQuestion)
    ensures Key(e) == Key(b) <==> SameUpToOptionOrder(e, b)
  {
    if Key(e) == Key(b) {
      assert e.(options := []) == b.(options := []);
      assert e.(options := b.options) == b.(options := []).(options := b.options);
    }
  }

  /** `slice(0, Math.min(numQuestions, length))`: how many questions an
      exam takes (a negative request would count from the end, as slice does). */
  function SampleSize(numQuestions: int, length: nat): (k: nat)
    ensures k <= length
    ensures 0 <= numQuestions ==> k == if numQuestions < length then numQuestions else length
  {
    var end := if numQuestions < length then numQuestions else length;
    if end >= 0 then end else if length + end > 0 then length + end else 0
  }

  /** `startExam`'s sampling: shuffle a copy of the bank, keep the first
      `SampleSize` questions, and shuffle a copy of each one's options. The
      random comparators are replaced by `questionChoices` and, per kept
      question, `optionChoices`. The result takes every question from the
      bank at most as often as the bank holds it, with the same fields and
      the same options in some order. */
  method DrawExam(bank: seq<QcmQuestion>, numQuestions: int, questionChoices: seq<nat>,
                  optionChoices: seq<seq<nat>>)
    returns (exam: seq<QcmQuestion>)
    ensures |exam| == SampleSize(numQuestions, |bank|)
    ensures multiset(Keys(exam)) <= multiset(Keys(bank))
  {
    var shuffled := Shuffle.ShuffledCopy(bank, questionChoices);
    var selected := shuffled[..SampleSize(numQuestions, |shuffled|)];
    exam := [];
    var i := 0;
    while i < |selected|
      invariant 0 <= i <= |selected|
      invariant |exam| == i
      invariant forall k :: 0 <= k < i ==> Key(exam[k]) == Key(selected[k])
    {
      var options := Shuffle.ShuffledCopy(selected[i].options,
                                          if i < |optionChoices| then optionChoices[i] else []);
      exam := exam + [selected[i].(options := options)];
      i := i + 1;
    }
    assert Keys(exam) == Keys(selected);
    assert multiset(selected) <= multiset(bank) by {
      assert shuffled == selected + shuffled[|selected|..];
    }
    Shuffle.SubMultisetMap(Key, selected, bank);
  }

  /** Every question of a drawn exam is a question of the bank with its
      options reordered. */
  lemma DrawnQuestionFromBank(exam: seq<QcmQuestion>, bank: seq<QcmQuestion>, i: nat)
    requires multiset(Keys(exam)) <= multiset(Keys(bank))
    requires i < |exam|
    ensures exists j :: 0 <= j < |bank| && SameUpToOptionOrder(exam[i], bank[j])
  {
    assert Keys(exam)[i] == Key(exam[i]);
    assert Key(exam[i]) in multiset(Keys(exam));
    assert Key(exam[i]) in multiset(Keys(bank));
    var j :| 0 <= j < |bank| && Keys(bank)[j] == Key(exam[i]);
    KeyCharacterizes(exam[i], bank[j]);
  }

  function KeyId(k: QuestionKey): int {
    k.0.id
  }

  /** Drawing without replacement: a bank without repeated ids gives an
      exam without repeated ids. */
  lemma DrawnIdsDistinct(exam: seq<QcmQuestion>, bank: seq<QcmQuestion>)
    requires multiset(Keys(exam)) <= multiset(Keys(bank))
    requires Shuffle.Distinct(Ids(bank))
    ensures Shuffle.Distinct(Ids(exam))
  {
    Shuffle.SubMultisetMap(KeyId, Keys(exam), Keys(bank));
    assert Shuffle.Map(KeyId, Keys(exam)) == Ids(exam);
    assert Shuffle.Map(KeyId, Keys(bank)) == Ids(bank);
    Shuffle.SubMultisetOfDistinct(Ids(exam), Ids(bank));
  }

  // ------------------------------------------------------------------
  // Grading a submitted session.

  /** One line of the results: `StudentAnswer`. */
  datatype Outcome = Outcome(questionId: int, selectedAnswer: string, isCorrect: bool, skipped: bool, reported: bool)

  /** The value of `Math.round(score / total * 100)`: NaN when there are no
      questions, an integer otherwise. */
  datatype Percent = NaN | Percent(value: int)

  datatype ExamResult = ExamResult(score: nat, total: nat, percentage: Percent, details: seq<Outcome>)

  /** The result line of one exam question. */
  function OutcomeOf(q: QcmQuestion, answers: map<int, string>, skipped: set<int>, reported: set<int>): Outcome {
    Outcome(q.id,
            if q.id in answers then answers[q.id] else "",
            q.id in answers && answers[q.id] == q.correctAnswer,
            q.id in skipped,
            q.id in reported)
  }

  /** `examQuestions.map(...)`: one line per exam question, in exam order. */
  function Details(exam: seq<QcmQuestion>, answers: map<int, string>, skipped: set<int>, reported: set<int>)
    : (d: seq<Outcome>)
    ensures |d| == |exam|
    ensures forall i :: 0 <= i < |exam| ==> d[i] == OutcomeOf(exam[i], answers, skipped, reported)
  {
    seq(|exam|, i requires 0 <= i < |exam| => OutcomeOf(exam[i], answers, skipped, reported))
  }

  /** A line that counts toward the score. */
  predicate Scores(o: Outcome) {
    o.isCorrect && !o.skipped
  }

  /** The counts of the results page: the score (correct and not skipped),
      and the "Correctes", "Incorrectes" and "Sautées" boxes, plus the lines
      that are both correct and skipped, where these counts overlap. */
  datatype Counts = Counts(scored: nat, correct: nat, incorrect: nat, skippedCount: nat, correctSkipped: nat)

  function Tally(d: seq<Outcome>): (t: Counts)
    ensures t.scored + t.correctSkipped == t.correct <= |d|
    ensures t.correct + t.incorrect + t.skippedCount == |d| + t.correctSkipped
    decreases |d|
  {
    if d == [] then Counts(0, 0, 0, 0, 0)
    else
      var rest := Tally(d[1..]);
      var o := d[0];
      Counts(rest.scored + (if Scores(o) then 1 else 0),
             rest.correct + (if o.isCorrect then 1 else 0),
             rest.incorrect + (if !o.isCorrect && !o.skipped then 1 else 0),
             rest.skippedCount + (if o.skipped then 1 else 0),
             rest.correctSkipped + (if o.isCorrect && o.skipped then 1 else 0))
  }

  /** `Math.round(correct / total * 100)` on exact rationals: the integer
      nearest to 100 * correct / total, halves rounded up. */
  function Percentage(correct: nat, total: nat): (p: Percent)
    ensures p.NaN? <==> total == 0
    ensures total > 0 ==> 2 * total * p.value - total <= 200 * correct < 2 * total * p.value + total
  {
    if total == 0 then NaN
    else
      var q := (200 * correct + total) / (2 * total);
      assert 2 * total * q <= 200 * correct + total < 2 * total * q + 2 * total;
      Percent(q)
  }

  /** `submitExam`: the result of a session. */
  function Grade(exam: seq<QcmQuestion>, answers: map<int, string>, skipped: set<int>, reported: set<int>)
    : (r: ExamResult)
    ensures r.total == |exam|
    ensures r.details == Details(exam, answers, skipped, reported)
    ensures r.score == Tally(r.details).scored <= r.total
    ensures r.percentage == Percentage(r.score, r.total)
  {
    var details := Details(exam, answers, skipped, reported);
    var score := Tally(details).scored;
    ExamResult(score, |exam|, Percentage(score, |exam|), details)
  }

  // ------------------------------------------------------------------
  // Properties of grading.

  /** The percentage of a non-empty exam lies between 0 and 100. */
  lemma PercentageInRange(correct: nat, total: nat)
    requires correct <= total && total > 0
    ensures 0 <= Percentage(correct, total).value <= 100
  {
  }

  /** Below 200 questions, 100% means every question scored and 0% means
      none did. */
  lemma PercentageExtremes(correct: nat, total: nat)
    requires correct <= total && 0 < total < 200
    ensures Percentage(correct, total).value == 100 <==> correct == total
    ensures Percentage(correct, total).value == 0 <==> correct == 0
  {
    var p := Percentage(correct, total).value;
    PercentageInRange(correct, total);
    MulMonotone(total, p, 99);
    MulMonotone(total, 1, p);
    assert p == 100 ==> total * p == total * 100;
    assert p == 0 ==> total * p == 0;
  }

  lemma MulMonotone(t: nat, a: int, b: int)
    ensures a <= b ==> t * a <= t * b
  {
  }

  /** Rounding can show 100% for an imperfect session once there are 200
      questions. */
  lemma RoundsUpToFull()
    ensures Percentage(199, 200) == Percent(100)
  {
  }

  lemma TallyScoredAll(d: seq<Outcome>)
    ensures Tally(d).scored == |d| <==> forall i :: 0 <= i < |d| ==> Scores(d[i])
    decreases |d|
  {
    if d != [] {
      TallyScoredAll(d[1..]);
      assert forall i :: 1 <= i < |d| ==> d[i] == d[1..][i - 1];
    }
  }

  lemma TallyScoredNone(d: seq<Outcome>)
    ensures Tally(d).scored == 0 <==> forall i :: 0 <= i < |d| ==> !Scores(d[i])
    decreases |d|
  {
    if d != [] {
      TallyScoredNone(d[1..]);
      assert forall i :: 1 <= i < |d| ==> d[i] == d[1..][i - 1];
    }
  }

  /** Two result lists that agree, line by line, on which lines score have
      the same score. */
  lemma {:induction false} TallyScoredPointwise(d: seq<Outcome>, e: seq<Outcome>)
    requires |d| == |e|
    requires forall i :: 0 <= i < |d| ==> (Scores(d[i]) <==> Scores(e[i]))
    ensures Tally(d).scored == Tally(e).scored
    decreases |d|
  {
    if d != [] {
      assert forall i :: 0 <= i < |d| - 1 ==> d[1..][i] == d[i + 1] && e[1..][i] == e[i + 1];
      TallyScoredPointwise(d[1..], e[1..]);
    }
  }

  lemma {:induction false} TallyNoCorrectSkipped(d: seq<Outcome>)
    requires forall i :: 0 <= i < |d| ==> !(d[i].isCorrect && d[i].skipped)
    ensures Tally(d).correctSkipped == 0
    decreases |d|
  {
    if d != [] {
      assert forall i :: 0 <= i < |d| - 1 ==> d[1..][i] == d[i + 1];
      TallyNoCorrectSkipped(d[1..]);
    }
  }

  /** An answer recorded for a skipped question never counts: grading with
      or without it gives the same score. */
  lemma SkippedAnswersDoNotScore(exam: seq<QcmQuestion>, answers: map<int, string>, skipped: set<int>, reported: set<int>)
    ensures Grade(exam, answers, skipped, reported).score == Grade(exam, answers - skipped, skipped, reported).score
  {
    var d := Details(exam, answers, skipped, reported);
    var e := Details(exam, answers - skipped, skipped, reported);
    forall i | 0 <= i < |d|
      ensures Scores(d[i]) <==> Scores(e[i])
    {
      var id := exam[i].id;
      if id !in skipped {
        assert (id in answers) == (id in answers - skipped);
        assert id in answers ==> answers[id] == (answers - skipped)[id];
      }
    }
    TallyScoredPointwise(d, e);
  }

  /** The score is the "Correctes" count less the correct answers of skipped
      questions; when no question is both answered and skipped, the two
      agree. */
  lemma CorrectCountIsScore(exam: seq<QcmQuestion>, answers: map<int, string>, skipped: set<int>, reported: set<int>)
    ensures Tally(Details(exam, answers, skipped, reported)).correct
         == Grade(exam, answers, skipped, reported).score + Tally(Details(exam, answers, skipped, reported)).correctSkipped
    ensures answers.Keys !! skipped ==>
              Tally(Details(exam, answers, skipped, reported)).correct == Grade(exam, answers, skipped, reported).score
  {
    var d := Details(exam, answers, skipped, reported);
    if answers.Keys !! skipped {
      forall i | 0 <= i < |d|
        ensures !(d[i].isCorrect && d[i].skipped)
      {
        assert d[i] == OutcomeOf(exam[i], answers, skipped, reported);
      }
      TallyNoCorrectSkipped(d);
    }
  }

  /** A question answered correctly and then skipped shows in "Correctes"
      but scores nothing. */
  lemma CorrectThenSkipped(q: QcmQuestion)
    ensures Grade([q], map[q.id := q.correctAnswer], {q.id}, {}).score == 0
    ensures Tally(Details([q], map[q.id := q.correctAnswer], {q.id}, {})).correct == 1
  {
    var d := Details([q], map[q.id := q.correctAnswer], {q.id}, {});
    assert d[1..] == [];
  }

  /** The session scores every question exactly when each one is answered
      correctly and not skipped; for a non-empty exam that is 100%. */
  lemma FullScoreIff(exam: seq<QcmQuestion>, answers: map<int, string>, skipped: set<int>, reported: set<int>)
    ensures Grade(exam, answers, skipped, reported).score == |exam| <==>
              forall i :: 0 <= i < |exam| ==>
                exam[i].id in answers && answers[exam[i].id] == exam[i].correctAnswer && exam[i].id !in skipped
    ensures Grade(exam, answers, skipped, reported).score == |exam| > 0 ==>
              Grade(exam, answers, skipped, reported).percentage == Percent(100)
  {
    var d := Details(exam, answers, skipped, reported);
    TallyScoredAll(d);
    ScoresIff(exam, answers, skipped, reported);
    var n := |exam|;
    var q := Percentage(n, n);
    if n > 0 {
      MulMonotone(n, q.value, 99);
      MulMonotone(n, 101, q.value);
    }
  }

  lemma ScoresIff(exam: seq<QcmQuestion>, answers: map<int, string>, skipped: set<int>, reported: set<int>)
    ensures forall i :: 0 <= i < |exam| ==>
              (Scores(Details(exam, answers, skipped, reported)[i]) <==>
                exam[i].id in answers && answers[exam[i].id] == exam[i].correctAnswer && exam[i].id !in skipped)
  {
  }

  /** The session scores nothing exactly when no question is both answered
      correctly and unskipped; in particular skipping every question of a
      non-empty exam gives 0%. */
  lemma ZeroScoreIff(exam: seq<QcmQuestion>, answers: map<int, string>, skipped: set<int>, reported: set<int>)
    ensures Grade(exam, answers, skipped, reported).score == 0 <==>
              forall i :: 0 <= i < |exam| ==>
                !(exam[i].id in answers && answers[exam[i].id] == exam[i].correctAnswer && exam[i].id !in skipped)
    ensures (forall i :: 0 <= i < |exam| ==> exam[i].id in skipped) && |exam| > 0 ==>
              Grade(exam, answers, skipped, reported).percentage == Percent(0)
  {
    var d := Details(exam, answers, skipped, reported);
    TallyScoredNone(d);
    ScoresIff(exam, answers, skipped, reported);
  }

  /** A question whose `correctAnswer` names none of its options can never
      be answered correctly by choosing an option. */
  lemma UnmatchedKeyNeverScores(q: QcmQuestion, answers: map<int, string>, skipped: set<int>, reported: set<int>)
    requires forall o :: o in q.options ==> o.id != q.correctAnswer
    requires q.id in answers && exists o :: o in q.options && o.id == answers[q.id]
    ensures !OutcomeOf(q, answers, skipped, reported).isCorrect
  {
  }

  // ------------------------------------------------------------------
  // The difficulty summary of the preview.

  datatype DifficultyCounts = DifficultyCounts(easy: nat, medium: nat, hard: nat)

  const Easy := "facile"
  const Medium := "moyen"
  const Hard := "difficile"

  /** The three `filter(q => q.difficulty === ...).length` boxes. */
  function CountDifficulties(bank: seq<QcmQuestion>): (c: DifficultyCounts)
    ensures c.easy + c.medium + c.hard <= |bank|
    decreases |bank|
  {
    if bank == [] then DifficultyCounts(0, 0, 0)
    else
      var rest := CountDifficulties(bank[1..]);
      var level := bank[0].difficulty;
      DifficultyCounts(rest.easy + (if level == Easy then 1 else 0),
                       rest.medium + (if level == Medium then 1 else 0),
                       rest.hard + (if level == Hard then 1 else 0))
  }

  /** The three boxes add up to the bank size exactly when every question
      carries one of the three levels. */
  lemma {:induction false} DifficultiesCoverBankIff(bank: seq<QcmQuestion>)
    ensures var c := CountDifficulties(bank);
            c.easy + c.medium + c.hard == |bank| <==>
              forall i :: 0 <= i < |bank| ==> bank[i].difficulty in {Easy, Medium, Hard}
    decreases |bank|
  {
    if bank != [] {
      DifficultiesCoverBankIff(bank[1..]);
      assert forall i :: 1 <= i < |bank| ==> bank[i] == bank[1..][i - 1];
    }
  }
}
