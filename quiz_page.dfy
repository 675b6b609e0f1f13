/** The quiz page of the main application (src/components/QuizPage.tsx): the
    student steps through the questions, picks one option per question, and
    submits; the score is the rounded percentage of correct answers and is
    recorded in the student's progress. */
module QuizPage {
  import opened Common
  import opened AppTypes
  import Text

  /** `quizAnswers[q.id] === q.correct`: an unanswered question is not correct. */
  predicate AnsweredCorrectly(answers: map<int, int>, q: PhysicsQuestion) {
    q.id in answers && answers[q.id] == q.correct
  }

  /** `physicsQuestions.filter((q) => quizAnswers[q.id] === q.correct).length`. */
  function CorrectAnswers(qs: seq<PhysicsQuestion>, answers: map<int, int>): (r: nat)
    ensures r <= |qs|
    ensures r == |qs| <==> forall i :: 0 <= i < |qs| ==> AnsweredCorrectly(answers, qs[i])
    ensures r == 0 <==> forall i :: 0 <= i < |qs| ==> !AnsweredCorrectly(answers, qs[i])
  {
    if qs == [] then 0
    else
      var rest := CorrectAnswers(qs[1..], answers);
      assert forall i :: 1 <= i < |qs| ==> qs[i] == qs[1..][i - 1];
      (if AnsweredCorrectly(answers, qs[0]) then 1 else 0) + rest
  }

  /** `Math.round((correctAnswers / physicsQuestions.length) * 100)`. */
  function Score(correct: nat, n: nat): int
    requires n > 0
  {
    Round((correct as real / n as real) * 100.0)
  }

  /** The score is a percentage: in [0, 100], 100 exactly when every answer is
      correct and 0 when none is. */
  lemma ScoreBounds(correct: nat, n: nat)
    requires 0 < n && correct <= n
    ensures 0 <= Score(correct, n) <= 100
    ensures correct == n ==> Score(correct, n) == 100
    ensures correct == 0 ==> Score(correct, n) == 0
  {
    var q := correct as real / n as real;
    assert q * (n as real) == correct as real;
    FractionAtMostOne(correct as real, n as real);
    if correct == n { assert q == 1.0; }
    if correct == 0 { assert q == 0.0; }
  }

  /** The submitted user: the total score becomes this quiz's score and the score
      is appended to the quiz scores; the rest of the progress is read with the
      usual `|| default` fallbacks. */
  function Submitted(u: User, score: int, now: string): (r: User)
    ensures r.progress.Some?
    ensures var q := FilledProgress(u.progress, now);
            && r.progress.value.totalScore == score
            && r.progress.value.quizScores == q.quizScores + [score]
            && r.progress.value == q.(totalScore := score, quizScores := r.progress.value.quizScores)
    ensures r == u.(progress := r.progress)
  {
    var q := FilledProgress(u.progress, now);
    u.(progress := Some(q.(totalScore := score, quizScores := q.quizScores + [score])))
  }

  /** Submitting appends exactly one score: the list grows by one and keeps its
      earlier scores. */
  lemma SubmitAppendsOne(u: User, score: int, now: string)
    ensures var before := FilledProgress(u.progress, now).quizScores;
            var after := Submitted(u, score, now).progress.value.quizScores;
            |after| == |before| + 1 && after[..|before|] == before && after[|before|] == score
  {
    var before := FilledProgress(u.progress, now).quizScores;
    assert (before + [score])[..|before|] == before;
  }

  function SubmitToast(score: int): string {
    "Quiz completed! You scored " + Text.IntToString(score) + "%"
  }

  /** `Math.max(0, currentQuestionIndex - 1)`. */
  function Previous(index: int): (r: int)
    ensures r == if index > 0 then index - 1 else 0
  {
    if index - 1 > 0 then index - 1 else 0
  }

  /** `Math.min(physicsQuestions.length - 1, currentQuestionIndex + 1)`. */
  function Next(index: int, n: int): (r: int)
    ensures r == if index + 1 < n then index + 1 else n - 1
  {
    if n - 1 < index + 1 then n - 1 else index + 1
  }

  /** With at least one question, Previous and Next keep the index a valid
      question index. */
  lemma StepsStayInRange(index: int, n: int)
    requires 0 <= index < n
    ensures 0 <= Previous(index) < n && 0 <= Next(index, n) < n
    ensures index + 1 < n ==> Next(index, n) == index + 1
    ensures index > 0 ==> Previous(index) == index - 1
  {
  }

  class Page {
    const questions: seq<PhysicsQuestion>
    var answers: map<int, int>
    var showResults: bool
    var index: int
    var currentUser: User
    var users: seq<User>
    var notices: seq<string>

    constructor (qs: seq<PhysicsQuestion>, user: User, users0: seq<User>)
      ensures questions == qs && answers == map[] && !showResults && index == 0
      ensures currentUser == user && users == users0 && notices == []
    {
      questions, answers, showResults, index := qs, map[], false, 0;
      currentUser, users, notices := user, users0, [];
    }

    /** An option button of the current question. */
    method ChooseOption(option: int)
      requires 0 <= index < |questions|
      modifies this
      ensures answers == old(answers)[questions[old(index)].id := option]
      ensures forall id :: id != questions[old(index)].id ==> (id in answers <==> id in old(answers))
      ensures forall id :: id != questions[old(index)].id && id in answers ==> answers[id] == old(answers)[id]
      ensures index == old(index) && showResults == old(showResults)
      ensures currentUser == old(currentUser) && users == old(users) && notices == old(notices)
    {
      answers := answers[questions[index].id := option];
    }

    method PreviousQuestion()
      modifies this
      ensures index == Previous(old(index))
      ensures answers == old(answers) && showResults == old(showResults)
      ensures currentUser == old(currentUser) && users == old(users) && notices == old(notices)
    {
      index := if index - 1 > 0 then index - 1 else 0;
    }

    /** The "Next" button, shown on every question but the last. */
    method NextQuestion()
      modifies this
      ensures index == Next(old(index), |questions|)
      ensures answers == old(answers) && showResults == old(showResults)
      ensures currentUser == old(currentUser) && users == old(users) && notices == old(notices)
    {
      index := if |questions| - 1 < index + 1 then |questions| - 1 else index + 1;
    }

    /** `handleQuizSubmit`; the button is shown only on the last question, so
        there is at least one. `now` stands for `new Date().toISOString()`. */
    method Submit(now: string) returns (score: int)
      requires index == |questions| - 1 && |questions| > 0
      modifies this
      ensures 0 <= score <= 100
      ensures score == Score(CorrectAnswers(questions, answers), |questions|)
      ensures currentUser == Submitted(old(currentUser), score, now)
      ensures users == ReplaceById(old(users), currentUser)
      ensures showResults && notices == old(notices) + [SubmitToast(score)]
      ensures answers == old(answers) && index == old(index)
    {
      var correct := CorrectAnswers(questions, answers);
      score := Round((correct as real / |questions| as real) * 100.0);
      ScoreBounds(correct, |questions|);
      var updated := Submitted(currentUser, score, now);
      currentUser := updated;
      users := ReplaceById(users, updated);
      showResults := true;
      notices := notices + [SubmitToast(score)];
    }

    /** "Take Another Quiz". */
    method Retake()
      modifies this
      ensures !showResults && answers == map[] && index == 0
      ensures currentUser == old(currentUser) && users == old(users) && notices == old(notices)
    {
      showResults := false;
      answers := map[];
      index := 0;
    }
  }
}
