/** The teacher's quiz editor of the main application
    (src/components/CreateQuizPage.tsx): a title, a description and a list of
    questions with four options each; questions can be added, edited and
    removed, and a complete quiz is saved to the custom quizzes. */
module CreateQuizPage {
  import opened AppTypes

  /** The editor's `quizData`. */
  datatype QuizData = QuizData(title: string, description: string, questions: seq<QuizQuestion>)

  /** A new question: no text, four empty options, the first one correct. */
  function Blank(): QuizQuestion {
    QuizQuestion("", ["", "", "", ""], 0)
  }

  /** The first render and the form after a save. */
  function Initial(): QuizData {
    QuizData("", "", [Blank()])
  }

  /** `addQuestion`. */
  function QuestionAdded(d: QuizData): (r: QuizData)
    ensures |r.questions| == |d.questions| + 1
    ensures r.questions[..|d.questions|] == d.questions && r.questions[|d.questions|] == Blank()
    ensures r.title == d.title && r.description == d.description
  {
    var qs := d.questions + [Blank()];
    assert qs[..|d.questions|] == d.questions;
    d.(questions := qs)
  }

  /** The two fields `updateQuestion` is called with: the text and the correct option. */
  datatype QuestionEdit = SetText(text: string) | SetCorrect(correct: int)

  function Apply(q: QuizQuestion, e: QuestionEdit): QuizQuestion {
    match e
    case SetText(t) => q.(question := t)
    case SetCorrect(k) => q.(correct := k)
  }

  /** `updateQuestion`: the question at `index` gets the edit, the others stay. */
  function QuestionUpdated(d: QuizData, index: int, e: QuestionEdit): (r: QuizData)
    ensures |r.questions| == |d.questions|
    ensures forall i :: 0 <= i < |d.questions| && i != index ==> r.questions[i] == d.questions[i]
    ensures 0 <= index < |d.questions| ==>
              && r.questions[index].options == d.questions[index].options
              && (e.SetText? ==> r.questions[index].question == e.text
                                 && r.questions[index].correct == d.questions[index].correct)
              && (e.SetCorrect? ==> r.questions[index].correct == e.correct
                                    && r.questions[index].question == d.questions[index].question)
    ensures r.title == d.title && r.description == d.description
  {
    d.(questions := seq(|d.questions|, i requires 0 <= i < |d.questions| =>
                          if i == index then Apply(d.questions[i], e) else d.questions[i]))
  }

  /** `updateOption`: one option of one question changes; every option count stays. */
  function OptionUpdated(d: QuizData, qIndex: int, oIndex: int, value: string): (r: QuizData)
    ensures |r.questions| == |d.questions|
    ensures forall i :: 0 <= i < |d.questions| ==>
              && |r.questions[i].options| == |d.questions[i].options|
              && r.questions[i].question == d.questions[i].question
              && r.questions[i].correct == d.questions[i].correct
    ensures forall i, j :: 0 <= i < |d.questions| && 0 <= j < |d.questions[i].options| ==>
              r.questions[i].options[j] == if i == qIndex && j == oIndex then value else d.questions[i].options[j]
    ensures r.title == d.title && r.description == d.description
  {
    d.(questions := seq(|d.questions|, i requires 0 <= i < |d.questions| =>
                          if i == qIndex then
                            var q := d.questions[i];
                            q.(options := seq(|q.options|, j requires 0 <= j < |q.options| =>
                                                if j == oIndex then value else q.options[j]))
                          else d.questions[i]))
  }

  /** "Remove Question": `filter((_, i) => i !== qIndex)`. */
  function QuestionRemoved(d: QuizData, qIndex: int): (r: QuizData)
    ensures 0 <= qIndex < |d.questions| ==>
              r.questions == d.questions[..qIndex] + d.questions[qIndex + 1..]
    ensures !(0 <= qIndex < |d.questions|) ==> r == d
    ensures r.title == d.title && r.description == d.description
  {
    if 0 <= qIndex < |d.questions| then d.(questions := d.questions[..qIndex] + d.questions[qIndex + 1..])
    else d
  }

  /** `saveQuiz`'s guard: a title, and text on every question. */
  predicate Saveable(d: QuizData) {
    d.title != "" && forall i :: 0 <= i < |d.questions| ==> d.questions[i].question != ""
  }

  /** The quiz a save appends; `now` stands for `Date.now()` and `nowIso` for
      `new Date().toISOString()`. */
  function NewQuiz(d: QuizData, teacherId: string, now: int, nowIso: string): (r: Quiz)
    ensures r.title == d.title && r.description == d.description && r.questions == d.questions
    ensures r.teacherId == teacherId && r.id == now && r.createdAt == nowIso
  {
    Quiz(now, d.title, d.description, d.questions, teacherId, nowIso)
  }

  /** Every edit keeps at least one question, removal included because it is
      offered only when there are two or more. */
  lemma EditsKeepAQuestion(d: QuizData, index: int, e: QuestionEdit, oIndex: int, value: string)
    requires |d.questions| >= 1
    ensures |QuestionAdded(d).questions| >= 1 && |QuestionUpdated(d, index, e).questions| >= 1
    ensures |OptionUpdated(d, index, oIndex, value).questions| >= 1
    ensures |d.questions| > 1 ==> |QuestionRemoved(d, index).questions| >= 1
    ensures |Initial().questions| == 1
  {
  }

  /** A freshly added question cannot be saved until it has text. */
  lemma BlankBlocksSave(d: QuizData)
    ensures !Saveable(QuestionAdded(d))
  {
    var r := QuestionAdded(d);
    assert r.questions[|d.questions|].question == "";
  }

  function SavedNotice(title: string): string {
    "Quiz \"" + title + "\" created successfully!"
  }

  class Page {
    const teacherId: string
    var quizData: QuizData
    var customQuizzes: seq<Quiz>
    var notices: seq<string>
    var alerts: seq<string>

    /** The editor always holds at least one question. */
    predicate Valid()
      reads this
    {
      |quizData.questions| >= 1
    }

    constructor (teacher: string, quizzes: seq<Quiz>)
      ensures Valid()
      ensures teacherId == teacher && quizData == Initial() && customQuizzes == quizzes
      ensures notices == [] && alerts == []
    {
      teacherId, quizData, customQuizzes := teacher, Initial(), quizzes;
      notices, alerts := [], [];
    }

    /** The title and description inputs. */
    method TypeInfo(title: string, description: string)
      requires Valid()
      modifies this
      ensures Valid()
      ensures quizData == old(quizData).(title := title, description := description)
      ensures customQuizzes == old(customQuizzes) && notices == old(notices) && alerts == old(alerts)
    {
      quizData := quizData.(title := title, description := description);
    }

    method AddQuestion()
      requires Valid()
      modifies this
      ensures Valid()
      ensures quizData == QuestionAdded(old(quizData))
      ensures customQuizzes == old(customQuizzes) && notices == old(notices) && alerts == old(alerts)
    {
      quizData := QuestionAdded(quizData);
    }

    method UpdateQuestion(index: int, e: QuestionEdit)
      requires Valid()
      modifies this
      ensures Valid()
      ensures quizData == QuestionUpdated(old(quizData), index, e)
      ensures customQuizzes == old(customQuizzes) && notices == old(notices) && alerts == old(alerts)
    {
      quizData := QuestionUpdated(quizData, index, e);
    }

    method UpdateOption(qIndex: int, oIndex: int, value: string)
      requires Valid()
      modifies this
      ensures Valid()
      ensures quizData == OptionUpdated(old(quizData), qIndex, oIndex, value)
      ensures customQuizzes == old(customQuizzes) && notices == old(notices) && alerts == old(alerts)
    {
      quizData := OptionUpdated(quizData, qIndex, oIndex, value);
    }

    /** "Remove Question", rendered only while there are two or more questions. */
    method RemoveQuestion(qIndex: int)
      requires Valid() && |quizData.questions| > 1 && 0 <= qIndex < |quizData.questions|
      modifies this
      ensures Valid()
      ensures quizData == QuestionRemoved(old(quizData), qIndex)
      ensures |quizData.questions| == |old(quizData).questions| - 1
      ensures customQuizzes == old(customQuizzes) && notices == old(notices) && alerts == old(alerts)
    {
      quizData := QuestionRemoved(quizData, qIndex);
    }

    /** `saveQuiz`. */
    method SaveQuiz(now: int, nowIso: string)
      requires Valid()
      modifies this
      ensures Valid()
      ensures !Saveable(old(quizData)) ==>
                && quizData == old(quizData) && customQuizzes == old(customQuizzes)
                && notices == old(notices) && alerts == old(alerts) + ["Please fill in all required fields"]
      ensures Saveable(old(quizData)) ==>
                && customQuizzes == old(customQuizzes) + [NewQuiz(old(quizData), teacherId, now, nowIso)]
                && notices == old(notices) + [SavedNotice(old(quizData).title)]
                && quizData == Initial() && alerts == old(alerts)
    {
      if !Saveable(quizData) {
        alerts := alerts + ["Please fill in all required fields"];
        return;
      }
      customQuizzes := customQuizzes + [NewQuiz(quizData, teacherId, now, nowIso)];
      notices := notices + [SavedNotice(quizData.title)];
      quizData := Initial();
    }
  }
}
