/** The lesson page of the second copy of the application
    (physics-learning-platform/src/components/LessonsPage.tsx): the same demo
    picker, Play/Pause and Reset handlers over the animation state, and a
    "mark as complete" button over the three-field progress record. */
module LabLessonsPage {
  import opened Common
  import opened AppTypes
  import opened LabTypes
  import LessonsPage

  /** The completed-lesson record: the count goes up by one and is capped at 5;
      the score and the quiz scores are carried over, and nothing else changes. */
  function CompletedLesson(u: LabUser): (r: LabUser)
    ensures r == u.(progress := r.progress) && r.progress.Some?
    ensures var n := if u.progress.Some? then u.progress.value.completedLessons else 0;
            r.progress.value.completedLessons == (if n + 1 <= 5 then n + 1 else 5)
    ensures u.progress.Some? ==> r.progress.value.totalScore == u.progress.value.totalScore
                                 && r.progress.value.quizScores == u.progress.value.quizScores
    ensures u.progress.None? ==> r.progress.value.totalScore == 0 && r.progress.value.quizScores == []
  {
    var n := (if u.progress.Some? then u.progress.value.completedLessons else 0) + 1;
    var score := if u.progress.Some? then u.progress.value.totalScore else 0;
    var scores := if u.progress.Some? then u.progress.value.quizScores else [];
    u.(progress := Some(LabProgress(if n <= 5 then n else 5, score, scores)))
  }

  /** The page with the state it is handed and the messages it passes to
      `addNotification`. */
  class Page {
    var animation: AnimationState
    var currentUser: LabUser
    var users: seq<LabUser>
    var notices: seq<string>

    constructor (animation0: AnimationState, user: LabUser, users0: seq<LabUser>)
      ensures animation == animation0 && currentUser == user && users == users0 && notices == []
    {
      animation, currentUser, users, notices := animation0, user, users0, [];
    }

    method SelectDemo(d: Demo)
      modifies this
      ensures animation == LessonsPage.Selected(old(animation), d)
      ensures currentUser == old(currentUser) && users == old(users) && notices == old(notices)
    {
      animation := animation.(selectedDemo := d);
    }

    method TogglePlay()
      modifies this
      ensures animation == LessonsPage.Toggled(old(animation))
      ensures currentUser == old(currentUser) && users == old(users) && notices == old(notices)
    {
      animation := animation.(isPlaying := !animation.isPlaying);
    }

    method Reset()
      modifies this
      ensures animation == LessonsPage.Rewound(old(animation))
      ensures currentUser == old(currentUser) && users == old(users) && notices == old(notices)
    {
      animation := animation.(isPlaying := false, time := 0.0);
    }

    method MarkComplete()
      modifies this
      ensures currentUser == CompletedLesson(old(currentUser))
      ensures users == ReplaceLabUser(old(users), currentUser)
      ensures notices == old(notices) + ["Lesson completed! Great job!"]
      ensures animation == old(animation)
    {
      var updated := CompletedLesson(currentUser);
      currentUser := updated;
      users := ReplaceLabUser(users, updated);
      notices := notices + ["Lesson completed! Great job!"];
    }
  }
}
