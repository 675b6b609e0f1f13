/** The shell of the main application (src/PhysicsLearningPlatform.tsx): the
    notification list, the class → subject → chapter navigation with its back
    stack, and the chapter-completion reward. Pages are the strings the shell
    switches on. */
module Platform {
  import opened Common
  import opened AppTypes
  import Text
  import GamificationSystem

  datatype ClassInfo = ClassInfo(id: int, name: string, grade: int)

  datatype SubjectInfo = SubjectInfo(id: int, name: string, classId: int)

  /** The seven classes `handleClassSelect` offers (themes are presentation). */
  function Classes(): seq<ClassInfo> {
    [ClassInfo(6, "Class 6", 6), ClassInfo(7, "Class 7", 7), ClassInfo(8, "Class 8", 8),
     ClassInfo(9, "Class 9", 9), ClassInfo(10, "Class 10", 10), ClassInfo(11, "Class 11", 11),
     ClassInfo(12, "Class 12", 12)]
  }

  /** `classes.find(c => c.id === classId)`. */
  function FindClass(classId: int): (r: Option<ClassInfo>)
    ensures r.Some? <==> 6 <= classId <= 12
    ensures r.Some? ==> r.value.id == classId && r.value.grade == classId
  {
    if 6 <= classId <= 12 then Some(Classes()[classId - 6]) else None
  }

  /** The six subjects `handleSubjectSelect` offers, all tagged with the
      selected class's id, or 6 when none is selected. */
  function Subjects(selected: Option<ClassInfo>): seq<SubjectInfo> {
    var c := match selected case Some(k) => OrNum(k.id, 6) case None => 6;
    [SubjectInfo(1, "Mathematics", c), SubjectInfo(2, "Science", c), SubjectInfo(3, "English", c),
     SubjectInfo(4, "Social Studies", c), SubjectInfo(5, "Art & Craft", c),
     SubjectInfo(6, "Physical Education", c)]
  }

  /** `subjects.find(s => s.id === subjectId)`. */
  function FindSubject(selected: Option<ClassInfo>, subjectId: int): (r: Option<SubjectInfo>)
    ensures r.Some? <==> 1 <= subjectId <= 6
    ensures r.Some? ==> r.value.id == subjectId
  {
    if 1 <= subjectId <= 6 then Some(Subjects(selected)[subjectId - 1]) else None
  }

  /** The navigation part of the shell's state. */
  datatype Nav = Nav(selectedClass: Option<ClassInfo>, selectedSubject: Option<SubjectInfo>,
                     currentPage: string, navigationStack: seq<string>)

  /** `handleClassSelect`. */
  function ClassSelected(n: Nav, classId: int): (r: Nav)
    ensures !(6 <= classId <= 12) ==> r == n
    ensures 6 <= classId <= 12 ==>
              && r.selectedClass == FindClass(classId)
              && r.currentPage == "subject-dashboard"
              && r.navigationStack == ["class-selection"]
              && r.selectedSubject == n.selectedSubject
  {
    match FindClass(classId)
    case Some(c) => n.(selectedClass := Some(c), currentPage := "subject-dashboard",
                       navigationStack := ["class-selection"])
    case None => n
  }

  /** `handleSubjectSelect`. */
  function SubjectSelected(n: Nav, subjectId: int): (r: Nav)
    ensures !(1 <= subjectId <= 6) ==> r == n
    ensures 1 <= subjectId <= 6 ==>
              && r.selectedSubject == FindSubject(n.selectedClass, subjectId)
              && r.currentPage == "chapter-view"
              && r.navigationStack == n.navigationStack + ["subject-dashboard"]
              && r.selectedClass == n.selectedClass
  {
    match FindSubject(n.selectedClass, subjectId)
    case Some(s) => n.(selectedSubject := Some(s), currentPage := "chapter-view",
                       navigationStack := n.navigationStack + ["subject-dashboard"])
    case None => n
  }

  /** `handleBackToClasses`. */
  function BackedToClasses(n: Nav): (r: Nav)
    ensures r.selectedClass.None? && r.selectedSubject.None?
    ensures r.currentPage == "class-selection" && r.navigationStack == []
  {
    Nav(None, None, "class-selection", [])
  }

  /** `handleBackToSubjects`: `prev.slice(0, -1)` drops the last entry (and
      leaves an empty stack empty). */
  function BackedToSubjects(n: Nav): (r: Nav)
    ensures r.selectedSubject.None? && r.selectedClass == n.selectedClass
    ensures r.currentPage == "subject-dashboard"
    ensures |n.navigationStack| > 0 ==> r.navigationStack + [n.navigationStack[|n.navigationStack| - 1]] == n.navigationStack
    ensures |n.navigationStack| == 0 ==> r.navigationStack == []
  {
    var st := n.navigationStack;
    n.(selectedSubject := None, currentPage := "subject-dashboard",
       navigationStack := if |st| == 0 then [] else st[..|st| - 1])
  }

  /** Choosing a subject and going back restores the stack and the class, and
      leaves the subject dashboard showing. */
  lemma SubjectRoundTrip(n: Nav, subjectId: int)
    requires 1 <= subjectId <= 6
    ensures var r := BackedToSubjects(SubjectSelected(n, subjectId));
            r.navigationStack == n.navigationStack && r.selectedClass == n.selectedClass
            && r.selectedSubject.None? && r.currentPage == "subject-dashboard"
  {
    var m := SubjectSelected(n, subjectId);
    assert m.navigationStack[..|m.navigationStack| - 1] == n.navigationStack;
  }

  /** The full walk class → subject → back to the subject dashboard leaves the
      stack at exactly `["class-selection"]`. */
  lemma ClassSubjectBack(n: Nav, classId: int, subjectId: int)
    requires 6 <= classId <= 12 && 1 <= subjectId <= 6
    ensures var r := BackedToSubjects(SubjectSelected(ClassSelected(n, classId), subjectId));
            r.navigationStack == ["class-selection"] && r.selectedClass == FindClass(classId)
  {
    SubjectRoundTrip(ClassSelected(n, classId), subjectId);
  }

  /** The user record `handleChapterComplete` builds: `xp` is added, the level
      recomputed from the new total, and the chapter appended to the completed
      list (even when it is already there). */
  function ChapterCompleted(u: User, chapterId: int, xp: int, now: string): (r: User)
    ensures r.progress.Some?
    ensures var q := FilledProgress(u.progress, now);
            && r.progress.value.xp == q.xp + xp
            && r.progress.value.level == GamificationSystem.CalculateLevel(q.xp + xp)
            && r.progress.value.completedChapters == q.completedChapters + [chapterId]
            && r.progress.value == q.(xp := r.progress.value.xp, level := r.progress.value.level,
                                       completedChapters := r.progress.value.completedChapters)
    ensures r == u.(progress := r.progress)
  {
    var q := FilledProgress(u.progress, now);
    var newXP := q.xp + xp;
    u.(progress := Some(q.(xp := newXP, level := newXP / 1000 + 1,
                             completedChapters := q.completedChapters + [chapterId])))
  }

  /** Completing the same chapter twice records it twice and pays twice. */
  lemma ChapterCompletedTwice(u: User, chapterId: int, xp: int, now: string)
    ensures var once := ChapterCompleted(u, chapterId, xp, now);
            var twice := ChapterCompleted(once, chapterId, xp, now);
            && twice.progress.value.completedChapters
                 == FilledProgress(u.progress, now).completedChapters + [chapterId, chapterId]
            && twice.progress.value.xp == FilledProgress(u.progress, now).xp + 2 * xp
  {
    var q := FilledProgress(u.progress, now);
    var once := ChapterCompleted(u, chapterId, xp, now);
    assert FilledProgress(once.progress, now).completedChapters == q.completedChapters + [chapterId];
    assert FilledProgress(once.progress, now).xp == q.xp + xp;
  }

  /** The toast of `handleChapterComplete`. */
  function ChapterToast(xp: int): string {
    "Great job! You earned " + Text.IntToString(xp) + " XP for completing the chapter! 🎉"
  }

  class Shell {
    var currentUser: Option<User>
    var users: seq<User>
    var notifications: seq<Notification>
    var selectedClass: Option<ClassInfo>
    var selectedSubject: Option<SubjectInfo>
    var currentPage: string
    var navigationStack: seq<string>

    /** The shell's first render: nobody signed in, the login page. */
    constructor ()
      ensures currentUser.None? && users == [] && notifications == []
      ensures NavState() == Nav(None, None, "login", [])
    {
      currentUser, users, notifications := None, [], [];
      selectedClass, selectedSubject, currentPage, navigationStack := None, None, "login", [];
    }

    function NavState(): Nav
      reads this
    {
      Nav(selectedClass, selectedSubject, currentPage, navigationStack)
    }

    /** `addNotification`; `now` stands for `Date.now()`, used both as the id and
        as the time stamp. */
    method AddNotification(message: string, now: int)
      modifies this
      ensures notifications == old(notifications) + [Notification(now, message, now)]
      ensures |notifications| == |old(notifications)| + 1
      ensures NavState() == old(NavState()) && currentUser == old(currentUser) && users == old(users)
    {
      notifications := notifications + [Notification(now, message, now)];
    }

    method ClassSelect(classId: int)
      modifies this
      ensures NavState() == ClassSelected(old(NavState()), classId)
      ensures currentUser == old(currentUser) && users == old(users) && notifications == old(notifications)
    {
      var found := FindClass(classId);
      if found.Some? {
        selectedClass := found;
        currentPage := "subject-dashboard";
        navigationStack := ["class-selection"];
      }
    }

    method SubjectSelect(subjectId: int)
      modifies this
      ensures NavState() == SubjectSelected(old(NavState()), subjectId)
      ensures currentUser == old(currentUser) && users == old(users) && notifications == old(notifications)
    {
      var found := FindSubject(selectedClass, subjectId);
      if found.Some? {
        selectedSubject := found;
        currentPage := "chapter-view";
        navigationStack := navigationStack + ["subject-dashboard"];
      }
    }

    method BackToClasses()
      modifies this
      ensures NavState() == BackedToClasses(old(NavState()))
      ensures currentUser == old(currentUser) && users == old(users) && notifications == old(notifications)
    {
      selectedClass := None;
      selectedSubject := None;
      currentPage := "class-selection";
      navigationStack := [];
    }

    method BackToSubjects()
      modifies this
      ensures NavState() == BackedToSubjects(old(NavState()))
      ensures currentUser == old(currentUser) && users == old(users) && notifications == old(notifications)
    {
      selectedSubject := None;
      currentPage := "subject-dashboard";
      if |navigationStack| > 0 {
        navigationStack := navigationStack[..|navigationStack| - 1];
      }
    }

    /** `handleChapterComplete`; `now` stands for both `new Date().toISOString()`
        and `Date.now()`. With nobody signed in nothing happens. */
    method ChapterComplete(chapterId: int, xp: int, nowIso: string, now: int)
      modifies this
      ensures old(currentUser).None? ==>
                currentUser == old(currentUser) && notifications == old(notifications)
      ensures old(currentUser).Some? ==>
                && currentUser == Some(ChapterCompleted(old(currentUser).value, chapterId, xp, nowIso))
                && notifications == old(notifications) + [Notification(now, ChapterToast(xp), now)]
      ensures users == old(users) && NavState() == old(NavState())
    {
      if currentUser.Some? {
        currentUser := Some(ChapterCompleted(currentUser.value, chapterId, xp, nowIso));
        AddNotification(ChapterToast(xp), now);
      }
    }
  }
}
