/** The records of the main application (src/types/index.ts). Optional fields of
    the TypeScript interfaces are `Option`s; numbers that are counts or scores are
    `int`; date strings stay strings. */
module AppTypes {
  import opened Common

  datatype UserType = Student | Teacher

  datatype BadgeCategory = QuizCategory | GameCategory | StreakCategory | ChapterCategory | SpecialCategory

  datatype Badge = Badge(id: int, name: string, description: string, icon: string,
                         earnedAt: string, category: BadgeCategory)

  /** The `progress` record a user carries: lesson/quiz tallies and gamification state. */
  datatype Progress = Progress(
    completedLessons: int,
    totalScore: int,
    quizScores: seq<int>,
    xp: int,
    level: int,
    badges: seq<Badge>,
    completedChapters: seq<int>,
    completedQuizzes: seq<int>,
    completedGames: seq<int>,
    streak: int,
    lastActiveDate: string)

  datatype Profile = Profile(name: string, email: string, grade: string)

  datatype User = User(
    id: string,
    username: string,
    email: string,
    password: string,
    userType: UserType,
    rollNumber: Option<string>,
    classSection: Option<string>,
    classId: Option<int>,
    contactNumber: Option<string>,
    progress: Option<Progress>,
    profile: Option<Profile>)

  datatype Notification = Notification(id: int, message: string, timestamp: int)

  datatype QuizQuestion = QuizQuestion(question: string, options: seq<string>, correct: int)

  datatype Quiz = Quiz(id: int, title: string, description: string, questions: seq<QuizQuestion>,
                       teacherId: string, createdAt: string)

  datatype Status = Present | Absent | Late

  datatype AttendanceRecord = AttendanceRecord(studentId: string, date: string, status: Status)

  datatype Demo = FreeFall | ProjectileDemo | UniformDemo

  /** The motion demo's state: which demo, whether it runs, and its simulated time. */
  datatype AnimationState = AnimationState(selectedDemo: Demo, isPlaying: bool, time: real)

  datatype PhysicsQuestion = PhysicsQuestion(id: int, question: string, options: seq<string>,
                                             correct: int, explanation: string, topic: string)

  /** The gamification part of the progress record (the `UserProgress` interface). */
  datatype UserProgress = UserProgress(
    xp: int,
    level: int,
    badges: seq<Badge>,
    completedChapters: seq<int>,
    completedQuizzes: seq<int>,
    completedGames: seq<int>,
    streak: int,
    lastActiveDate: string)

  /** The progress record that the handlers rebuild field by field with
      `currentUser.progress?.f || default`: numbers fall back to 0 (level to 1),
      lists to `[]`, and the activity date to `now`. */
  function FilledProgress(p: Option<Progress>, now: string): Progress {
    match p
    case None => Progress(0, 0, [], 0, 1, [], [], [], [], 0, now)
    case Some(q) =>
      Progress(q.completedLessons, q.totalScore, q.quizScores, q.xp, OrNum(q.level, 1), q.badges,
               q.completedChapters, q.completedQuizzes, q.completedGames, q.streak,
               OrStr(q.lastActiveDate, now))
  }

  /** `users.map(u => u.id === updated.id ? updated : u)`. */
  function ReplaceById(users: seq<User>, updated: User): (r: seq<User>)
    ensures |r| == |users|
    ensures forall i :: 0 <= i < |users| && users[i].id == updated.id ==> r[i] == updated
    ensures forall i :: 0 <= i < |users| && users[i].id != updated.id ==> r[i] == users[i]
  {
    if users == [] then []
    else [if users[0].id == updated.id then updated else users[0]] + ReplaceById(users[1..], updated)
  }

  /** `users.filter(u => u.userType === "student")`. */
  function Students(users: seq<User>): (r: seq<User>)
    ensures |r| <= |users|
    ensures forall u :: u in r <==> u in users && u.userType == Student
  {
    if users == [] then []
    else (if users[0].userType == Student then [users[0]] else []) + Students(users[1..])
  }

  /** A user's grade as the pages read it: `profile?.grade || ""`. */
  function GradeOf(u: User): string {
    match u.profile
    case Some(p) => p.grade
    case None => ""
  }

  /** A user's display name: `profile?.name || username`. */
  function DisplayName(u: User): string {
    match u.profile
    case Some(p) => OrStr(p.name, u.username)
    case None => u.username
  }
}
