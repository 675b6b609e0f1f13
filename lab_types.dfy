/** The records of the second copy of the application
    (physics-learning-platform/src/types/index.ts). Its users carry numeric ids
    and a three-field progress record; the remaining records are shared with
    the main application's types. */
module LabTypes {
  import opened Common
  import opened AppTypes

  datatype LabProgress = LabProgress(completedLessons: int, totalScore: int, quizScores: seq<int>)

  datatype LabUser = LabUser(
    id: int,
    username: string,
    email: string,
    password: string,
    userType: UserType,
    progress: Option<LabProgress>,
    profile: Option<Profile>)

  datatype Assignment = Assignment(id: int, title: string, description: string, dueDate: string,
                                   teacherId: int, createdAt: string)

  datatype LabAttendanceRecord = LabAttendanceRecord(studentId: int, date: string, status: Status)

  /** `users.map(u => u.id === updated.id ? updated : u)`. */
  function ReplaceLabUser(users: seq<LabUser>, updated: LabUser): (r: seq<LabUser>)
    ensures |r| == |users|
    ensures forall i :: 0 <= i < |users| && users[i].id == updated.id ==> r[i] == updated
    ensures forall i :: 0 <= i < |users| && users[i].id != updated.id ==> r[i] == users[i]
  {
    if users == [] then []
    else [if users[0].id == updated.id then updated else users[0]] + ReplaceLabUser(users[1..], updated)
  }

  /** `users.filter(u => u.userType === "student")`. */
  function LabStudents(users: seq<LabUser>): (r: seq<LabUser>)
    ensures |r| <= |users|
    ensures forall u :: u in r <==> u in users && u.userType == Student
  {
    if users == [] then []
    else (if users[0].userType == Student then [users[0]] else []) + LabStudents(users[1..])
  }
}
