/** The attendance page of the second copy of the application
    (physics-learning-platform/src/components/AttendancePage.tsx): every student
    is listed, the teacher marks students for the selected date, and saving
    appends one record per student. Student ids are numbers here. */
module LabAttendancePage {
  import opened AppTypes
  import opened LabTypes
  import Text

  /** Filtering keeps list order: the students of a concatenation are the
      students of each part, in turn. */
  lemma {:induction false} LabStudentsAppend(a: seq<LabUser>, b: seq<LabUser>)
    ensures LabStudents(a + b) == LabStudents(a) + LabStudents(b)
  {
    if a == [] {
      assert a + b == b;
    } else {
      assert (a + b)[1..] == a[1..] + b;
      LabStudentsAppend(a[1..], b);
    }
  }

  /** A list of students only is kept whole. */
  lemma {:induction false} LabStudentsOfStudents(users: seq<LabUser>)
    requires forall i :: 0 <= i < |users| ==> users[i].userType == Student
    ensures LabStudents(users) == users
  {
    if users != [] {
      LabStudentsOfStudents(users[1..]);
    }
  }

  /** `${selectedDate}-${studentId}`. */
  function Key(date: string, studentId: int): string {
    date + "-" + Text.IntToString(studentId)
  }

  /** `attendanceRecord[key] || 'absent'`. */
  function MarkedOr(marks: map<string, Status>, key: string): Status {
    if key in marks then marks[key] else Absent
  }

  /** The records `saveAttendance` builds: one per student, in list order. */
  function Records(students: seq<LabUser>, date: string, marks: map<string, Status>): (r: seq<LabAttendanceRecord>)
    ensures |r| == |students|
    ensures forall i :: 0 <= i < |r| ==>
              r[i] == LabAttendanceRecord(students[i].id, date, MarkedOr(marks, Key(date, students[i].id)))
  {
    if students == [] then []
    else [LabAttendanceRecord(students[0].id, date, MarkedOr(marks, Key(date, students[0].id)))]
         + Records(students[1..], date, marks)
  }

  /** Marking a student and then saving records that status for the student,
      and changes no record of another student whose key differs. */
  lemma MarkThenSave(students: seq<LabUser>, date: string, marks: map<string, Status>,
                     studentId: int, status: Status)
    ensures var r := Records(students, date, marks[Key(date, studentId) := status]);
            && (forall i :: 0 <= i < |students| && students[i].id == studentId ==> r[i].status == status)
            && (forall i :: 0 <= i < |students| && Key(date, students[i].id) != Key(date, studentId) ==>
                  r[i] == Records(students, date, marks)[i])
  {
  }

  /** Every student unmarked on the date is saved as absent. */
  lemma UnmarkedAreAbsent(students: seq<LabUser>, date: string, marks: map<string, Status>)
    ensures forall i :: 0 <= i < |students| && Key(date, students[i].id) !in marks ==>
              Records(students, date, marks)[i].status == Absent
  {
  }

  class Page {
    const users: seq<LabUser>
    var attendance: seq<LabAttendanceRecord>
    var selectedDate: string
    var attendanceRecord: map<string, Status>
    var notices: seq<string>

    /** The first render; `today` stands for the date part of `new Date().toISOString()`. */
    constructor (users0: seq<LabUser>, attendance0: seq<LabAttendanceRecord>, today: string)
      ensures users == users0 && attendance == attendance0 && selectedDate == today
      ensures attendanceRecord == map[] && notices == []
    {
      users, attendance, selectedDate := users0, attendance0, today;
      attendanceRecord, notices := map[], [];
    }

    method SelectDate(d: string)
      modifies this
      ensures selectedDate == d && attendance == old(attendance)
      ensures attendanceRecord == old(attendanceRecord) && notices == old(notices)
    {
      selectedDate := d;
    }

    /** `markAttendance`: one key set, every other key kept. */
    method MarkAttendance(studentId: int, status: Status)
      modifies this
      ensures attendanceRecord == old(attendanceRecord)[Key(selectedDate, studentId) := status]
      ensures forall k :: k != Key(selectedDate, studentId) ==>
                (k in attendanceRecord <==> k in old(attendanceRecord))
                && (k in attendanceRecord ==> attendanceRecord[k] == old(attendanceRecord)[k])
      ensures attendance == old(attendance) && selectedDate == old(selectedDate) && notices == old(notices)
    {
      attendanceRecord := attendanceRecord[Key(selectedDate, studentId) := status];
    }

    /** `saveAttendance`: the new records go after the existing ones. */
    method SaveAttendance()
      modifies this
      ensures attendance == old(attendance) + Records(LabStudents(users), selectedDate, attendanceRecord)
      ensures |attendance| == |old(attendance)| + |LabStudents(users)|
      ensures attendance[..|old(attendance)|] == old(attendance)
      ensures notices == old(notices) + ["Attendance saved for " + selectedDate]
      ensures attendanceRecord == old(attendanceRecord) && selectedDate == old(selectedDate)
    {
      var records := Records(LabStudents(users), selectedDate, attendanceRecord);
      attendance := attendance + records;
      notices := notices + ["Attendance saved for " + selectedDate];
    }
  }
}
