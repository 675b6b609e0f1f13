/** The teacher's attendance page of the main application
    (src/components/AttendancePage.tsx): the students listed under a grade
    filter, the grade buttons, the marks a teacher sets for the selected date,
    saving them as attendance records, the "Saved:" badge, the CSV export and the
    per-student summary counts. */
module AttendancePage {
  import opened Common
  import opened AppTypes
  import opened Text
  import opened StringSort

  /** The grade filter compares grades case-insensitively. */
  predicate GradeMatches(u: User, filter: string) {
    Lower(GradeOf(u)) == Lower(filter)
  }

  function FilterGrade(list: seq<User>, filter: string): (r: seq<User>)
    ensures |r| <= |list|
    ensures forall u :: u in r <==> u in list && GradeMatches(u, filter)
  {
    if list == [] then []
    else (if GradeMatches(list[0], filter) then [list[0]] else []) + FilterGrade(list[1..], filter)
  }

  /** `students`: the student-type users, narrowed to the grade filter when one
      is set. */
  function Listed(users: seq<User>, filter: string): (r: seq<User>)
    ensures forall u :: u in r <==>
              u in users && u.userType == Student && (filter == "" || GradeMatches(u, filter))
    ensures filter == "" ==> r == Students(users)
  {
    var list := Students(users);
    if filter == "" then list else FilterGrade(list, filter)
  }

  /** A grade some student of `users` carries (an empty grade is not one). */
  predicate Graded(users: seq<User>, y: string) {
    y != "" && exists u :: u in users && u.userType == Student && GradeOf(u) == y
  }

  /** `allGrades`: the students' grades are collected into a set in list order
      (a JavaScript `Set` keeps insertion order and ignores repeats), then sorted. */
  method AllGrades(users: seq<User>) returns (grades: seq<string>)
    ensures StrictlySorted(grades)
    ensures forall y :: y in grades <==> Graded(users, y)
  {
    var g: seq<string> := [];
    for i := 0 to |users|
      invariant forall y :: y in g <==> Graded(users[..i], y)
    {
      assert users[..i + 1] == users[..i] + [users[i]];
      var u := users[i];
      if u.userType == Student && GradeOf(u) != "" {
        if GradeOf(u) !in g {
          g := g + [GradeOf(u)];
        }
      }
    }
    assert users[..|users|] == users;
    grades := SortDistinct(g);
  }

  /** The dictionary key of one mark: `${selectedDate}-${studentId}`. */
  function Key(date: string, studentId: string): string {
    date + "-" + studentId
  }

  /** Dates from the date input all have the same length, and for such dates
      the key determines both the date and the student. */
  lemma KeyInjective(d1: string, id1: string, d2: string, id2: string)
    requires |d1| == |d2|
    requires Key(d1, id1) == Key(d2, id2)
    ensures d1 == d2 && id1 == id2
  {
    var k := Key(d1, id1);
    assert d1 == k[..|d1|] && d2 == k[..|d2|];
    assert id1 == k[|d1| + 1..] && id2 == k[|d2| + 1..];
  }

  /** `attendanceRecord[key] || 'absent'`: an unmarked student is absent. */
  function MarkedOr(marks: map<string, Status>, key: string): Status {
    if key in marks then marks[key] else Absent
  }

  /** The records `saveAttendance` builds: one per listed student, in list order. */
  function Records(students: seq<User>, date: string, marks: map<string, Status>): (r: seq<AttendanceRecord>)
    ensures |r| == |students|
    ensures forall i :: 0 <= i < |r| ==>
              r[i] == AttendanceRecord(students[i].id, date, MarkedOr(marks, Key(date, students[i].id)))
  {
    if students == [] then []
    else [AttendanceRecord(students[0].id, date, MarkedOr(marks, Key(date, students[0].id)))]
         + Records(students[1..], date, marks)
  }

  predicate IsFor(a: AttendanceRecord, studentId: string, date: string) {
    a.studentId == studentId && a.date == date
  }

  /** `statusFor`: the status of the first record of the student on the date. */
  function StatusFor(recs: seq<AttendanceRecord>, studentId: string, date: string): (r: Option<Status>)
    ensures r.None? <==> forall i :: 0 <= i < |recs| ==> !IsFor(recs[i], studentId, date)
  {
    if recs == [] then None
    else if IsFor(recs[0], studentId, date) then Some(recs[0].status)
    else StatusFor(recs[1..], studentId, date)
  }

  /** The status found is that of the first matching record. */
  lemma {:induction false} StatusForFirst(recs: seq<AttendanceRecord>, studentId: string, date: string)
    requires StatusFor(recs, studentId, date).Some?
    ensures exists i :: 0 <= i < |recs| && IsFor(recs[i], studentId, date)
                     && recs[i].status == StatusFor(recs, studentId, date).value
                     && forall j :: 0 <= j < i ==> !IsFor(recs[j], studentId, date)
  {
    if !IsFor(recs[0], studentId, date) {
      StatusForFirst(recs[1..], studentId, date);
      var i :| 0 <= i < |recs[1..]| && IsFor(recs[1..][i], studentId, date)
               && recs[1..][i].status == StatusFor(recs, studentId, date).value
               && forall j :: 0 <= j < i ==> !IsFor(recs[1..][j], studentId, date);
      assert recs[i + 1] == recs[1..][i];
      assert forall j :: 0 < j < i + 1 ==> recs[j] == recs[1..][j - 1];
    }
  }

  /** Appending records never changes a status already found. */
  lemma {:induction false} StatusForAppend(a: seq<AttendanceRecord>, b: seq<AttendanceRecord>, studentId: string, date: string)
    ensures StatusFor(a + b, studentId, date) ==
              if StatusFor(a, studentId, date).Some? then StatusFor(a, studentId, date)
              else StatusFor(b, studentId, date)
  {
    if a != [] {
      assert (a + b)[1..] == a[1..] + b;
      StatusForAppend(a[1..], b, studentId, date);
    } else {
      assert a + b == b;
    }
  }

  /** Among freshly built records, a student is found exactly when listed, with
      the marked status or absent. */
  lemma {:induction false} StatusForRecords(students: seq<User>, date: string, marks: map<string, Status>, studentId: string)
    ensures StatusFor(Records(students, date, marks), studentId, date) ==
              if exists s :: s in students && s.id == studentId
              then Some(MarkedOr(marks, Key(date, studentId))) else None
  {
    if students != [] {
      var recs := Records(students, date, marks);
      var tail := students[1..];
      if students[0].id == studentId {
        assert IsFor(recs[0], studentId, date);
        assert students[0] in students;
      } else {
        assert !IsFor(recs[0], studentId, date);
        assert recs[1..] == Records(tail, date, marks);
        StatusForRecords(tail, date, marks, studentId);
        ListedInTail(students, studentId);
      }
    }
  }

  /** A student other than the first is listed exactly when listed in the rest. */
  lemma ListedInTail(students: seq<User>, studentId: string)
    requires students != [] && students[0].id != studentId
    ensures (exists s :: s in students && s.id == studentId) <==> (exists s :: s in students[1..] && s.id == studentId)
  {
    assert students == [students[0]] + students[1..];
  }

  /** What the "Saved:" badge shows after a save: a status that was shown before
      is kept (re-saving appends records behind the first one), otherwise a
      listed student shows the mark, or absent when unmarked. */
  lemma SavedStatus(attendance: seq<AttendanceRecord>, students: seq<User>, date: string,
                    marks: map<string, Status>, studentId: string)
    ensures var after := StatusFor(attendance + Records(students, date, marks), studentId, date);
            var before := StatusFor(attendance, studentId, date);
            && (before.Some? ==> after == before)
            && (before.None? && (exists s :: s in students && s.id == studentId) ==>
                  after == Some(MarkedOr(marks, Key(date, studentId))))
            && (before.None? && !(exists s :: s in students && s.id == studentId) ==> after.None?)
  {
    StatusForAppend(attendance, Records(students, date, marks), studentId, date);
    StatusForRecords(students, date, marks, studentId);
  }

  /** The attendance of `studentId`: `attendance.filter(a => a.studentId === s.id)`. */
  function RecordsOf(attendance: seq<AttendanceRecord>, studentId: string): (r: seq<AttendanceRecord>)
    ensures |r| <= |attendance|
    ensures forall a :: a in r <==> a in attendance && a.studentId == studentId
  {
    if attendance == [] then []
    else (if attendance[0].studentId == studentId then [attendance[0]] else [])
         + RecordsOf(attendance[1..], studentId)
  }

  /** `recs.filter(r => r.status === st).length`. */
  function Count(recs: seq<AttendanceRecord>, st: Status): (r: nat)
    ensures r <= |recs|
  {
    if recs == [] then 0 else (if recs[0].status == st then 1 else 0) + Count(recs[1..], st)
  }

  /** The status count is additive over concatenated record lists, so every
      repeated record is counted again. */
  lemma {:induction false} CountAppend(a: seq<AttendanceRecord>, b: seq<AttendanceRecord>, st: Status)
    ensures Count(a + b, st) == Count(a, st) + Count(b, st)
  {
    if a == [] {
      assert a + b == b;
    } else {
      assert (a + b)[0] == a[0] && (a + b)[1..] == a[1..] + b;
      CountAppend(a[1..], b, st);
    }
  }

  /** The per-student filter distributes over concatenation, keeping every copy. */
  lemma {:induction false} RecordsOfAppend(a: seq<AttendanceRecord>, b: seq<AttendanceRecord>, studentId: string)
    ensures RecordsOf(a + b, studentId) == RecordsOf(a, studentId) + RecordsOf(b, studentId)
  {
    if a == [] {
      assert a + b == b;
    } else {
      assert (a + b)[0] == a[0] && (a + b)[1..] == a[1..] + b;
      RecordsOfAppend(a[1..], b, studentId);
    }
  }

  /** The present, absent and late columns of a summary row add up to the
      student's number of records. */
  lemma {:induction false} CountsSumToRecords(recs: seq<AttendanceRecord>)
    ensures Count(recs, Present) + Count(recs, Absent) + Count(recs, Late) == |recs|
  {
    if recs != [] {
      CountsSumToRecords(recs[1..]);
    }
  }

  function StatusText(st: Status): string {
    match st
    case Present => "present"
    case Absent => "absent"
    case Late => "late"
  }

  predicate Lists(students: seq<User>, studentId: string) {
    exists s :: s in students && s.id == studentId
  }

  /** `gradeAttendance`: the records of listed students. */
  function GradeAttendance(students: seq<User>, attendance: seq<AttendanceRecord>): (r: seq<AttendanceRecord>)
    ensures forall a :: a in r <==> a in attendance && Lists(students, a.studentId)
  {
    if attendance == [] then []
    else (if Lists(students, attendance[0].studentId) then [attendance[0]] else [])
         + GradeAttendance(students, attendance[1..])
  }

  /** `gradeAttendance.map(a => a.date)`. */
  function Dates(recs: seq<AttendanceRecord>): (r: seq<string>)
    ensures forall d :: d in r <==> exists a :: a in recs && a.date == d
  {
    if recs == [] then []
    else
      var rest := Dates(recs[1..]);
      assert forall a :: a in recs <==> a == recs[0] || a in recs[1..] by {
        assert recs == [recs[0]] + recs[1..];
      }
      [recs[0].date] + rest
  }

  /** The date columns of the CSV: the distinct dates of listed students'
      records, ascending. */
  function CsvDates(students: seq<User>, attendance: seq<AttendanceRecord>): (r: seq<string>)
    ensures StrictlySorted(r)
    ensures forall d :: d in r <==>
              exists a :: a in attendance && Lists(students, a.studentId) && a.date == d
  {
    SortDistinct(Dates(GradeAttendance(students, attendance)))
  }

  function HeaderCells(dates: seq<string>): seq<string> {
    ["Name", "Roll", "Grade"] + dates
  }

  /** One date cell: the quoted status of the student's first record on the date. */
  function Cell(recs: seq<AttendanceRecord>, studentId: string, date: string): string {
    JsonQuote(match StatusFor(recs, studentId, date) case Some(st) => StatusText(st) case None => "")
  }

  /** The cells of a student's row: quoted name, roll number and grade, then one
      cell per date column. */
  function RowCells(s: User, dates: seq<string>, recs: seq<AttendanceRecord>): (r: seq<string>)
    ensures |r| == 3 + |dates|
    ensures forall k :: 0 <= k < |dates| ==> r[3 + k] == Cell(recs, s.id, dates[k])
  {
    [JsonQuote(DisplayName(s)), JsonQuote(s.rollNumber.GetOr("")), JsonQuote(GradeOf(s))]
    + seq(|dates|, k requires 0 <= k < |dates| => Cell(recs, s.id, dates[k]))
  }

  function Rows(students: seq<User>, dates: seq<string>, recs: seq<AttendanceRecord>): (r: seq<string>)
    ensures |r| == |students|
    ensures forall i :: 0 <= i < |students| ==> r[i] == Join(RowCells(students[i], dates, recs), ",")
  {
    seq(|students|, i requires 0 <= i < |students| => Join(RowCells(students[i], dates, recs), ","))
  }

  /** The lines of `downloadCsvForGrade`'s file: the header, then one row per
      listed student. */
  function CsvLines(students: seq<User>, attendance: seq<AttendanceRecord>): seq<string> {
    var dates := CsvDates(students, attendance);
    [Join(HeaderCells(dates), ",")] + Rows(students, dates, GradeAttendance(students, attendance))
  }

  function Csv(students: seq<User>, attendance: seq<AttendanceRecord>): string {
    Join(CsvLines(students, attendance), "\n")
  }

  /** A row is one line: quoted cells contain no newline. */
  lemma RowIsOneLine(s: User, dates: seq<string>, recs: seq<AttendanceRecord>)
    ensures '\n' !in Join(RowCells(s, dates, recs), ",")
  {
    var cells := RowCells(s, dates, recs);
    forall k | 0 <= k < |cells| ensures '\n' !in cells[k] {
      if k >= 3 { assert cells[k] == Cell(recs, s.id, dates[k - 3]); }
    }
    JoinNoNewline(cells, ",");
  }

  /** The CSV has a header plus one line per listed student, each row has three
      cells more than there are dates, and no row spans two lines. */
  lemma CsvShape(students: seq<User>, attendance: seq<AttendanceRecord>)
    ensures var dates := CsvDates(students, attendance);
            var lines := CsvLines(students, attendance);
            && |lines| == |students| + 1
            && |HeaderCells(dates)| == 3 + |dates| && HeaderCells(dates)[..3] == ["Name", "Roll", "Grade"]
            && (forall i :: 0 <= i < |students| ==>
                 |RowCells(students[i], dates, GradeAttendance(students, attendance))| == 3 + |dates|)
            && (forall i :: 1 <= i < |lines| ==> '\n' !in lines[i])
  {
    var dates := CsvDates(students, attendance);
    var recs := GradeAttendance(students, attendance);
    RowsAreLines(students, dates, recs);
    LinesAreRows(Join(HeaderCells(dates), ","), Rows(students, dates, recs));
    assert HeaderCells(dates)[..3] == ["Name", "Roll", "Grade"];
  }

  /** The header line followed by the rows: one line per student after the
      header, none of them broken. */
  lemma LinesAreRows(header: string, rows: seq<string>)
    requires forall i :: 0 <= i < |rows| ==> '\n' !in rows[i]
    ensures var lines := [header] + rows;
            && |lines| == |rows| + 1
            && (forall i :: 1 <= i < |lines| ==> '\n' !in lines[i])
  {
    var lines := [header] + rows;
    forall i | 1 <= i < |lines| ensures '\n' !in lines[i] {
      assert lines[i] == rows[i - 1];
    }
  }

  lemma RowsAreLines(students: seq<User>, dates: seq<string>, recs: seq<AttendanceRecord>)
    ensures forall i :: 0 <= i < |students| ==> '\n' !in Rows(students, dates, recs)[i]
  {
    forall i | 0 <= i < |students| ensures '\n' !in Rows(students, dates, recs)[i] {
      RowIsOneLine(students[i], dates, recs);
    }
  }

  /** Keeping only the records of listed students does not change the first
      record of a listed student. */
  lemma {:induction false} StatusForGradeAttendance(students: seq<User>, attendance: seq<AttendanceRecord>,
                                                   studentId: string, date: string)
    requires Lists(students, studentId)
    ensures StatusFor(GradeAttendance(students, attendance), studentId, date) == StatusFor(attendance, studentId, date)
  {
    if attendance != [] {
      StatusForGradeAttendance(students, attendance[1..], studentId, date);
      var rest := GradeAttendance(students, attendance[1..]);
      if Lists(students, attendance[0].studentId) {
        assert GradeAttendance(students, attendance) == [attendance[0]] + rest;
        assert ([attendance[0]] + rest)[1..] == rest;
      } else {
        assert GradeAttendance(students, attendance) == rest;
      }
    }
  }

  /** A listed student's cell for a date shows the same status as the page's
      "Saved:" badge on that date. */
  lemma CsvCellIsSavedStatus(students: seq<User>, attendance: seq<AttendanceRecord>, i: int, k: int)
    requires 0 <= i < |students| && 0 <= k < |CsvDates(students, attendance)|
    ensures var dates := CsvDates(students, attendance);
            RowCells(students[i], dates, GradeAttendance(students, attendance))[3 + k]
              == Cell(attendance, students[i].id, dates[k])
  {
    StatusForGradeAttendance(students, attendance, students[i].id, CsvDates(students, attendance)[k]);
  }

  class Page {
    const users: seq<User>
    var attendance: seq<AttendanceRecord>
    var gradeFilter: string
    var selectedDate: string
    var attendanceRecord: map<string, Status>
    var saveBanner: string
    var notices: seq<string>

    /** The first render; `today` stands for the date part of `new Date().toISOString()`. */
    constructor (users0: seq<User>, attendance0: seq<AttendanceRecord>, today: string)
      ensures users == users0 && attendance == attendance0 && gradeFilter == "" && selectedDate == today
      ensures attendanceRecord == map[] && saveBanner == "" && notices == []
    {
      users, attendance, gradeFilter, selectedDate := users0, attendance0, "", today;
      attendanceRecord, saveBanner, notices := map[], "", [];
    }

    function ListedStudents(): seq<User>
      reads this
    {
      Listed(users, gradeFilter)
    }

    /** A grade button ("All" is the empty filter). */
    method SelectGrade(g: string)
      modifies this
      ensures gradeFilter == g && selectedDate == old(selectedDate) && attendance == old(attendance)
      ensures attendanceRecord == old(attendanceRecord) && saveBanner == old(saveBanner) && notices == old(notices)
    {
      gradeFilter := g;
    }

    method SelectDate(d: string)
      modifies this
      ensures selectedDate == d && gradeFilter == old(gradeFilter) && attendance == old(attendance)
      ensures attendanceRecord == old(attendanceRecord) && saveBanner == old(saveBanner) && notices == old(notices)
    {
      selectedDate := d;
    }

    /** `markAttendance`: one key set, every other key kept. */
    method MarkAttendance(studentId: string, status: Status)
      modifies this
      ensures attendanceRecord == old(attendanceRecord)[Key(selectedDate, studentId) := status]
      ensures forall k :: k != Key(selectedDate, studentId) ==>
                (k in attendanceRecord <==> k in old(attendanceRecord))
                && (k in attendanceRecord ==> attendanceRecord[k] == old(attendanceRecord)[k])
      ensures attendance == old(attendance) && gradeFilter == old(gradeFilter) && selectedDate == old(selectedDate)
      ensures saveBanner == old(saveBanner) && notices == old(notices)
    {
      attendanceRecord := attendanceRecord[Key(selectedDate, studentId) := status];
    }

    /** `saveAttendance`: one record per listed student is appended; the
        notification and the banner name the date. */
    method SaveAttendance()
      modifies this
      ensures attendance == old(attendance) + Records(ListedStudents(), selectedDate, attendanceRecord)
      ensures |attendance| == |old(attendance)| + |ListedStudents()|
      ensures attendance[..|old(attendance)|] == old(attendance)
      ensures notices == old(notices) + ["Attendance saved for " + selectedDate]
      ensures saveBanner == "Attendance saved successfully for " + selectedDate + "."
      ensures attendanceRecord == old(attendanceRecord) && gradeFilter == old(gradeFilter)
      ensures selectedDate == old(selectedDate)
    {
      var records := Records(Listed(users, gradeFilter), selectedDate, attendanceRecord);
      attendance := attendance + records;
      notices := notices + ["Attendance saved for " + selectedDate];
      saveBanner := "Attendance saved successfully for " + selectedDate + ".";
    }

    /** The banner's timeout firing. */
    method ClearBanner()
      modifies this
      ensures saveBanner == "" && attendance == old(attendance) && attendanceRecord == old(attendanceRecord)
      ensures gradeFilter == old(gradeFilter) && selectedDate == old(selectedDate) && notices == old(notices)
    {
      saveBanner := "";
    }
  }
}
