/** The teacher's student-management page of the main application
    (src/components/StudentsPage.tsx): the students filtered by a search term
    and a grade, sorted by name, lessons or score; the "+1 Lesson" and
    "+10 Score" buttons; and the roll-number lookup that merges a found student
    into the list. */
module StudentsPage {
  import opened Common
  import opened AppTypes
  import opened Text
  import AttendancePage

  /** The search term occurs, ignoring case, in the username or the email. */
  predicate MatchesSearch(s: User, term: string) {
    Includes(Lower(s.username), Lower(term)) || Includes(Lower(s.email), Lower(term))
  }

  /** The grade filter: anything passes an empty one. */
  predicate MatchesGrade(s: User, grade: string) {
    grade == "" || AttendancePage.GradeMatches(s, grade)
  }

  function FilterStudents(list: seq<User>, term: string, grade: string): (r: seq<User>)
    ensures |r| <= |list|
    ensures forall u :: u in r <==> u in list && MatchesSearch(u, term) && MatchesGrade(u, grade)
  {
    if list == [] then []
    else (if MatchesSearch(list[0], term) && MatchesGrade(list[0], grade) then [list[0]] else [])
         + FilterStudents(list[1..], term, grade)
  }

  /** `filteredStudents`: the students passing both filters. */
  function Filtered(users: seq<User>, term: string, grade: string): (r: seq<User>)
    ensures forall u :: u in r <==>
              u in users && u.userType == Student && MatchesSearch(u, term) && MatchesGrade(u, grade)
  {
    FilterStudents(Students(users), term, grade)
  }

  /** With an empty search and no grade filter every student is listed, in order. */
  lemma {:induction false} EmptyFiltersKeepAll(list: seq<User>)
    ensures FilterStudents(list, "", "") == list
  {
    if list != [] {
      assert Includes(Lower(list[0].username), Lower(""));
      EmptyFiltersKeepAll(list[1..]);
    }
  }

  lemma EmptyFiltersListAll(users: seq<User>)
    ensures Filtered(users, "", "") == Students(users)
  {
    EmptyFiltersKeepAll(Students(users));
  }

  datatype SortMode = ByUsername | ByProgress | ByScore | Unordered

  /** The `sortBy` select; any other value compares everything as equal. */
  function ModeOf(sortBy: string): SortMode {
    if sortBy == "username" then ByUsername
    else if sortBy == "progress" then ByProgress
    else if sortBy == "score" then ByScore
    else Unordered
  }

  /** `progress?.completedLessons || 0`. */
  function Lessons(u: User): int {
    match u.progress case Some(p) => p.completedLessons case None => 0
  }

  /** `progress?.totalScore || 0`. */
  function ScoreOf(u: User): int {
    match u.progress case Some(p) => p.totalScore case None => 0
  }

  /** The comparator says `a` may stand before `b` (it is not positive). Names
      compare by `LexLess`, standing for `localeCompare`. */
  predicate Before(a: User, b: User, mode: SortMode) {
    match mode
    case ByUsername => !LexLess(b.username, a.username)
    case ByProgress => Lessons(a) >= Lessons(b)
    case ByScore => ScoreOf(a) >= ScoreOf(b)
    case Unordered => true
  }

  lemma BeforeTotal(a: User, b: User, mode: SortMode)
    ensures Before(a, b, mode) || Before(b, a, mode)
  {
    if mode.ByUsername? && LexLess(a.username, b.username) {
      LexAsymmetric(a.username, b.username);
    }
  }

  lemma BeforeTransitive(a: User, b: User, c: User, mode: SortMode)
    requires Before(a, b, mode) && Before(b, c, mode)
    ensures Before(a, c, mode)
  {
    if mode.ByUsername? && a.username != b.username && LexLess(c.username, a.username) {
      LexTotal(a.username, b.username);
      LexTransitive(c.username, a.username, b.username);
    }
  }

  /** Each element may stand before its successor. */
  predicate AdjacentSorted(xs: seq<User>, mode: SortMode) {
    forall i :: 0 < i < |xs| ==> Before(xs[i - 1], xs[i], mode)
  }

  /** Every element may stand before every later one. */
  predicate SortedBy(xs: seq<User>, mode: SortMode) {
    forall i, j :: 0 <= i < j < |xs| ==> Before(xs[i], xs[j], mode)
  }

  /** Places `x` after the leading elements that may stand before it. */
  function Insert(x: User, s: seq<User>, mode: SortMode): (r: seq<User>)
    requires AdjacentSorted(s, mode)
    ensures AdjacentSorted(r, mode)
    ensures multiset(r) == multiset(s) + multiset{x}
    ensures |r| == |s| + 1
    ensures r[0] == x || (s != [] && r[0] == s[0])
  {
    if s == [] then [x]
    else if Before(s[0], x, mode) then
      assert AdjacentSorted(s[1..], mode) by {
        forall i | 0 < i < |s[1..]| ensures Before(s[1..][i - 1], s[1..][i], mode) {
          assert s[1..][i - 1] == s[i] && s[1..][i] == s[i + 1];
        }
      }
      var rest := Insert(x, s[1..], mode);
      assert s == [s[0]] + s[1..];
      [s[0]] + rest
    else
      BeforeTotal(s[0], x, mode);
      [x] + s
  }

  /** The sort: insertion of each element in list order. */
  function Sort(xs: seq<User>, mode: SortMode): (r: seq<User>)
    ensures AdjacentSorted(r, mode)
    ensures multiset(r) == multiset(xs)
  {
    if xs == [] then []
    else
      assert xs == xs[..|xs| - 1] + [xs[|xs| - 1]];
      Insert(xs[|xs| - 1], Sort(xs[..|xs| - 1], mode), mode)
  }

  lemma {:induction false} AdjacentChain(xs: seq<User>, mode: SortMode, i: int, j: int)
    requires AdjacentSorted(xs, mode) && 0 <= i < j < |xs|
    ensures Before(xs[i], xs[j], mode)
    decreases j - i
  {
    if i + 1 < j {
      AdjacentChain(xs, mode, i, j - 1);
      BeforeTransitive(xs[i], xs[j - 1], xs[j], mode);
    }
  }

  lemma AdjacentIsSorted(xs: seq<User>, mode: SortMode)
    requires AdjacentSorted(xs, mode)
    ensures SortedBy(xs, mode)
  {
    forall i, j | 0 <= i < j < |xs| ensures Before(xs[i], xs[j], mode) {
      AdjacentChain(xs, mode, i, j);
    }
  }

  /** `sortedStudents`: a permutation of the filtered students, names ascending,
      or lessons or scores non-increasing. */
  lemma SortSpec(xs: seq<User>, sortBy: string)
    ensures var r := Sort(xs, ModeOf(sortBy));
            && multiset(r) == multiset(xs) && |r| == |xs|
            && (sortBy == "username" ==> forall i, j :: 0 <= i < j < |r| ==> !LexLess(r[j].username, r[i].username))
            && (sortBy == "progress" ==> forall i, j :: 0 <= i < j < |r| ==> Lessons(r[i]) >= Lessons(r[j]))
            && (sortBy == "score" ==> forall i, j :: 0 <= i < j < |r| ==> ScoreOf(r[i]) >= ScoreOf(r[j]))
  {
    var r := Sort(xs, ModeOf(sortBy));
    AdjacentIsSorted(r, ModeOf(sortBy));
    assert |r| == |multiset(r)| == |multiset(xs)| == |xs|;
  }

  /** Inserting with a comparator that ties everything appends. */
  lemma {:induction false} InsertUnorderedAppends(x: User, s: seq<User>)
    ensures Insert(x, s, Unordered) == s + [x]
  {
    if s != [] {
      InsertUnorderedStep(x, s);
      InsertUnorderedAppends(x, s[1..]);
      AppendAfterHead(s, x);
    }
  }

  lemma AppendAfterHead(s: seq<User>, x: User)
    requires s != []
    ensures s + [x] == [s[0]] + (s[1..] + [x])
  {
    assert s == [s[0]] + s[1..];
  }

  /** Every element may stand before `x`, so the insertion passes the head. */
  lemma InsertUnorderedStep(x: User, s: seq<User>)
    requires s != []
    ensures Insert(x, s, Unordered) == [s[0]] + Insert(x, s[1..], Unordered)
  {
  }

  /** Any other `sortBy` value leaves the list as it is. */
  lemma {:induction false} UnorderedKeepsOrder(xs: seq<User>)
    ensures Sort(xs, Unordered) == xs
  {
    if xs != [] {
      UnorderedKeepsOrder(xs[..|xs| - 1]);
      InsertUnorderedAppends(xs[|xs| - 1], xs[..|xs| - 1]);
      assert xs[..|xs| - 1] + [xs[|xs| - 1]] == xs;
    }
  }

  /** The listed cards. */
  function SortedStudents(users: seq<User>, term: string, grade: string, sortBy: string): seq<User> {
    Sort(Filtered(users, term, grade), ModeOf(sortBy))
  }

  /** The two progress fields the page's buttons update. */
  datatype FieldUpdate = SetCompletedLessons(lessons: int) | SetTotalScore(score: int)

  function FieldName(f: FieldUpdate): string {
    match f case SetCompletedLessons(_) => "completedLessons" case SetTotalScore(_) => "totalScore"
  }

  /** `Updated ${field} for student`. */
  function UpdateNotice(f: FieldUpdate): string {
    "Updated " + FieldName(f) + " for student"
  }

  function WithField(p: Progress, f: FieldUpdate): Progress {
    match f
    case SetCompletedLessons(n) => p.(completedLessons := n)
    case SetTotalScore(n) => p.(totalScore := n)
  }

  /** The user `updateStudentProgress` builds: the progress is rebuilt with its
      `|| default` fallbacks and the one field overwritten. */
  function Updated(u: User, f: FieldUpdate, now: string): User {
    u.(progress := Some(WithField(FilledProgress(u.progress, now), f)))
  }

  /** The named field gets the value; every other progress field is the filled
      one, and the rest of the user is untouched. */
  lemma UpdatedSetsOneField(u: User, f: FieldUpdate, now: string)
    ensures var p := Updated(u, f, now).progress.value;
            var q := FilledProgress(u.progress, now);
            && (f.SetCompletedLessons? ==> p.completedLessons == f.lessons && p == q.(completedLessons := f.lessons))
            && (f.SetTotalScore? ==> p.totalScore == f.score && p == q.(totalScore := f.score))
            && Updated(u, f, now).(progress := u.progress) == u
  {
  }

  /** `users.map(...)` in `updateStudentProgress`. */
  function UpdateById(users: seq<User>, studentId: string, f: FieldUpdate, now: string): (r: seq<User>)
    ensures |r| == |users|
    ensures forall i :: 0 <= i < |users| ==>
              r[i] == if users[i].id == studentId then Updated(users[i], f, now) else users[i]
  {
    seq(|users|, i requires 0 <= i < |users| =>
          if users[i].id == studentId then Updated(users[i], f, now) else users[i])
  }

  /** Updating one student twice with the same value is the same as once. */
  lemma UpdateByIdIdempotent(users: seq<User>, studentId: string, f: FieldUpdate, now: string)
    ensures UpdateById(UpdateById(users, studentId, f, now), studentId, f, now) == UpdateById(users, studentId, f, now)
  {
    var once := UpdateById(users, studentId, f, now);
    forall i | 0 <= i < |users| && users[i].id == studentId
      ensures Updated(once[i], f, now) == once[i]
    {
      var q := FilledProgress(users[i].progress, now);
      assert FilledProgress(once[i].progress, now) == WithField(q, f);
    }
  }

  /** The "+1 Lesson" value: `Math.min(lessons + 1, 5)`. */
  function NextLessons(u: User): (r: int)
    ensures r <= 5
    ensures Lessons(u) < 5 ==> r == Lessons(u) + 1
    ensures Lessons(u) >= 5 ==> r == 5
  {
    if Lessons(u) + 1 < 5 then Lessons(u) + 1 else 5
  }

  /** The "+10 Score" value: `Math.min(score + 10, 100)`. */
  function NextScore(u: User): (r: int)
    ensures r <= 100
    ensures ScoreOf(u) <= 90 ==> r == ScoreOf(u) + 10
    ensures ScoreOf(u) > 90 ==> r == 100
  {
    if ScoreOf(u) + 10 < 100 then ScoreOf(u) + 10 else 100
  }

  /** Pressing "+1 Lesson" on a student leaves their lesson count at most 5:
      the button cannot push it past the page's five lessons. */
  lemma LessonButtonCapped(u: User, now: string)
    ensures Lessons(Updated(u, SetCompletedLessons(NextLessons(u)), now)) <= 5
    ensures ScoreOf(Updated(u, SetTotalScore(NextScore(u)), now)) <= 100
  {
  }

  predicate HasId(users: seq<User>, id: string) {
    exists u :: u in users && u.id == id
  }

  /** The roll lookup's merge: the found user is appended only when no user
      has that id. */
  function Merge(users: seq<User>, found: User): (r: seq<User>)
    ensures HasId(users, found.id) ==> r == users
    ensures !HasId(users, found.id) ==> r == users + [found]
  {
    if exists u :: u in users && u.id == found.id then users else users + [found]
  }

  predicate DistinctIds(users: seq<User>) {
    forall i, j :: 0 <= i < j < |users| ==> users[i].id != users[j].id
  }

  /** Merging keeps ids distinct and merging twice adds nothing more. */
  lemma MergeSpec(users: seq<User>, found: User)
    ensures DistinctIds(users) ==> DistinctIds(Merge(users, found))
    ensures HasId(Merge(users, found), found.id)
    ensures Merge(Merge(users, found), found) == Merge(users, found)
  {
    if !HasId(users, found.id) {
      var r := users + [found];
      assert found in r;
      if DistinctIds(users) {
        forall i, j | 0 <= i < j < |r| ensures r[i].id != r[j].id {
          if j == |users| { assert r[i] in users; }
        }
      }
    }
  }

  /** What the roll-number query returned. */
  datatype Lookup = NotFound | Found(user: User) | Failed

  class Page {
    var users: seq<User>
    var searchTerm: string
    var sortBy: string
    var gradeFilter: string
    var rollLookup: string
    var loadingLookup: bool
    var notices: seq<string>

    constructor (users0: seq<User>)
      ensures users == users0 && searchTerm == "" && sortBy == "username" && gradeFilter == ""
      ensures rollLookup == "" && !loadingLookup && notices == []
    {
      users, searchTerm, sortBy, gradeFilter := users0, "", "username", "";
      rollLookup, loadingLookup, notices := "", false, [];
    }

    function Listed(): seq<User>
      reads this
    {
      SortedStudents(users, searchTerm, gradeFilter, sortBy)
    }

    /** `updateStudentProgress`. */
    method UpdateStudentProgress(studentId: string, f: FieldUpdate, now: string)
      modifies this
      ensures users == UpdateById(old(users), studentId, f, now)
      ensures notices == old(notices) + [UpdateNotice(f)]
      ensures searchTerm == old(searchTerm) && sortBy == old(sortBy) && gradeFilter == old(gradeFilter)
      ensures rollLookup == old(rollLookup) && loadingLookup == old(loadingLookup)
    {
      users := UpdateById(users, studentId, f, now);
      notices := notices + [UpdateNotice(f)];
    }

    /** The "+1 Lesson" button of a card. */
    method AddLesson(student: User, now: string)
      modifies this
      ensures users == UpdateById(old(users), student.id, SetCompletedLessons(NextLessons(student)), now)
      ensures forall i :: 0 <= i < |users| && users[i].id == student.id ==> Lessons(users[i]) <= 5
      ensures notices == old(notices) + [UpdateNotice(SetCompletedLessons(NextLessons(student)))]
      ensures searchTerm == old(searchTerm) && sortBy == old(sortBy) && gradeFilter == old(gradeFilter)
      ensures rollLookup == old(rollLookup) && loadingLookup == old(loadingLookup)
    {
      UpdateStudentProgress(student.id, SetCompletedLessons(NextLessons(student)), now);
    }

    /** The "+10 Score" button of a card. */
    method AddScore(student: User, now: string)
      modifies this
      ensures users == UpdateById(old(users), student.id, SetTotalScore(NextScore(student)), now)
      ensures forall i :: 0 <= i < |users| && users[i].id == student.id ==> ScoreOf(users[i]) <= 100
      ensures notices == old(notices) + [UpdateNotice(SetTotalScore(NextScore(student)))]
      ensures searchTerm == old(searchTerm) && sortBy == old(sortBy) && gradeFilter == old(gradeFilter)
      ensures rollLookup == old(rollLookup) && loadingLookup == old(loadingLookup)
    {
      UpdateStudentProgress(student.id, SetTotalScore(NextScore(student)), now);
    }

    /** `fetchStudentByRoll`; `outcome` is what the query returned. A blank roll
        number does nothing; otherwise the page reports the outcome and the
        loading flag ends cleared. */
    method FetchStudentByRoll(outcome: Lookup)
      modifies this
      ensures Trim(old(rollLookup)) == [] ==> users == old(users) && notices == old(notices) && loadingLookup == old(loadingLookup)
      ensures Trim(old(rollLookup)) != [] ==> !loadingLookup
      ensures Trim(old(rollLookup)) != [] && outcome.NotFound? ==>
                users == old(users) && notices == old(notices) + ["No student found with that roll number"]
      ensures Trim(old(rollLookup)) != [] && outcome.Found? ==>
                users == Merge(old(users), outcome.user) && notices == old(notices) + ["Student loaded by roll number"]
      ensures Trim(old(rollLookup)) != [] && outcome.Failed? ==>
                users == old(users) && notices == old(notices) + ["Failed to fetch student by roll number"]
      ensures searchTerm == old(searchTerm) && sortBy == old(sortBy) && gradeFilter == old(gradeFilter)
      ensures rollLookup == old(rollLookup)
    {
      if Trim(rollLookup) == [] {
        return;
      }
      loadingLookup := true;
      match outcome {
        case NotFound =>
          notices := notices + ["No student found with that roll number"];
        case Found(u) =>
          users := Merge(users, u);
          notices := notices + ["Student loaded by roll number"];
        case Failed =>
          notices := notices + ["Failed to fetch student by roll number"];
      }
      loadingLookup := false;
    }
  }
}
