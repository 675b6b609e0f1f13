/** The teacher's dashboard of the main application
    (src/components/TeacherDashboard.tsx): the class averages, the recent
    activity list with its score colours, and the roll-number lookup that adds a
    student to the list. */
module TeacherDashboard {
  import opened Common
  import opened AppTypes
  import opened Text
  import StudentsPage

  /** `students.reduce((sum, s) => sum + (s.progress?.completedLessons || 0), 0)`. */
  function SumLessons(xs: seq<User>): int {
    if xs == [] then 0 else StudentsPage.Lessons(xs[0]) + SumLessons(xs[1..])
  }

  /** The same sum over `totalScore`. */
  function SumScores(xs: seq<User>): int {
    if xs == [] then 0 else StudentsPage.ScoreOf(xs[0]) + SumScores(xs[1..])
  }

  /** `avgProgress`: the rounded mean lesson count, 0 with no students. */
  function AvgProgress(users: seq<User>): (r: int)
    ensures |Students(users)| == 0 ==> r == 0
  {
    var students := Students(users);
    if |students| > 0 then Round(SumLessons(students) as real / |students| as real) else 0
  }

  /** `avgScore`: the rounded mean score, 0 with no students. */
  function AvgScore(users: seq<User>): (r: int)
    ensures |Students(users)| == 0 ==> r == 0
  {
    var students := Students(users);
    if |students| > 0 then Round(SumScores(students) as real / |students| as real) else 0
  }

  lemma {:induction false} SumLessonsBounds(xs: seq<User>, hi: int)
    requires forall i :: 0 <= i < |xs| ==> 0 <= StudentsPage.Lessons(xs[i]) <= hi
    ensures 0 <= SumLessons(xs) <= hi * |xs|
  {
    if xs != [] {
      assert forall i :: 0 <= i < |xs[1..]| ==> xs[1..][i] == xs[i + 1];
      SumLessonsBounds(xs[1..], hi);
    }
  }

  /** Multiplying by a positive number keeps the order of reals. */
  lemma ScaleMonotone(a: real, b: real, n: real)
    requires n > 0.0 && a <= b
    ensures a * n <= b * n
  {
    assert b * n - a * n == (b - a) * n;
  }

  lemma ScaleStrict(a: real, b: real, n: real)
    requires n > 0.0 && a < b
    ensures a * n < b * n
  {
    assert b * n - a * n == (b - a) * n;
  }

  /** `r` is within half a unit of the mean `sum / n`, stated without division. */
  predicate WithinHalf(r: int, sum: int, n: int) {
    (r as real - 0.5) * (n as real) <= sum as real < (r as real + 0.5) * (n as real)
  }

  /** Rounding `sum / n` to `r` puts `sum` within `n / 2` of `r * n`. */
  lemma NearestScaled(sum: int, n: int)
    requires n > 0
    ensures WithinHalf(Round(sum as real / n as real), sum, n)
  {
    var q := sum as real / n as real;
    var r := Round(q);
    assert q * (n as real) == sum as real;
    ScaleMonotone(r as real - 0.5, q, n as real);
    ScaleStrict(q, r as real + 0.5, n as real);
  }

  /** A mean of values in [0, hi] rounds to a value in [0, hi]. */
  lemma RoundedMeanBounds(sum: int, n: int, hi: int)
    requires n > 0 && 0 <= sum <= hi * n
    ensures 0 <= Round(sum as real / n as real) <= hi
  {
    var q := sum as real / n as real;
    assert q * (n as real) == sum as real;
    assert (hi * n) as real == (hi as real) * (n as real);
    if q < 0.0 {
      ScaleStrict(q, 0.0, n as real);
    } else if q > hi as real {
      ScaleStrict(hi as real, q, n as real);
    }
  }

  /** With every student's lesson count in [0, 5], so is the average. */
  lemma AvgProgressBounded(users: seq<User>)
    requires forall u :: u in users && u.userType == Student ==> 0 <= StudentsPage.Lessons(u) <= 5
    ensures 0 <= AvgProgress(users) <= 5
  {
    var students := Students(users);
    if |students| > 0 {
      assert forall i :: 0 <= i < |students| ==> students[i] in users && students[i].userType == Student;
      SumLessonsBounds(students, 5);
      RoundedMeanBounds(SumLessons(students), |students|, 5);
    }
  }

  /** The average score is the integer nearest to the mean score, with missing
      scores counted as 0: within half a point of sum / n. */
  lemma AvgScoreNearest(users: seq<User>)
    requires |Students(users)| > 0
    ensures WithinHalf(AvgScore(users), SumScores(Students(users)), |Students(users)|)
  {
    NearestScaled(SumScores(Students(users)), |Students(users)|);
  }

  /** `students.slice(0, 5)`: the first five students, in list order. */
  function Recent(users: seq<User>): (r: seq<User>)
    ensures |r| == if |Students(users)| < 5 then |Students(users)| else 5
    ensures r == Students(users)[..|r|]
  {
    var students := Students(users);
    if |students| < 5 then students else students[..5]
  }

  datatype Tier = Green | Yellow | Red

  /** The colour of a score badge. */
  function ScoreTier(score: int): (r: Tier)
    ensures r == Green <==> score >= 80
    ensures r == Yellow <==> 60 <= score < 80
    ensures r == Red <==> score < 60
  {
    if score >= 80 then Green else if score >= 60 then Yellow else Red
  }

  /** What a roll-number lookup leaves behind: the list, the notification, and
      the roll-number field (cleared on success). */
  datatype LookupResult = LookupResult(users: seq<User>, notice: Option<string>, rollLookup: string)

  /** `fetchStudentByRoll`; `outcome` is what the query returned. */
  function Lookup(users: seq<User>, rollLookup: string, outcome: StudentsPage.Lookup): (r: LookupResult)
    ensures Trim(rollLookup) == [] ==> r == LookupResult(users, None, rollLookup)
    ensures Trim(rollLookup) != [] && outcome.Found? ==>
              r == LookupResult(StudentsPage.Merge(users, outcome.user), Some("Student added to your list"), "")
    ensures Trim(rollLookup) != [] && !outcome.Found? ==> r.users == users && r.rollLookup == rollLookup
  {
    if Trim(rollLookup) == [] then LookupResult(users, None, rollLookup)
    else
      match outcome
      case NotFound => LookupResult(users, Some("No student found with that roll number"), rollLookup)
      case Found(u) => LookupResult(StudentsPage.Merge(users, u), Some("Student added to your list"), "")
      case Failed => LookupResult(users, Some("Failed to fetch student by roll number"), rollLookup)
  }

  /** A found student ends up in the list exactly once when ids were distinct,
      and a student already present is not added again. */
  lemma LookupAddsOnce(users: seq<User>, rollLookup: string, u: User)
    requires Trim(rollLookup) != []
    ensures var r := Lookup(users, rollLookup, StudentsPage.Found(u));
            && StudentsPage.HasId(r.users, u.id)
            && (StudentsPage.DistinctIds(users) ==> StudentsPage.DistinctIds(r.users))
            && (StudentsPage.HasId(users, u.id) ==> r.users == users)
  {
    StudentsPage.MergeSpec(users, u);
  }
}
