# Physics learning platform — a verified model

The repository is a React/TypeScript learning site for school physics. It ships twice:

- the main application under `src/`:
  - class, subject and chapter navigation;
  - a gamification panel (XP, levels, badges, streaks);
  - lessons with animated demos and quizzes;
  - teacher pages for students, attendance, a dashboard and a quiz editor;
  - an AI tutor chat;
  - three mini-games: the dog runner, card matching and drag-and-drop.
- a second copy under `physics-learning-platform/`:
  - a local login page;
  - its own attendance, assignments, lessons, profile and notification pages;
  - the GravityDrop and FormulaMatch games.

This project models the state logic of those pages and games in Dafny and proves what each one promises.

How the model is built:

- **Pages whose handlers update React state become classes.**
  - Each class keeps that state in fields.
  - It has one method per handler, with its whole new state stated in `ensures`.
  - Pure parts become functions with lemmas: filters, record builders, formulas, score rules and the CSV builder.
- **Closures capture values at render time.**
  - In React, `setX` calls take effect in sequence, but a handler reads the values it captured when the page rendered.
  - The class methods follow the source as written, with the same order and the same captured values. Two examples: `addXP` inside `completeChapter` spreads the progress as it was before the append (`GamificationSystem.Panel.Complete`), and the drag-and-drop completion test reads the item list from before the drop (`DragDropGame.Game.Drop`).
  - Where this departs from what the code evidently intends, a corrected function and its lemmas sit beside the as-written one, and "## Findings" names both.
- **Host inputs become parameters.** Clock readings, random draws, key states and replies from the chat service come in as parameters.
- **Numbers.**
  - JavaScript numbers are modelled as `real` where the source computes fractions and as `int` where it only counts.
  - A division that yields `NaN` is modelled as `None`.

Files:

| file | models |
|---|---|
| `common.dfy` | `Option`, the `\|\|` fallback, `Math.round` |
| `app_types.dfy` | the application types: users, progress, records, quizzes, notifications |
| `lab_types.dfy` | the second copy's users and profile |
| `text.dfy` | trimming, lower-casing, substring search, code-point order, number text, JSON quoting, joining |
| `string_sort.dfy` | the sorted, duplicate-free list of grades or dates |
| `attendance_page.dfy` | the main attendance page |
| `lab_attendance_page.dfy` | the second copy's attendance page |
| `students_page.dfy` | the students page |
| `teacher_dashboard.dfy` | the teacher dashboard |
| `assignments_page.dfy` | the second copy's assignments page |
| `create_quiz_page.dfy` | the quiz editor |
| `quiz_page.dfy` | the quiz page |
| `platform.dfy` | the navigation and chapter completion of `PhysicsLearningPlatform` |
| `gamification.dfy` | the gamification system |
| `lessons_page.dfy` | the main lessons page |
| `lab_lessons_page.dfy` | the second copy's lessons page |
| `lab_login_page.dfy` | the second copy's login page |
| `profile_page.dfy` | the profile page |
| `notifications_page.dfy` | the notifications page |
| `ai_chat.dfy` | the tutor chat |
| `dog_running_game.dfy` | the dog runner |
| `gravity_drop.dfy` | GravityDrop |
| `formula_match.dfy` | FormulaMatch |
| `matching_game.dfy` | the matching game |
| `drag_drop_game.dfy` | the drag-and-drop game |

## Model

| member | source | states |
|---|---|---|
| Common.Round | src/components/QuizPage.tsx:39 | `Math.round` gives an integer within half a unit of its argument (halves round up) |
| AppTypes.ReplaceById | src/components/QuizPage.tsx:58 | the user list keeps its length; entries with the updated user's id become that user, all others are unchanged |
| AppTypes.Students | src/components/StudentsPage.tsx:26 | the student filter keeps exactly the users whose type is student, and nothing else |
| LabTypes.ReplaceLabUser | physics-learning-platform/src/components/ProfilePage.tsx:27 | as for the main application's users: same length, only entries with the id replaced |
| LabTypes.LabStudents | physics-learning-platform/src/components/AttendancePage.tsx:14 | keeps exactly the users whose type is student |
| Text.TrimEmptyIff | src/components/AIChat.tsx:44-45 | a trimmed string is empty exactly when the string is all whitespace in the ECMAScript sense |
| Text.TrimHasNoOuterWhitespace | physics-learning-platform/src/pages/LoginPage.tsx:31 | a trimmed string starts and ends with a non-whitespace character |
| Text.TrimStart | src/components/StudentsPage.tsx:51 | the result is a suffix of the input, everything dropped is whitespace, and it starts with non-whitespace |
| Text.TrimEnd | src/components/StudentsPage.tsx:51 | the result is a prefix of the input, everything dropped is whitespace, and it ends with non-whitespace |
| Text.Lower | src/components/StudentsPage.tsx:30-31 | `toLowerCase` keeps the length and maps each character through the lower-case mapping of ASCII letters |
| Text.IncludesIff | src/components/StudentsPage.tsx:30-31 | `includes` holds exactly when the pattern occurs at some position of the text |
| Text.LexIrreflexive | src/components/AttendancePage.tsx:26 | the default string order of `sort()` is irreflexive |
| Text.LexTransitive | src/components/AttendancePage.tsx:26 | the default string order is transitive |
| Text.LexTotal | src/components/AttendancePage.tsx:26 | any two different strings are ordered one way or the other |
| Text.LexAsymmetric | src/components/StudentsPage.tsx:40 | the order used for `localeCompare` is asymmetric |
| Text.NatToString | src/components/AIChat.tsx:52 | decimal text of a number is non-empty and made of digits |
| Text.NatToStringValue | src/components/AIChat.tsx:52 | the decimal text reads back as the number it prints, and has no leading zero except for 0 itself |
| Text.IntToString | src/components/AIChat.tsx:52 | `String(n)` is non-empty |
| Text.JsonEscapeChar | src/components/AttendancePage.tsx:70-75 | an escaped character is itself or a backslash sequence, never a raw newline |
| Text.JsonEscape | src/components/AttendancePage.tsx:70-75 | the escaped body of a string literal holds no newline |
| Text.JsonEscapePlain | src/components/AttendancePage.tsx:70-75 | text without quotes, backslashes or control characters is written unescaped inside the literal |
| Text.JsonQuote | src/components/AttendancePage.tsx:70-75 | `JSON.stringify` of a string is quoted at both ends and holds no raw newline |
| Text.JoinNoNewline | src/components/AttendancePage.tsx:78 | joining newline-free cells with a newline-free separator gives a newline-free line |
| StringSort.StrictlySortedIsDistinct | src/components/AttendancePage.tsx:22-26 | a strictly sorted list has no repeated entry |
| StringSort.InsertDistinct | src/components/AttendancePage.tsx:22-26 | inserting into a strictly sorted list keeps it strictly sorted and adds exactly the new element |
| StringSort.SortDistinct | src/components/AttendancePage.tsx:26 | `Array.from(new Set(xs)).sort()` is strictly sorted and holds exactly the elements of `xs` |
| AttendancePage.FilterGrade | src/components/AttendancePage.tsx:19 | the grade filter keeps exactly the students whose lower-cased grade (missing counts as "") equals the lower-cased filter |
| AttendancePage.Listed | src/components/AttendancePage.tsx:17-20 | a user is listed exactly when a student matching the grade filter; with no filter the list is all students |
| AttendancePage.AllGrades | src/components/AttendancePage.tsx:21-27 | the grade buttons are strictly sorted and hold exactly the non-empty grades of students |
| AttendancePage.KeyInjective | src/components/AttendancePage.tsx:37 | for dates of one length, the key `${date}-${id}` determines both the date and the student |
| AttendancePage.Records | src/components/AttendancePage.tsx:43-47 | one record per listed student, in order, for the selected date, with the student's mark or absent |
| AttendancePage.StatusFor | src/components/AttendancePage.tsx:57-60 | the badge finds nothing exactly when no record is for the student on the date |
| AttendancePage.StatusForFirst | src/components/AttendancePage.tsx:58 | a status found comes from a record for the student on the date, with no earlier such record |
| AttendancePage.StatusForAppend | src/components/AttendancePage.tsx:49-58 | after appending records, a status already found stays, otherwise the appended records decide |
| AttendancePage.StatusForRecords | src/components/AttendancePage.tsx:43-47 | among freshly built records a student is found exactly when listed, with the mark or absent |
| AttendancePage.SavedStatus | src/components/AttendancePage.tsx:41-60 | after a save the "Saved:" badge keeps any status it showed before; otherwise a listed student shows the mark (absent when unmarked) and an unlisted one shows nothing |
| AttendancePage.RecordsOf | src/components/AttendancePage.tsx:242 | the summary row's records are exactly the student's records |
| AttendancePage.Count | src/components/AttendancePage.tsx:243-245 | a status count never exceeds the number of records |
| AttendancePage.CountAppend | src/components/AttendancePage.tsx:243-245 | a status count is additive over concatenated records, so a record saved twice is counted twice |
| AttendancePage.RecordsOfAppend | src/components/AttendancePage.tsx:242 | the student's records of concatenated lists are the student's records of each, in order and with repeats |
| AttendancePage.CountsSumToRecords | src/components/AttendancePage.tsx:242-245 | present, absent and late add up to the student's number of records |
| AttendancePage.GradeAttendance | src/components/AttendancePage.tsx:65 | the CSV's records are exactly the records of listed students |
| AttendancePage.Dates | src/components/AttendancePage.tsx:66 | the collected dates are exactly the records' dates |
| AttendancePage.CsvDates | src/components/AttendancePage.tsx:66 | the date columns are strictly sorted and are exactly the dates of listed students' records |
| AttendancePage.RowCells | src/components/AttendancePage.tsx:69-77 | a row has three cells and one per date, and each date cell is that date's status cell |
| AttendancePage.Rows | src/components/AttendancePage.tsx:68-79 | one comma-joined row per listed student, in order |
| AttendancePage.RowIsOneLine | src/components/AttendancePage.tsx:69-78 | a row holds no newline, because every cell is JSON-quoted |
| AttendancePage.CsvShape | src/components/AttendancePage.tsx:63-80 | the file has the Name, Roll, Grade header plus one line per listed student, and no row spans two lines |
| AttendancePage.StatusForGradeAttendance | src/components/AttendancePage.tsx:65-74 | narrowing to listed students' records does not change a listed student's first record on a date |
| AttendancePage.CsvCellIsSavedStatus | src/components/AttendancePage.tsx:57-75 | a CSV date cell shows the same status as the page's "Saved:" badge for that student and date |
| AttendancePage.Page.constructor | src/components/AttendancePage.tsx:15-32 | no grade filter, today's date, no marks, no banner |
| AttendancePage.Page.SelectGrade | src/components/AttendancePage.tsx:120-126 | a grade button sets the filter and nothing else |
| AttendancePage.Page.SelectDate | src/components/AttendancePage.tsx:111 | the date input sets the date and nothing else |
| AttendancePage.Page.MarkAttendance | src/components/AttendancePage.tsx:34-39 | one key of the marks is set for the selected date and student; all other keys keep their marks |
| AttendancePage.Page.SaveAttendance | src/components/AttendancePage.tsx:41-54 | the built records are appended behind the old ones, one notice and the banner name the date, the marks are kept |
| AttendancePage.Page.ClearBanner | src/components/AttendancePage.tsx:54 | the banner's timeout clears the banner and nothing else |
| LabAttendancePage.LabStudentsAppend | physics-learning-platform/src/components/AttendancePage.tsx:14 | the student filter keeps list order: filtering a concatenation filters each part in turn |
| LabAttendancePage.LabStudentsOfStudents | physics-learning-platform/src/components/AttendancePage.tsx:14 | a list made only of students is listed whole |
| LabAttendancePage.Records | physics-learning-platform/src/components/AttendancePage.tsx:29-33 | one record per student, in order, for the selected date, with the mark or absent |
| LabAttendancePage.MarkThenSave | physics-learning-platform/src/components/AttendancePage.tsx:20-33 | marking a student and then saving records that status for the student and changes no record whose key differs |
| LabAttendancePage.UnmarkedAreAbsent | physics-learning-platform/src/components/AttendancePage.tsx:32 | every student unmarked on the date is saved as absent |
| LabAttendancePage.Page.constructor | physics-learning-platform/src/components/AttendancePage.tsx:13-18 | today's date and no marks |
| LabAttendancePage.Page.SelectDate | physics-learning-platform/src/components/AttendancePage.tsx:53 | the date input sets the date and nothing else |
| LabAttendancePage.Page.MarkAttendance | physics-learning-platform/src/components/AttendancePage.tsx:20-25 | one key of the marks is set; all other keys keep their marks |
| LabAttendancePage.Page.SaveAttendance | physics-learning-platform/src/components/AttendancePage.tsx:27-37 | the built records are appended behind the old ones and one notice names the date |
| StudentsPage.FilterStudents | src/components/StudentsPage.tsx:28-35 | a student passes exactly when the lower-cased term occurs in the lower-cased username or email and the grade filter is empty or matches ignoring case |
| StudentsPage.Filtered | src/components/StudentsPage.tsx:26-35 | the listed users are exactly the students passing both filters |
| StudentsPage.EmptyFiltersKeepAll | src/components/StudentsPage.tsx:28-35 | with an empty search and no grade filter the list passes whole, in order |
| StudentsPage.EmptyFiltersListAll | src/components/StudentsPage.tsx:26-35 | with empty filters every student is listed, in order |
| StudentsPage.BeforeTotal | src/components/StudentsPage.tsx:37-48 | the comparator relates any two students one way or the other |
| StudentsPage.BeforeTransitive | src/components/StudentsPage.tsx:37-48 | the comparator's "may stand before" is transitive in every mode |
| StudentsPage.Insert | src/components/StudentsPage.tsx:37-48 | inserting into a list sorted by the comparator keeps it sorted and adds exactly the one element |
| StudentsPage.Sort | src/components/StudentsPage.tsx:37-48 | the sort's result is ordered by the comparator step by step and is a permutation of its input |
| StudentsPage.AdjacentChain | src/components/StudentsPage.tsx:37-48 | in a list ordered step by step, every element may stand before every later one |
| StudentsPage.AdjacentIsSorted | src/components/StudentsPage.tsx:37-48 | ordering step by step gives ordering of every pair |
| StudentsPage.SortSpec | src/components/StudentsPage.tsx:37-48 | the sorted cards are a permutation of the filtered students with names ascending, lessons non-increasing or scores non-increasing, by the selected mode |
| StudentsPage.InsertUnorderedAppends | src/components/StudentsPage.tsx:45-46 | with the tie-everything comparator an insertion appends |
| StudentsPage.UnorderedKeepsOrder | src/components/StudentsPage.tsx:45-46 | any other `sortBy` value keeps the filtered order, as the stable sort does with a comparator that returns 0 |
| StudentsPage.UpdatedSetsOneField | src/components/StudentsPage.tsx:73-94 | the named progress field takes the value, every other progress field is the filled-in default, and the rest of the user is untouched |
| StudentsPage.UpdateById | src/components/StudentsPage.tsx:74-94 | the list keeps its length; the student with the id is updated and every other user is unchanged |
| StudentsPage.UpdateByIdIdempotent | src/components/StudentsPage.tsx:73-94 | pressing a button twice with the same value gives the same list as once |
| StudentsPage.NextLessons | src/components/StudentsPage.tsx:205-207 | "+1 Lesson" adds one up to a cap of 5 |
| StudentsPage.NextScore | src/components/StudentsPage.tsx:213-215 | "+10 Score" adds ten up to a cap of 100 |
| StudentsPage.LessonButtonCapped | src/components/StudentsPage.tsx:204-216 | after either button the student's lessons are at most 5 and score at most 100 |
| StudentsPage.Merge | src/components/StudentsPage.tsx:62-64 | the found user is appended exactly when no user has its id |
| StudentsPage.MergeSpec | src/components/StudentsPage.tsx:61-64 | merging keeps ids distinct, puts the id in the list, and merging again adds nothing |
| StudentsPage.Page.constructor | src/components/StudentsPage.tsx:20-24 | empty search, sort by username, no grade filter, no roll number, not loading |
| StudentsPage.Page.UpdateStudentProgress | src/components/StudentsPage.tsx:73-96 | the users become the updated list and one notice names the field |
| StudentsPage.Page.AddLesson | src/components/StudentsPage.tsx:204-207 | the student's lessons become the capped next value, at most 5, with one notice |
| StudentsPage.Page.AddScore | src/components/StudentsPage.tsx:212-215 | the student's score becomes the capped next value, at most 100, with one notice |
| StudentsPage.Page.FetchStudentByRoll | src/components/StudentsPage.tsx:50-71 | a blank roll number changes nothing; otherwise loading ends, and the not-found, found (merged) and failed outcomes each give their notice |
| TeacherDashboard.AvgProgress | src/components/TeacherDashboard.tsx:25-33 | with no students the average lesson count is 0 |
| TeacherDashboard.AvgScore | src/components/TeacherDashboard.tsx:35-43 | with no students the average score is 0 |
| TeacherDashboard.SumLessonsBounds | src/components/TeacherDashboard.tsx:28-31 | a sum of lesson counts in [0, hi] lies in [0, hi times the count] |
| TeacherDashboard.NearestScaled | src/components/TeacherDashboard.tsx:27-32 | the rounded mean is within half a unit of sum divided by count |
| TeacherDashboard.RoundedMeanBounds | src/components/TeacherDashboard.tsx:27-32 | the rounded mean of values in [0, hi] lies in [0, hi] |
| TeacherDashboard.AvgProgressBounded | src/components/TeacherDashboard.tsx:25-33 | with every student's lessons in [0, 5], the average is in [0, 5] |
| TeacherDashboard.AvgScoreNearest | src/components/TeacherDashboard.tsx:35-43 | the average score is within half a point of the mean score, missing scores counting as 0 |
| TeacherDashboard.Recent | src/components/TeacherDashboard.tsx:115 | the recent list is the first five students (or all when fewer), in order |
| TeacherDashboard.ScoreTier | src/components/TeacherDashboard.tsx:133-135 | green exactly from 80, yellow exactly from 60 below 80, red exactly below 60 |
| TeacherDashboard.Lookup | src/components/TeacherDashboard.tsx:45-66 | a blank roll number does nothing; a found student is merged, "Student added to your list" is said and the field cleared; otherwise list and field stay |
| TeacherDashboard.LookupAddsOnce | src/components/TeacherDashboard.tsx:55-60 | the found student's id is in the list afterwards, distinct ids stay distinct, and a present student is not added again |
| AssignmentsPage.Edited | physics-learning-platform/src/components/AssignmentsPage.tsx:34-43 | the list keeps its length and every id, teacher and creation time; entries with the edited id carry the form's fields, all others are unchanged |
| AssignmentsPage.EditedRoundTrip | physics-learning-platform/src/components/AssignmentsPage.tsx:36-42 | saving an edit twice is saving it once, and loading the edited entry back gives the saved form |
| AssignmentsPage.NewAssignment | physics-learning-platform/src/components/AssignmentsPage.tsx:46-51 | a created assignment carries the form's fields, the teacher's id, the time as id and the creation time |
| AssignmentsPage.Deleted | physics-learning-platform/src/components/AssignmentsPage.tsx:72 | deletion keeps exactly the assignments with another id, and an absent id changes nothing |
| AssignmentsPage.DeletedAppend | physics-learning-platform/src/components/AssignmentsPage.tsx:72 | deletion works part by part, so the remaining assignments keep their order |
| AssignmentsPage.DeletedIdempotent | physics-learning-platform/src/components/AssignmentsPage.tsx:72 | deleting an id twice is deleting it once |
| AssignmentsPage.Page.constructor | physics-learning-platform/src/components/AssignmentsPage.tsx:18-24 | the form is empty and hidden, nothing is being edited |
| AssignmentsPage.Page.OpenForm | physics-learning-platform/src/components/AssignmentsPage.tsx:162-173 | the create buttons show the form and nothing else |
| AssignmentsPage.Page.Type | physics-learning-platform/src/components/AssignmentsPage.tsx:104-130 | the inputs set the form and nothing else |
| AssignmentsPage.Page.Submit | physics-learning-platform/src/components/AssignmentsPage.tsx:26-59 | an incomplete form only adds the fill-in notice; otherwise the edited assignment is updated or a new one appended, with its notice, and the form is reset, hidden and no longer editing |
| AssignmentsPage.Page.Edit | physics-learning-platform/src/components/AssignmentsPage.tsx:61-69 | the assignment is loaded into the shown form and becomes the one being edited |
| AssignmentsPage.Page.Delete | physics-learning-platform/src/components/AssignmentsPage.tsx:71-74 | the assignments with the id are removed and one notice is added |
| AssignmentsPage.Page.Cancel | physics-learning-platform/src/components/AssignmentsPage.tsx:76-80 | the form is reset and hidden and nothing is being edited |
| CreateQuizPage.QuestionAdded | src/components/CreateQuizPage.tsx:17-25 | one blank question is appended; the others, the title and the description stay |
| CreateQuizPage.QuestionUpdated | src/components/CreateQuizPage.tsx:27-34 | only the question at the index changes, and only in the edited field |
| CreateQuizPage.OptionUpdated | src/components/CreateQuizPage.tsx:36-50 | only the one option of the one question changes; option counts, texts and correct answers stay |
| CreateQuizPage.QuestionRemoved | src/components/CreateQuizPage.tsx:172-178 | the question at the index is removed and the others keep their order; an index outside the list changes nothing |
| CreateQuizPage.NewQuiz | src/components/CreateQuizPage.tsx:58-63 | a saved quiz carries the editor's title, description and questions, the teacher's id, the time as id and the creation time |
| CreateQuizPage.EditsKeepAQuestion | src/components/CreateQuizPage.tsx:170-178 | every edit keeps at least one question, removal included since it is offered only with two or more |
| CreateQuizPage.BlankBlocksSave | src/components/CreateQuizPage.tsx:53 | a freshly added question blocks saving until it has text |
| CreateQuizPage.Page.constructor | src/components/CreateQuizPage.tsx:11-15 | the editor starts with an empty title and description and one blank question |
| CreateQuizPage.Page.TypeInfo | src/components/CreateQuizPage.tsx:85-106 | the title and description inputs change only those fields |
| CreateQuizPage.Page.AddQuestion | src/components/CreateQuizPage.tsx:17-25 | the editor takes the added question and keeps at least one |
| CreateQuizPage.Page.UpdateQuestion | src/components/CreateQuizPage.tsx:27-34 | the editor takes the updated question and keeps at least one |
| CreateQuizPage.Page.UpdateOption | src/components/CreateQuizPage.tsx:36-50 | the editor takes the updated option and keeps at least one question |
| CreateQuizPage.Page.RemoveQuestion | src/components/CreateQuizPage.tsx:170-178 | offered with two or more questions, it removes one and keeps at least one |
| CreateQuizPage.Page.SaveQuiz | src/components/CreateQuizPage.tsx:52-72 | a quiz without a title or with an empty question only alerts; otherwise the quiz is appended, a notice names its title, and the editor is reset |
| QuizPage.CorrectAnswers | src/components/QuizPage.tsx:36-38 | the count of correct answers is at most the number of questions; it equals that number exactly when every question is answered correctly, and is 0 exactly when none is |
| QuizPage.ScoreBounds | src/components/QuizPage.tsx:39 | the rounded percentage lies in [0, 100], is 100 when every answer is correct and 0 when none is |
| QuizPage.Submitted | src/components/QuizPage.tsx:41-56 | the submitted user's total score is the quiz score, the score is appended to the earlier quiz scores, every other progress field keeps its `\|\|` fallback value, and nothing outside the progress changes |
| QuizPage.SubmitAppendsOne | src/components/QuizPage.tsx:46 | submitting grows the score list by exactly one, keeps the earlier scores as a prefix and ends with the new score |
| QuizPage.Previous | src/components/QuizPage.tsx:186 | "Previous" moves back one question and never below the first |
| QuizPage.Next | src/components/QuizPage.tsx:202 | "Next" moves forward one question and never past the last |
| QuizPage.StepsStayInRange | src/components/QuizPage.tsx:186-202 | from a valid question index both buttons stay on a valid index, and move by exactly one when they can |
| QuizPage.Page.constructor | src/components/QuizPage.tsx:34 | the page starts on the first question with no answers and no results |
| QuizPage.Page.ChooseOption | src/components/QuizPage.tsx:162 | choosing an option records it for the current question's id and leaves every other answer as it was |
| QuizPage.Page.PreviousQuestion | src/components/QuizPage.tsx:186 | the index becomes `Previous` of the old index and nothing else changes |
| QuizPage.Page.NextQuestion | src/components/QuizPage.tsx:202 | the index becomes `Next` of the old index and nothing else changes |
| QuizPage.Page.Submit | src/components/QuizPage.tsx:35-61 | the score is the rounded percentage of correct answers and lies in [0, 100]; the signed-in user becomes the submitted user, the same record replaces it in the user list, results are shown and the toast is appended |
| QuizPage.Page.Retake | src/components/QuizPage.tsx:114-118 | "Take Another Quiz" hides the results, clears the answers and returns to the first question |
| Platform.FindClass | src/PhysicsLearningPlatform.tsx:102-112 | a class is found exactly for the ids 6 to 12, and the found class has that id and grade |
| Platform.FindSubject | src/PhysicsLearningPlatform.tsx:121-130 | a subject is found exactly for the ids 1 to 6, and the found subject has that id |
| Platform.ClassSelected | src/PhysicsLearningPlatform.tsx:101-118 | an unknown class changes nothing; a known one is selected, the subject dashboard shows and the back stack becomes `["class-selection"]` |
| Platform.SubjectSelected | src/PhysicsLearningPlatform.tsx:120-136 | an unknown subject changes nothing; a known one is selected, the chapter view shows and "subject-dashboard" is pushed on the back stack |
| Platform.BackedToClasses | src/PhysicsLearningPlatform.tsx:138-143 | going back to the classes clears both selections and the stack and shows the class selection |
| Platform.BackedToSubjects | src/PhysicsLearningPlatform.tsx:145-149 | going back to the subjects clears the subject, keeps the class, shows the subject dashboard and pops one entry off a non-empty stack |
| Platform.SubjectRoundTrip | src/PhysicsLearningPlatform.tsx:120-149 | selecting a subject and going back restores the stack and the class and shows the subject dashboard |
| Platform.ClassSubjectBack | src/PhysicsLearningPlatform.tsx:101-149 | class, then subject, then back leaves exactly `["class-selection"]` on the stack with the chosen class selected |
| Platform.ChapterCompleted | src/PhysicsLearningPlatform.tsx:153-168 | completing a chapter adds the XP, recomputes the level from the new total and appends the chapter to the completed list; nothing else in the user changes |
| Platform.ChapterCompletedTwice | src/PhysicsLearningPlatform.tsx:153-168 | completing the same chapter twice records it twice and pays the XP twice |
| Platform.Shell.constructor | src/PhysicsLearningPlatform.tsx:37-49 | the shell starts with nobody signed in, no users, no notifications and the login page |
| Platform.Shell.AddNotification | src/PhysicsLearningPlatform.tsx:91-98 | a notification stamped with the current time is appended and nothing else changes |
| Platform.Shell.ClassSelect | src/PhysicsLearningPlatform.tsx:101-118 | the navigation state becomes `ClassSelected` of the old one and nothing else changes |
| Platform.Shell.SubjectSelect | src/PhysicsLearningPlatform.tsx:120-136 | the navigation state becomes `SubjectSelected` of the old one and nothing else changes |
| Platform.Shell.BackToClasses | src/PhysicsLearningPlatform.tsx:138-143 | the navigation state becomes `BackedToClasses` of the old one and nothing else changes |
| Platform.Shell.BackToSubjects | src/PhysicsLearningPlatform.tsx:145-149 | the navigation state becomes `BackedToSubjects` of the old one and nothing else changes |
| Platform.Shell.ChapterComplete | src/PhysicsLearningPlatform.tsx:151-172 | with nobody signed in nothing happens; otherwise the signed-in user becomes `ChapterCompleted` of it and the toast is appended, while the user list and the navigation are untouched |
| GamificationSystem.CalculateLevel | src/components/GamificationSystem.tsx:30-32 | the level is the 1000-point band that holds the XP (band `level - 1` starts at `(level - 1) * 1000`), and is at least 1 for non-negative XP |
| GamificationSystem.LevelMonotone | src/components/GamificationSystem.tsx:30-32 | more XP never gives a lower level |
| GamificationSystem.LevelReadouts | src/components/GamificationSystem.tsx:35-46 | at the level the XP determines, the XP still needed is between 1 and 1000 and the progress bar is in [0, 100) percent |
| GamificationSystem.LevelTitle | src/components/GamificationSystem.tsx:256-262 | each title is given exactly on its level range: 20 and up, 15-19, 10-14, 5-9, below 5 |
| GamificationSystem.Award | src/components/GamificationSystem.tsx:49-106 | entry `i` of the badge table has id `i + 1` and is stamped with the award time |
| GamificationSystem.HasBadgeAppend | src/components/GamificationSystem.tsx:113 | a badge id is found in a concatenation exactly when it is found in one of the parts |
| GamificationSystem.AwardsUpToAscending | src/components/GamificationSystem.tsx:109-153 | the awards of the first rules come out with strictly ascending ids, so no badge is awarded twice in one check |
| GamificationSystem.AwardsUpToGranted | src/components/GamificationSystem.tsx:109-153 | every award of the first rules is one of the badges 1, 2, 3, 4, 7, not yet held, and stamped with the award time |
| GamificationSystem.AwardsUpToHas | src/components/GamificationSystem.tsx:109-153 | a badge is among the awards of the first rules exactly when one of those rules fires for it |
| GamificationSystem.NewBadgesSpec | src/components/GamificationSystem.tsx:109-153 | the check awards only unheld badges, each at most once, and awards badge 1, 2, 3, 4 or 7 exactly when its threshold (a chapter, 5 quizzes, 10 games, a 7-day streak, level 10) is reached and it is not held |
| GamificationSystem.CheckForNewBadges | src/components/GamificationSystem.tsx:109-153 | the list the five `if`s push onto is the specification `NewBadges` of the progress and the held badges |
| GamificationSystem.AddedXP | src/components/GamificationSystem.tsx:156-172 | the new XP is the old plus the amount, the level is recomputed from it, the new badges are appended after the held ones, the activity date is updated and nothing else changes |
| GamificationSystem.AddedXPKeepsBadges | src/components/GamificationSystem.tsx:169-171 | the held badges stay as a prefix, and badge ids that were distinct stay distinct after the award |
| GamificationSystem.LevelUpIff | src/components/GamificationSystem.tsx:157-159 | with a current level, a level-up is reported exactly when the new XP lies in a higher 1000-point band, and never for a loss |
| GamificationSystem.WithDone | src/components/GamificationSystem.tsx:194-223 | replacing one completed list changes that list and none of the others |
| GamificationSystem.AsWrittenNeverRecords | src/components/GamificationSystem.tsx:192-202 | as written, a completion earns its points but the id is not recorded, so completing the same item again pays again |
| GamificationSystem.CompleteSpec | src/components/GamificationSystem.tsx:192-228 | intended (corrected) behaviour: the completion records a new id after the earlier ones, earns the reward once with the level recomputed, leaves the other lists alone, changes nothing for an id already done, and is idempotent |
| GamificationSystem.StreakUpdated | src/components/GamificationSystem.tsx:231-254 | activity yesterday extends the streak by one, activity today keeps it, anything else restarts it at 1, and only the streak and the activity date change |
| GamificationSystem.Panel.constructor | src/components/GamificationSystem.tsx:14-23 | the panel starts from the user's progress with the `\|\|` fallbacks and has reported nothing |
| GamificationSystem.Panel.AddXP | src/components/GamificationSystem.tsx:156-189 | the progress becomes `AddedXP` of the old one, that record is reported, and the level-up flag is `LevelsUp` |
| GamificationSystem.Panel.Complete | src/components/GamificationSystem.tsx:192-228 | as written: the progress becomes `CompletedAsWritten` of the old one; for a new id the record with the id appended is reported and then the render-time record with the points added, and for a known id nothing is reported |
| GamificationSystem.Panel.UpdateStreak | src/components/GamificationSystem.tsx:231-254 | the progress becomes `StreakUpdated` of the old one and that record is reported |
| DogRunningGame.DrawIsValid | src/components/games/DogRunningGame.tsx:75-123 | every in-range draw from the tables is valid: the question table has eight entries of three options each and the kind table six |
| DogRunningGame.GeneratedShape | src/components/games/DogRunningGame.tsx:119-164 | a generated obstacle stands on the ground, is 30 wide with the height of its kind (30 low, 90 high, 60 otherwise), sits at `800 + 200 * track` on track 0-2; only question and answer obstacles carry the question, and an answer obstacle shows the option of its answer index |
| DogRunningGame.CheckCollisionIff | src/components/games/DogRunningGame.tsx:513-529 | the collision test holds exactly when some obstacle on the dog's track overlaps the dog placed at its lane position |
| DogRunningGame.FindQuestionFirst | src/components/games/DogRunningGame.tsx:613-619 | the question lookup returns the first listed question obstacle overlapping the dog at its own `x`, and nothing exactly when there is none |
| DogRunningGame.LaneHitMissesFixedX | src/components/games/DogRunningGame.tsx:513-619 | on the side tracks a lane hit never overlaps the dog at `x` = 100, so the question lookup cannot find what the collision test hit |
| DogRunningGame.GroundedDogNeverCollides | src/components/games/DogRunningGame.tsx:513-529 | a dog on the ground only shares an edge with ground obstacles, so the collision test never fires |
| DogRunningGame.DogStepSpec | src/components/games/DogRunningGame.tsx:559-588 | one frame of the dog: gravity until it lands at y = 300, `w` jumps only when not in the air, `a`/`d` move one track within 0-2, and the box keeps its `x` and size |
| DogRunningGame.MoveLeft | src/components/games/DogRunningGame.tsx:592-594 | every obstacle moves left by the speed as a new object, in order, with nothing else changed |
| DogRunningGame.FilterMembers | src/components/games/DogRunningGame.tsx:595 | the filter keeps exactly the obstacles it accepts |
| DogRunningGame.KeepOnScreenMembers | src/components/games/DogRunningGame.tsx:595 | the screen filter keeps exactly the obstacles right of -50 |
| DogRunningGame.RemoveSameObjectMembers | src/components/games/DogRunningGame.tsx:536 | the answer filter as written drops exactly the objects identical to the stored question |
| DogRunningGame.IdentityFilterKeepsAll | src/components/games/DogRunningGame.tsx:536 | when no listed object is the stored question, the identity filter keeps the whole list |
| DogRunningGame.MovedObjectsAreNew | src/components/games/DogRunningGame.tsx:592-595 | after a frame's move no listed object is an object handed out before it |
| DogRunningGame.RemoveSpawnMembers | src/components/games/DogRunningGame.tsx:536 | the intended answer removal keeps exactly the obstacles of other spawns |
| DogRunningGame.RemoveSpawnExactlyOne | src/components/games/DogRunningGame.tsx:536 | with distinct spawn ids the intended removal drops exactly the answered obstacle and keeps the rest in order |
| DogRunningGame.SpawnsAppend | src/components/games/DogRunningGame.tsx:598-605 | the spawns only append: at most two obstacles, the first draw's first, the second only while fewer than three are listed |
| DogRunningGame.NextObstaclesFresh | src/components/games/DogRunningGame.tsx:591-608 | the obstacle updater keeps every obstacle well formed with distinct spawn ids and hands out only new objects |
| DogRunningGame.InitialInv | src/components/games/DogRunningGame.tsx:39-66 | the state on mount satisfies the game invariant |
| DogRunningGame.FrameKeepsInv | src/components/games/DogRunningGame.tsx:549-657 | a frame keeps the game invariant: the dog stays a 40 x 40 box at x 100 on tracks 0-2 not below the ground, the speed stays at least 2, and the stored question is no longer listed |
| DogRunningGame.FrameOutcome | src/components/games/DogRunningGame.tsx:549-633 | a running frame advances the clock, raises the speed by 0.2 every 300 frames, keeps the score, pauses exactly on a lane hit, then stores a question only for a question hit at the dog's own `x` and otherwise loses |
| DogRunningGame.GroundedFrameRuns | src/components/games/DogRunningGame.tsx:549-628 | a frame that starts with the dog on the ground never pauses |
| DogRunningGame.AsWrittenAnswerRemovesNothing | src/components/games/DogRunningGame.tsx:536 | as written a correct answer removes no obstacle, because every frame rebuilt the objects the stored question is compared with |
| DogRunningGame.AnswerAsWrittenKeepsInv | src/components/games/DogRunningGame.tsx:532-546 | the answer handler as written keeps the game invariant |
| DogRunningGame.AnswerKeepsInv | src/components/games/DogRunningGame.tsx:532-546 | intended (corrected) behaviour: the answer handler that removes the answered obstacle keeps the game invariant |
| DogRunningGame.AnswerOutcome | src/components/games/DogRunningGame.tsx:532-546 | intended (corrected) behaviour: a correct answer removes exactly the answered obstacle, scores 10 and resumes; a wrong answer keeps the obstacles and loses the game |
| DogRunningGame.KeysOutcome | src/components/games/DogRunningGame.tsx:661-684 | a key press records w/a/s/d or answers 1/2/3 with indices 0/1/2, and releasing the key undoes the record |
| DogRunningGame.KeysKeepInv | src/components/games/DogRunningGame.tsx:661-684 | key presses and releases keep the game invariant |
| DogRunningGame.ControlsOutcome | src/components/games/DogRunningGame.tsx:696-771 | restarting is starting, starting twice is starting once, a stopped game does not move, pausing twice changes nothing, and the pause button lets a lost game run on |
| DogRunningGame.ControlsKeepInv | src/components/games/DogRunningGame.tsx:696-771 | start, stop and the pause button keep the game invariant |
| DogRunningGame.Game.constructor | src/components/games/DogRunningGame.tsx:39-66 | the component mounts in the initial state, which satisfies the invariant |
| DogRunningGame.Game.Tick | src/components/games/DogRunningGame.tsx:549-657 | a frame turns the state into `Frame` of the old state and keeps the invariant |
| DogRunningGame.Game.Collide | src/components/games/DogRunningGame.tsx:610-628 | the collision step turns the state into `Collided` of the old state |
| DogRunningGame.Game.AdvanceClock | src/components/games/DogRunningGame.tsx:556-633 | the clock step turns the state into `Clocked` of the old state |
| DogRunningGame.Game.UpdateDog | src/components/games/DogRunningGame.tsx:559-588 | the dog updater turns the state into `DogUpdated` of the old state |
| DogRunningGame.Game.UpdateObstacles | src/components/games/DogRunningGame.tsx:591-608 | the obstacle updater turns the state into `ObstaclesUpdated` of the old state |
| DogRunningGame.Game.HandleAnswer | src/components/games/DogRunningGame.tsx:532-546 | as written: an answer turns the state into `AnswerAsWritten` of the old state, keeps the invariant and leaves the obstacle list as it was |
| DogRunningGame.Game.KeyDown | src/components/games/DogRunningGame.tsx:661-676 | as written: a key press turns the state into `PressKey` of the old state, which answers through `AnswerAsWritten`, and keeps the invariant |
| DogRunningGame.Game.KeyUp | src/components/games/DogRunningGame.tsx:678-684 | a key release turns the state into `ReleaseKey` of the old state and keeps the invariant |
| DogRunningGame.Game.StartGame | src/components/games/DogRunningGame.tsx:696-715 | starting turns the state into `Start` of the old state and keeps the invariant |
| DogRunningGame.Game.StopGame | src/components/games/DogRunningGame.tsx:717-722 | stopping turns the state into `Stop` of the old state and keeps the invariant |
| DogRunningGame.Game.Restart | src/components/games/DogRunningGame.tsx:770-773 | the restart button turns the state into `Start(Stop(...))` of the old state and keeps the invariant |
| DogRunningGame.Game.TogglePause | src/components/games/DogRunningGame.tsx:761 | the pause button flips `paused` and keeps the invariant |
| LessonsPage.FreeFallStartsAtDropHeight | src/components/LessonsPage.tsx:65-67 | the falling ball starts at the drop height 80 |
| LessonsPage.FreeFallMonotone | src/components/LessonsPage.tsx:65-67 | for non-negative times the ball only moves down the canvas |
| LessonsPage.BallCenterY | src/components/LessonsPage.tsx:72 | the drawn ball centre is the free-fall position, clamped at the top of the grass strip (height - 60) |
| LessonsPage.HeightReadout | src/components/LessonsPage.tsx:130 | the height read-out is never negative and is 0 exactly when the ball has reached the grass strip |
| LessonsPage.ArrowMeansInFlight | src/components/LessonsPage.tsx:72-124 | while the velocity arrow is drawn the ball is where free fall puts it and the read-out is positive; otherwise the ball rests on the grass at read-out 0 |
| LessonsPage.RocketY | src/components/LessonsPage.tsx:194 | the rocket as written is never drawn above the grass strip |
| LessonsPage.RocketPinnedToGround | src/components/LessonsPage.tsx:177-194 | although the launch point is above the grass strip, while the projectile is in the air the rocket is drawn pinned to height - 60 |
| LessonsPage.RocketYClamped | src/components/LessonsPage.tsx:189-194 | with the free-fall demo's clamp the rocket is drawn where it is while in the air and never below the grass strip |
| LessonsPage.JsRemRange | src/components/LessonsPage.tsx:308 | JavaScript's remainder of a non-negative number by a positive width lies in [0, width) |
| LessonsPage.UniformOnCanvas | src/components/LessonsPage.tsx:306-308 | the car of the uniform-motion demo is always drawn on the canvas |
| LessonsPage.Selected | src/components/LessonsPage.tsx:466 | the demo picker changes the demo and nothing else |
| LessonsPage.Toggled | src/components/LessonsPage.tsx:484 | Play/Pause flips the running flag and nothing else |
| LessonsPage.Rewound | src/components/LessonsPage.tsx:492 | Reset stops the demo at time 0 on the same demo |
| LessonsPage.HandlerLaws | src/components/LessonsPage.tsx:466-492 | toggling twice restores the state; reset is idempotent, absorbs a toggle and commutes with picking a demo |
| LessonsPage.Throttle | src/components/LessonsPage.tsx:392-399 | intended (corrected) behaviour, with `lastTime` kept between frames: a frame advances the clock by 0.05 and remembers its time exactly when the demo plays and more than 100 ms have passed, and otherwise changes nothing |
| LessonsPage.ThrottleSpacing | src/components/LessonsPage.tsx:389-399 | intended (corrected) behaviour: with the last advance remembered, two advances are more than 100 ms apart |
| LessonsPage.AsWrittenAdvancesEveryFrame | src/components/LessonsPage.tsx:382-427 | as written, two frames 16 ms apart both advance the clock, because every advance re-runs the effect from `lastTime = 0` |
| LessonsPage.CompletedLesson | src/components/LessonsPage.tsx:526-542 | "Mark as Complete" adds one completed lesson up to at most 5 and carries every other progress field over with its fallback |
| LessonsPage.CompletedLessonCap | src/components/LessonsPage.tsx:530 | from a count in [0, 5] the count stays in [1, 5], and a completion at 5 leaves it at 5 |
| LessonsPage.Page.constructor | src/components/LessonsPage.tsx:16-20 | the page holds the animation state, the user and the user list it is handed |
| LessonsPage.Page.SelectDemo | src/components/LessonsPage.tsx:466 | the animation becomes `Selected` of the old one and nothing else changes |
| LessonsPage.Page.TogglePlay | src/components/LessonsPage.tsx:484 | the animation becomes `Toggled` of the old one and nothing else changes |
| LessonsPage.Page.Reset | src/components/LessonsPage.tsx:492 | the animation becomes `Rewound` of the old one and nothing else changes |
| LessonsPage.Page.Animate | src/components/LessonsPage.tsx:389-399 | as written: the animation becomes `AnimateAsWritten` of the old one, the frame throttled from `lastTime = 0`, and the user records and notices are unchanged |
| LessonsPage.Page.MarkComplete | src/components/LessonsPage.tsx:525-546 | the user becomes `CompletedLesson` of it, the same record replaces it in the user list and the completion toast is appended |
| LabLessonsPage.CompletedLesson | physics-learning-platform/src/components/LessonsPage.tsx:92-99 | the completed-lesson count goes up by one and is capped at 5; the score and the quiz scores are carried over (0 and [] without progress) and nothing else changes |
| LabLessonsPage.Page.constructor | physics-learning-platform/src/components/LessonsPage.tsx:15 | the page holds the animation state, the user and the user list it is handed |
| LabLessonsPage.Page.SelectDemo | physics-learning-platform/src/components/LessonsPage.tsx:32 | the animation becomes `Selected` of the old one and nothing else changes |
| LabLessonsPage.Page.TogglePlay | physics-learning-platform/src/components/LessonsPage.tsx:50 | the animation becomes `Toggled` of the old one and nothing else changes |
| LabLessonsPage.Page.Reset | physics-learning-platform/src/components/LessonsPage.tsx:58 | the animation becomes `Rewound` of the old one and nothing else changes |
| LabLessonsPage.Page.MarkComplete | physics-learning-platform/src/components/LessonsPage.tsx:91-103 | the user becomes `CompletedLesson` of it, the same record replaces it in the list and "Lesson completed! Great job!" is appended |
| GravityDrop.HeightAt | physics-learning-platform/src/components/games/GravityDrop.tsx:67 | the height is between the ground and the drop height 100 |
| GravityDrop.HeightNonIncreasing | physics-learning-platform/src/components/games/GravityDrop.tsx:65-67 | while the clock runs forward from 0 the ball never rises |
| GravityDrop.Step | physics-learning-platform/src/components/games/GravityDrop.tsx:64-79 | a frame moves the clock on by 0.016 s and recomputes height and velocity from it; on reaching the ground the run stops and the clock returns to 0, otherwise the clock advances and the play flag stays |
| GravityDrop.InitialInv | physics-learning-platform/src/components/games/GravityDrop.tsx:10-13 | the first render has a non-negative clock and a height in [0, 100] |
| GravityDrop.StepKeepsInv | physics-learning-platform/src/components/games/GravityDrop.tsx:64-107 | a frame and the Play/Pause button keep the clock non-negative and the height in [0, 100] |
| GravityDrop.ConsecutiveFramesFall | physics-learning-platform/src/components/games/GravityDrop.tsx:64-79 | across two frames that do not land the ball does not rise |
| GravityDrop.LandingStops | physics-learning-platform/src/components/games/GravityDrop.tsx:70-76 | a landing frame leaves the ball on the ground, stopped, with the clock rewound and the landing speed still shown |
| GravityDrop.Simulation.constructor | physics-learning-platform/src/components/games/GravityDrop.tsx:10-13 | the simulation starts stopped at time 0, height 100 and velocity 0 |
| GravityDrop.Simulation.Animate | physics-learning-platform/src/components/games/GravityDrop.tsx:63-79 | a frame turns the state into `Step` of the old one and keeps the invariant |
| GravityDrop.Simulation.Reset | physics-learning-platform/src/components/games/GravityDrop.tsx:94-99 | Reset returns to the starting state whatever the state was |
| GravityDrop.Simulation.TogglePlay | physics-learning-platform/src/components/games/GravityDrop.tsx:107 | Play/Pause flips the play flag and nothing else |
| FormulaMatch.FindById | physics-learning-platform/src/components/games/FormulaMatch.tsx:31-32 | the id lookup finds an entry with that id, and none only when no entry has it |
| FormulaMatch.FindByDescription | physics-learning-platform/src/components/games/FormulaMatch.tsx:53-54 | the description lookup finds an entry with that description, and none only when no entry has it |
| FormulaMatch.FormulaClicked | physics-learning-platform/src/components/games/FormulaMatch.tsx:24-44 | with no formula selected the click selects it, and a click on the selected formula deselects it |
| FormulaMatch.DescriptionClicked | physics-learning-platform/src/components/games/FormulaMatch.tsx:46-66 | with no description selected the click selects it, and a click on the selected description deselects it |
| FormulaMatch.FormulaClickNeverMatches | physics-learning-platform/src/components/games/FormulaMatch.tsx:29-43 | a click on another known formula replaces the selection and one on an unknown id changes nothing; the score, the level, the matches and the description never change |
| FormulaMatch.DescriptionClickNeverMatches | physics-learning-platform/src/components/games/FormulaMatch.tsx:51-65 | a click on another known description replaces the selection and one on an unknown one changes nothing; the score, the level, the matches and the formula never change |
| FormulaMatch.NothingEverMatches | physics-learning-platform/src/components/games/FormulaMatch.tsx:24-82 | from the first state every click keeps the matches empty, the score 0 and the level 1, so nothing is ever shown as matched |
| FormulaMatch.Game.constructor | physics-learning-platform/src/components/games/FormulaMatch.tsx:9-13 | the game starts with score 0, level 1, no selection and no matches |
| FormulaMatch.Game.FormulaClick | physics-learning-platform/src/components/games/FormulaMatch.tsx:24-44 | the state becomes `FormulaClicked` of the old one |
| FormulaMatch.Game.DescriptionClick | physics-learning-platform/src/components/games/FormulaMatch.tsx:46-66 | the state becomes `DescriptionClicked` of the old one |
| FormulaMatch.Game.Reset | physics-learning-platform/src/components/games/FormulaMatch.tsx:68-74 | Reset returns to the first state |
| MatchingGame.Deal | src/components/games/MatchingGame.tsx:27-41 | before the shuffle the left texts come first with ids 2i and the right texts after with ids 2i+1, all face down and unmatched |
| MatchingGame.Lefts | src/components/games/MatchingGame.tsx:27-32 | the left cards carry ids 2i and the left texts, face down and unmatched |
| MatchingGame.Rights | src/components/games/MatchingGame.tsx:34-39 | the right cards carry ids 2i+1 and the right texts, face down and unmatched |
| MatchingGame.DealPairs | src/components/games/MatchingGame.tsx:27-41 | the dealt ids are distinct, and two different dealt cards halve to the same pair number exactly when they are the left and right card of one pair |
| MatchingGame.FindItem | src/components/games/MatchingGame.tsx:46 | the lookup finds a card exactly when one has the id, and the found card is a listed card with that id |
| MatchingGame.Flip | src/components/games/MatchingGame.tsx:54-56 | flipping turns the cards with the id face up and leaves every other card as it was |
| MatchingGame.MarkMatched | src/components/games/MatchingGame.tsx:73-77 | the two selected cards are marked matched and every other card is as it was |
| MatchingGame.Unflip | src/components/games/MatchingGame.tsx:86-90 | the two cards of a failed pair are turned face down and every other card is as it was |
| MatchingGame.Cleared | src/components/games/MatchingGame.tsx:100 | every card is turned face down and unmatched, keeping its id and text |
| MatchingGame.ClickOnFlippedIgnored | src/components/games/MatchingGame.tsx:46-48 | a click on a face-up card changes nothing |
| MatchingGame.PairCheckedSpec | src/components/games/MatchingGame.tsx:58-96 | the pair check counts one move, empties the selection and adds a match exactly when both cards exist and halve to the same pair number, then marking both matched |
| MatchingGame.SecondClickChecks | src/components/games/MatchingGame.tsx:50-62 | the click with one card waiting checks the pair (waiting card, clicked card) |
| MatchingGame.SecondClick | src/components/games/MatchingGame.tsx:45-97 | the second card of a pair counts one move, empties the selection and scores a match exactly when both cards exist and share a pair number |
| MatchingGame.ClickKeepsInv | src/components/games/MatchingGame.tsx:45-97 | every click keeps at most one card waiting and no more matches than moves |
| MatchingGame.FirstClick | src/components/games/MatchingGame.tsx:50-56 | the first card of a pair is only flipped and remembered |
| MatchingGame.ResetState | src/components/games/MatchingGame.tsx:99-106 | "Play Again" turns every card face down and unmatched with its id and text, and clears the selection, the counts and the result |
| MatchingGame.FlipMarkSameCards | src/components/games/MatchingGame.tsx:54-77 | flipping and marking keep every card's id and text in place |
| MatchingGame.ClickKeepsCards | src/components/games/MatchingGame.tsx:45-97 | whatever is clicked, the cards keep their ids and texts in place |
| MatchingGame.CalculateScore | src/components/games/MatchingGame.tsx:108-113 | the score is a number exactly when there are moves or a positive match count; with no moves a positive count scores the cap of 200 |
| MatchingGame.ScoreBounds | src/components/games/MatchingGame.tsx:108-113 | with moves and no more matches than moves the score lies in [150, 200], is 200 for a perfect game and 150 without matches |
| MatchingGame.Game.constructor | src/components/games/MatchingGame.tsx:26-43 | the game starts on a shuffle of the dealt cards with nothing selected, no counts and no timers |
| MatchingGame.Game.ItemClick | src/components/games/MatchingGame.tsx:45-97 | the state becomes `Clicked` of the old one |
| MatchingGame.Game.CheckPair | src/components/games/MatchingGame.tsx:58-96 | the state becomes `PairChecked` of the old one |
| MatchingGame.Game.FireTimer | src/components/games/MatchingGame.tsx:81-91 | a queued timer fires, leaves the queue, and flips its pair back or shows the result |
| MatchingGame.Game.Reset | src/components/games/MatchingGame.tsx:99-106 | the state becomes `ResetState` of the old one |
| DragDropGame.InitialItems | src/components/games/DragDropGame.tsx:35-40 | item i carries the i-th item text, belongs on target i and is not placed |
| DragDropGame.InitialTargets | src/components/games/DragDropGame.tsx:42-47 | target i carries the i-th label and is empty and not correct |
| DragDropGame.Place | src/components/games/DragDropGame.tsx:71-75 | the dragged item is placed on the target and every other item is as it was |
| DragDropGame.Fill | src/components/games/DragDropGame.tsx:78-82 | the dropped-on target holds an item and is judged, and every other target is as it was |
| DragDropGame.UnplaceAll | src/components/games/DragDropGame.tsx:95 | every item is unplaced and forgets its target, nothing else changes |
| DragDropGame.EmptyAll | src/components/games/DragDropGame.tsx:96 | every target is emptied and not correct, nothing else changes |
| DragDropGame.Dropped | src/components/games/DragDropGame.tsx:63-92 | intended (corrected) behaviour of this handler, with the completion test of lines 86-91 reading the list after this drop's update: without a dragged item a drop changes nothing; otherwise the game is complete afterwards exactly when it was or every item is placed after this drop |
| DragDropGame.InitialLayout | src/components/games/DragDropGame.tsx:34-51 | initially item i belongs on target i, nothing is placed and no target holds an item |
| DragDropGame.DropSpec | src/components/games/DragDropGame.tsx:66-84 | a drop counts one move, places exactly the dragged item on the target, fills exactly that target (correct exactly when it is the item's own) and forgets the dragged item |
| DragDropGame.StepsKeepInv | src/components/games/DragDropGame.tsx:53-101 | dragging an unplaced item, dropping and resetting keep item ids distinct and the dragged item a listed unplaced one |
| DragDropGame.AsWrittenNeverCompletes | src/components/games/DragDropGame.tsx:86-91 | as written a drop never completes the game, because the list checked still shows the dropped item unplaced |
| DragDropGame.LastDropCompletes | src/components/games/DragDropGame.tsx:63-92 | the intended drop completes the game exactly when every other item is already placed |
| DragDropGame.ResetSpec | src/components/games/DragDropGame.tsx:94-101 | "Play Again" unplaces every item, empties every target, forgets the dragged item and zeroes the moves, keeping every item and target |
| DragDropGame.CountCorrect | src/components/games/DragDropGame.tsx:104 | the count of correct placements is at most the number of targets |
| DragDropGame.ScoreBounds | src/components/games/DragDropGame.tsx:103-109 | with one target per pair and at least one pair the score lies in [150, 200] |
| DragDropGame.Game.constructor | src/components/games/DragDropGame.tsx:26-51 | the game starts with the initial items and targets, nothing dragged and no moves |
| DragDropGame.Game.DragStart | src/components/games/DragDropGame.tsx:53-56 | the state becomes `DragStarted` of the old one |
| DragDropGame.Game.Drop | src/components/games/DragDropGame.tsx:63-92 | as written: the state becomes `DroppedAsWritten` of the old one, the invariant holds and the completion flag is unchanged |
| DragDropGame.Game.FireResult | src/components/games/DragDropGame.tsx:90 | a pending result timer fires and shows the result |
| DragDropGame.Game.Reset | src/components/games/DragDropGame.tsx:94-101 | the state becomes `ResetState` of the old one |
| LabLoginPage.FindByUsername | physics-learning-platform/src/pages/LoginPage.tsx:31 | the username lookup finds a user with that name, and finds none exactly when no user has it |
| LabLoginPage.FindAccount | physics-learning-platform/src/pages/LoginPage.tsx:60-62 | the credential lookup finds a user with that name and password, and none exactly when no user matches both |
| LabLoginPage.NewStudent | physics-learning-platform/src/pages/LoginPage.tsx:38-46 | a signed-up account is a student with the name, `name@example.com`, the typed password, empty progress and a "10th" profile |
| LabLoginPage.Attempt | physics-learning-platform/src/pages/LoginPage.tsx:24-77 | a blank trimmed username or password is refused; sign-up is refused exactly when the trimmed name is taken and otherwise creates the new student; login succeeds exactly when some user has the trimmed name and the typed password, and otherwise is invalid |
| LabLoginPage.SignupKeepsUsernamesDistinct | physics-learning-platform/src/pages/LoginPage.tsx:30-48 | sign-up never adds a second account under an existing username |
| LabLoginPage.TeacherDemoUsers | physics-learning-platform/src/pages/LoginPage.tsx:105-143 | the teacher demo builds four users, the teacher first and three students with ids `now + 1` to `now + 3` |
| LabLoginPage.DemoTwiceDuplicates | physics-learning-platform/src/pages/LoginPage.tsx:87-101 | pressing the student demo twice leaves two accounts named "demo" |
| LabLoginPage.Page.constructor | physics-learning-platform/src/pages/LoginPage.tsx:14-16 | the form starts empty, in sign-in mode, not loading |
| LabLoginPage.Page.Type | physics-learning-platform/src/pages/LoginPage.tsx:174-192 | the inputs set the username and password and nothing else |
| LabLoginPage.Page.ToggleSignup | physics-learning-platform/src/pages/LoginPage.tsx:211 | the switch flips the mode and nothing else |
| LabLoginPage.Page.Submit | physics-learning-platform/src/pages/LoginPage.tsx:18-20 | submitting only starts the pending state |
| LabLoginPage.Page.FireLogin | physics-learning-platform/src/pages/LoginPage.tsx:22-83 | the callback reaches the outcome `Attempt` decides for the submitted form: one alert; for a sign-up the user is appended and signed in with one welcome notification; for a login the user is signed in on the page for the user's role with one "Welcome back!" notification; a refusal changes nothing else; loading ends |
| LabLoginPage.Page.Apply | physics-learning-platform/src/pages/LoginPage.tsx:48-82 | the state changes of each branch once the outcome is known |
| LabLoginPage.Page.DemoLogin | physics-learning-platform/src/pages/LoginPage.tsx:87-102 | the demo student is appended and signed in on the dashboard, with one alert |
| LabLoginPage.Page.TeacherDemo | physics-learning-platform/src/pages/LoginPage.tsx:105-149 | the teacher and its three students are appended, the teacher is signed in on the teacher dashboard, with one alert |
| NotificationsPage.Dismissed | physics-learning-platform/src/components/NotificationsPage.tsx:35 | the index filter never makes the list longer |
| NotificationsPage.DismissedMissing | physics-learning-platform/src/components/NotificationsPage.tsx:35 | an index outside the list leaves it unchanged |
| NotificationsPage.DismissedInRange | physics-learning-platform/src/components/NotificationsPage.tsx:35 | an index inside the list removes that entry and keeps the others in order |
| NotificationsPage.DismissedSpec | physics-learning-platform/src/components/NotificationsPage.tsx:35 | dismissing removes exactly the entry at the index (as a multiset too), the list is one shorter and the rest keep their order; any other index changes nothing |
| NotificationsPage.Cleared | physics-learning-platform/src/components/NotificationsPage.tsx:44 | clear-all leaves no notification |
| NotificationsPage.DismissEachClears | physics-learning-platform/src/components/NotificationsPage.tsx:35-44 | dismissing the first entry once per entry ends in the same empty list as clear-all |
| AIChat.CloseFrom | src/components/AIChat.tsx:36-37 | the lazy group closes at the first occurrence of the delimiter, with no line terminator before it; when it finds none, no delimiter follows before the next line terminator |
| AIChat.CloseFromPlain | src/components/AIChat.tsx:36-37 | after a stretch of ordinary characters the lazy group closes at the first delimiter |
| AIChat.ReplacePairsAbsent | src/components/AIChat.tsx:36-37 | text without `*` passes a pair rewrite unchanged |
| AIChat.BoldSkipsLastStar | src/components/AIChat.tsx:36 | a single trailing `*` opens no bold pair |
| AIChat.PairRewritten | src/components/AIChat.tsx:36-37 | a delimited stretch of plain text is rewritten as one tag pair around the stretch |
| AIChat.BreakLines | src/components/AIChat.tsx:38 | the line-break pass leaves no newline, and leaves text without newlines unchanged; with `BreakLinesAppend` and `NewlineBecomesBreak`, each newline becomes `<br/>` |
| AIChat.BreakLinesAppend | src/components/AIChat.tsx:38 | the global replace distributes over concatenation: the pass on `a + b` is the pass on `a` followed by the pass on `b` |
| AIChat.NewlineBecomesBreak | src/components/AIChat.tsx:38 | a newline is replaced by `<br/>` |
| AIChat.BreakBetween | src/components/AIChat.tsx:38 | a newline between two newline-free texts becomes one `<br/>` between them, and both texts are kept |
| AIChat.FormatForDisplay | src/components/AIChat.tsx:33-40 | the rendered text never contains a newline |
| AIChat.FormatPlain | src/components/AIChat.tsx:35-38 | text with no `*` and no newline is shown unchanged, so `<` and `&` are not escaped |
| AIChat.FormatBold | src/components/AIChat.tsx:36 | `**s**`, with `s` free of `*` and line breaks, becomes `<strong>s</strong>` |
| AIChat.FormatItalic | src/components/AIChat.tsx:37 | `*s*`, with `s` free of `*` and line breaks, becomes `<em>s</em>` |
| AIChat.SendStepOf | src/components/AIChat.tsx:43-49 | a message is sent exactly when the trimmed input is non-empty, no request is pending and a key is set, and then it is the trimmed, non-empty input; it is skipped exactly when the input is blank or a request is pending; the key is reported missing exactly in the remaining case |
| AIChat.Chat.constructor | src/components/AIChat.tsx:19-22 | the chat starts with no input, no messages, no error and nothing pending |
| AIChat.Chat.Type | src/components/AIChat.tsx:19 | the input changes and nothing else |
| AIChat.Chat.SendMessage | src/components/AIChat.tsx:42-58 | following `SendStepOf`: the error is cleared; a blank trimmed input or a pending request adds nothing; a missing key sets the missing-key error and adds nothing; otherwise the trimmed text is appended as the user's message, the input is cleared and the request is pending |
| AIChat.Chat.Settle | src/components/AIChat.tsx:88-104 | an answer is appended as the assistant's message (the apology when empty); a failure sets its message (a default when empty); nothing is pending afterwards |
| ProfilePage.InitialProfile | physics-learning-platform/src/components/ProfilePage.tsx:14-18 | missing fields load as "", "" and "10th"; a complete stored profile loads as it is |
| ProfilePage.WithField | physics-learning-platform/src/components/ProfilePage.tsx:67-104 | an input changes its own field of the form and no other |
| ProfilePage.Saved | physics-learning-platform/src/components/ProfilePage.tsx:22-25 | the saved user carries the form as its profile; id, username, email, password, type and progress are unchanged |
| ProfilePage.SavedRoundTrip | physics-learning-platform/src/components/ProfilePage.tsx:14-25 | reopening the page after a save loads exactly the saved form (when its grade is set) |
| ProfilePage.ReplaceTwice | physics-learning-platform/src/components/ProfilePage.tsx:27 | saving the same user twice leaves the list as saving it once |
| ProfilePage.SaveReplacesOnlyTheUser | physics-learning-platform/src/components/ProfilePage.tsx:21-27 | after a save the list keeps its length, entries with the user's id become the saved user, every other entry is unchanged, and no other user appears |
| ProfilePage.Page.constructor | physics-learning-platform/src/components/ProfilePage.tsx:13-19 | the form is loaded from the signed-in user and editing is off |
| ProfilePage.Page.ToggleEditing | physics-learning-platform/src/components/ProfilePage.tsx:48 | the header button flips editing and nothing else |
| ProfilePage.Page.Edit | physics-learning-platform/src/components/ProfilePage.tsx:66-105 | an input changes one field of the form |
| ProfilePage.Page.Cancel | physics-learning-platform/src/components/ProfilePage.tsx:127 | cancel ends editing and keeps the typed values |
| ProfilePage.Page.Save | physics-learning-platform/src/components/ProfilePage.tsx:21-30 | the signed-in user and the matching list entries take the form as profile, the list length is unchanged, editing ends, and one notice is added |

## Left out

**Host facilities**
- Canvas painting is not modelled: the dog runner's scenery and HUD, the lesson scenery, faces and arrows, and GravityDrop's drawing produce pixels, not state. Only the positions the drawing code computes are modelled.
- Scheduling is not modelled. `requestAnimationFrame`, `cancelAnimationFrame`, effect clean-ups and `setTimeout` delays belong to the browser. Each callback is modelled as an explicit step, and wall-clock time is an integer millisecond argument.
- `Math.random` is not modelled: obstacle kinds, tracks, questions, spawn chances and the card shuffle are passed in as arguments.
- Firebase is not modelled. This covers both configuration files, the main login page, `onAuthStateChanged`, the `addDoc` of an attendance save and the Firestore student queries. From those queries only the merge-by-id of a fetched student is kept.
- The chat's `fetch` to the OpenAI service and its request payload are not modelled, because they are network I/O. The reply comes in through `AIChat.Chat.Settle` as a `Reply`.
- Dates and clocks are not modelled. `Date.now()` ids and ISO time stamps are parameters. In `updateStreak`, `toDateString` becomes integer day numbers.
- `localeCompare` is modelled as code-point order (`Text.LexLess`), because locale collation belongs to the host.
- `toFixed` HUD strings and the other number text shown on screen are not modelled, since they are presentation only.
- Browser APIs are not modelled:
  - the CSV Blob download: the CSV text itself is modelled;
  - `window.gamificationSystem`;
  - keyboard listeners, whose key states become boolean inputs of a tick;
  - console logging.
- Components that only present data are not modelled: the navigation bars, dashboards, class selection, subject dashboard, chapter view, AI notification system, performance monitor, games pages, notes page, `App`, the second copy's `PhysicsLearningPlatform`, ProjectileGame, and style helpers such as `getItemStyle`, `getTargetStyle`, `getDifficultyColor` and `getLevelIcon`.
- AIChat: `process.env.REACT_APP_OPENAI_API_KEY` is a constructor parameter, and the empty string stands for an unset key.
- AIChat: `isOpen`, `isMinimized` and the Enter-key handler are not modelled, because they only toggle presentation or forward a DOM event to `sendMessage`.

**Numbers**
- Floating point is modelled as exact `real` arithmetic. Rounding error in sums such as `time + 0.016` is not captured.
- LessonsPage.RocketY: `Math.cos(Math.PI / 4)` and `Math.sin(Math.PI / 4)` are the two constants `Cos45 = 0.7071067811865476` and `Sin45 = 0.7071067811865475`, the decimal values of the IEEE doubles those calls return, because trigonometry is not available; the rest of the formula is exact `real` arithmetic, not rounded to doubles.
- LessonsPage.Page.Animate: assumes that React re-renders and re-runs the animation effect before the next frame arrives, so every frame starts from `lastTime = 0`; a frame that reached the old effect first would still see the time it remembered.
- Text.Lower: lower-cases only the ASCII letters A-Z, where JavaScript's `toLowerCase` maps every Unicode letter, so in the model a search for "é" does not find "ÉMILE" (the StudentsPage search and grade filter, the AttendancePage grade filter and the dog runner's key names), because Unicode case tables are not available.
- A JavaScript division that gives `NaN` is `None`.
  - MatchingGame.CalculateScore: with no move and a positive match count, the result is `Infinity`, which the `Math.min` cap turns into 200.

**Modelled as written, though it may surprise**
- DogRunningGame:
  - a dog on the ground (y = 300) never overlaps an obstacle, because obstacles end at y + height = 300 and overlap is strict;
  - the question lookup after a collision uses x = 100 and no track test, so a question obstacle hit on track 1 or 2 ends the game;
  - the pause toggle also resumes a lost game;
  - obstacles scroll with the speed after this tick's increment, because the state queue runs after the increment.
- FormulaMatch: the branch that records a match cannot be reached, so no click adds a match or changes the score.
- Platform.Shell.ChapterComplete:
  - updates only the signed-in user, not `users`;
  - runs no badge check;
  - appends the chapter id even when it is already present, so completing a chapter twice pays twice.
- QuizPage: "Next" on a quiz with no questions sets the index to −1, as `Math.min(n − 1, …)` does.
- MatchingGame:
  - a click on an id that is not on the board still counts as a selection, and a pair holding such an id counts a move;
  - the delayed flip-back and match callbacks are modelled as a queue the caller runs.
- Mojibake in the formula texts is kept character for character.
- AttendancePage:
  - saving the same date again appends the records again;
  - the "Saved:" badge shows the first matching record;
  - the JavaScript `Set` of grades is a duplicate-free list that is then sorted.
- TeacherDashboard: the "Student added" notice also appears when the student was already present.
- LabLoginPage:
  - the demo buttons append users even when their usernames already exist;
  - the password is checked for blankness after trimming, but stored and compared untrimmed;
  - the `catch` branch cannot be reached, because nothing in the `try` block throws.
- Lessons pages: translated notices are kept as their i18n keys, for example `lessons.completed_toast`, because the translation tables are not modelled.

**Contracts stated weaker than the source**
- StudentsPage.Page.UpdateStudentProgress: only the two fields the +1 Lesson and +10 Score buttons pass are modelled, not an arbitrary partial progress record.
- AIChat.ReplacePairs: the regular-expression engine is not modelled in general. The rewrite is specified only by the lemmas for plain text, bold and italics, not for arbitrary nesting.

## Findings

| source | as written | input that shows it | evidently intended | confidence | as-written member | corrected member |
|---|---|---|---|---|---|---|
| src/components/games/DogRunningGame.tsx:536 | a correct answer filters the obstacle list by object identity, but every frame rebuilds each obstacle with `{...obs}`, so the stored question object is never in the list | any correct answer given after at least one frame has run | a correct answer removes the answered obstacle | not executed | DogRunningGame.AsWrittenAnswerRemovesNothing | DogRunningGame.RemoveSpawnExactlyOne |
| src/components/LessonsPage.tsx:389-399 | `lastTime` is a local of an effect that re-runs whenever `time` changes, so it restarts at 0 and the 100 ms throttle never holds | frames at 1000 ms and 1016 ms both advance time by 0.05 | time advances at most once per 100 ms | not executed | LessonsPage.AsWrittenAdvancesEveryFrame | LessonsPage.ThrottleSpacing |
| src/components/LessonsPage.tsx:194 | the rocket's y is clamped with `Math.max(y, height − 60)`, which pins it to the ground strip | t = 1, height = 400: the flight is at y ≈ 277.5, yet the rocket is drawn at 340 | `Math.min`, the clamp the free-fall demo uses, to keep the rocket above the ground | not executed | LessonsPage.RocketPinnedToGround | LessonsPage.RocketYClamped |
| src/components/GamificationSystem.tsx:192-228 | `addXP` spreads the progress captured before the id was appended, so the completed id is overwritten and never recorded | `completeChapter(1)` twice pays 100 XP | an activity is recorded once and pays once | not executed | GamificationSystem.AsWrittenNeverRecords | GamificationSystem.CompleteSpec |
| src/components/games/DragDropGame.tsx:87 | the completion test reads the item list from before the drop | dropping the last unplaced item never completes the game | the drop that places the last item completes the game | not executed | DragDropGame.AsWrittenNeverCompletes | DragDropGame.LastDropCompletes |
