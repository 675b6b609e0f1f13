/** The login page of the second copy of the application
    (physics-learning-platform/src/pages/LoginPage.tsx), which keeps its own
    user list: sign-up adds a student under a fresh username, login looks up a
    username and password, and two demo buttons add ready-made users. The form
    is submitted in one step and handled in a second one, the 100 ms timeout
    firing. */
module LabLoginPage {
  import opened Common
  import opened AppTypes
  import opened LabTypes
  import opened Text

  /** `users.find(u => u.username === name)`. */
  function FindByUsername(users: seq<LabUser>, name: string): (r: Option<LabUser>)
    ensures r.Some? ==> r.value in users && r.value.username == name
    ensures r.None? <==> forall u :: u in users ==> u.username != name
  {
    if users == [] then None
    else if users[0].username == name then Some(users[0])
    else FindByUsername(users[1..], name)
  }

  /** `users.find(u => u.username === name && u.password === password)`. */
  function FindAccount(users: seq<LabUser>, name: string, password: string): (r: Option<LabUser>)
    ensures r.Some? ==> r.value in users && r.value.username == name && r.value.password == password
    ensures r.None? <==> forall u :: u in users ==> !(u.username == name && u.password == password)
  {
    if users == [] then None
    else if users[0].username == name && users[0].password == password then Some(users[0])
    else FindAccount(users[1..], name, password)
  }

  /** The account sign-up creates; `now` stands for `Date.now()`. */
  function NewStudent(name: string, password: string, now: int): (r: LabUser)
    ensures r.username == name && r.email == name + "@example.com" && r.password == password
    ensures r.userType == Student && r.progress == Some(LabProgress(0, 0, []))
    ensures r.profile == Some(Profile(name, name + "@example.com", "10th"))
  {
    LabUser(now, name, name + "@example.com", password, Student, Some(LabProgress(0, 0, [])),
            Some(Profile(name, name + "@example.com", "10th")))
  }

  /** The texts of the page's alerts and notifications. */
  const BlankAlert: string := "Please enter both username and password"
  const TakenAlert: string := "Username already exists. Please choose a different one."
  const CreatedAlert: string := "Account created successfully! Welcome to Physics Motion Lab!"
  const LoginAlert: string := "Login successful!"
  const InvalidAlert: string := "Invalid credentials. Please try again or sign up for a new account."
  const WelcomeNew: string := "Welcome! Your account has been created successfully."
  const WelcomeBack: string := "Welcome back!"

  /** How a submitted form ends. */
  datatype Outcome = Blank | Taken | SignedUp(user: LabUser) | LoggedIn(user: LabUser) | Invalid

  /** What the timeout callback decides for the submitted username, password
      and mode: the branches of `handleLogin` in order. The username is trimmed; the password is checked for blankness
      trimmed but stored and compared as typed. */
  function Attempt(users: seq<LabUser>, username: string, password: string, isSignup: bool, now: int): (r: Outcome)
    ensures r.Blank? <==> Trim(username) == [] || Trim(password) == []
    ensures !r.Blank? && isSignup ==>
              (r.Taken? <==> exists u :: u in users && u.username == Trim(username))
              && (!r.Taken? ==> r == SignedUp(NewStudent(Trim(username), password, now)))
    ensures !r.Blank? && !isSignup ==>
              (r.LoggedIn? <==> exists u :: u in users && u.username == Trim(username) && u.password == password)
              && (r.LoggedIn? ==> r.user in users && r.user.username == Trim(username) && r.user.password == password)
              && (!r.LoggedIn? ==> r.Invalid?)
  {
    if Trim(username) == [] || Trim(password) == [] then Blank
    else if isSignup then
      if FindByUsername(users, Trim(username)).Some? then Taken
      else SignedUp(NewStudent(Trim(username), password, now))
    else
      match FindAccount(users, Trim(username), password)
      case Some(u) => LoggedIn(u)
      case None => Invalid
  }

  /** The page a logged-in user lands on. */
  function PageFor(u: LabUser): string {
    if u.userType == Teacher then "teacher-dashboard" else "dashboard"
  }

  function AlertFor(o: Outcome): string {
    match o
    case Blank => BlankAlert
    case Taken => TakenAlert
    case SignedUp(_) => CreatedAlert
    case LoggedIn(_) => LoginAlert
    case Invalid => InvalidAlert
  }

  predicate DistinctUsernames(users: seq<LabUser>) {
    forall i, j :: 0 <= i < j < |users| ==> users[i].username != users[j].username
  }

  /** Sign-up never creates a second account under a username. */
  lemma SignupKeepsUsernamesDistinct(users: seq<LabUser>, username: string, password: string, now: int)
    requires DistinctUsernames(users)
    ensures var o := Attempt(users, username, password, true, now);
            o.SignedUp? ==> DistinctUsernames(users + [o.user])
  {
    var o := Attempt(users, username, password, true, now);
    if o.SignedUp? {
      var r := users + [o.user];
      forall i, j | 0 <= i < j < |r| ensures r[i].username != r[j].username {
        if j == |users| { assert r[i] in users; }
      }
    }
  }

  /** The student demo user. */
  function DemoStudent(now: int): LabUser {
    LabUser(now, "demo", "demo@example.com", "demo123", Student, Some(LabProgress(2, 85, [80, 90])),
            Some(Profile("Demo Student", "demo@example.com", "10th")))
  }

  /** The teacher demo user. */
  function DemoTeacher(now: int): LabUser {
    LabUser(now, "teacher", "teacher@school.com", "teacher123", Teacher, None,
            Some(Profile("Ms. Johnson", "teacher@school.com", "Teacher")))
  }

  /** The teacher followed by the three demo students. */
  function TeacherDemoUsers(now: int): (r: seq<LabUser>)
    ensures |r| == 4 && r[0] == DemoTeacher(now)
    ensures forall i :: 1 <= i < 4 ==> r[i].userType == Student && r[i].id == now + i
  {
    [DemoTeacher(now),
     LabUser(now + 1, "alice", "alice@student.com", "alice123", Student, Some(LabProgress(3, 85, [85, 92, 78])),
             Some(Profile("Alice Smith", "alice@student.com", "10th"))),
     LabUser(now + 2, "bob", "bob@student.com", "bob123", Student, Some(LabProgress(2, 79, [70, 88])),
             Some(Profile("Bob Johnson", "bob@student.com", "10th"))),
     LabUser(now + 3, "carol", "carol@student.com", "carol123", Student, Some(LabProgress(4, 90, [95, 87, 91, 89])),
             Some(Profile("Carol Davis", "carol@student.com", "10th")))]
  }

  /** The demo buttons add their users without looking at the list, so pressing
      the student demo twice leaves two accounts named "demo". */
  lemma DemoTwiceDuplicates(users: seq<LabUser>, t1: int, t2: int)
    ensures !DistinctUsernames(users + [DemoStudent(t1)] + [DemoStudent(t2)])
  {
    var r := users + [DemoStudent(t1)] + [DemoStudent(t2)];
    assert r[|users|].username == r[|users| + 1].username;
  }

  class Page {
    var users: seq<LabUser>
    var currentUser: Option<LabUser>
    var currentPage: string
    var notifications: seq<Notification>
    var alerts: seq<string>
    var username: string
    var password: string
    var isSignup: bool
    var loading: bool

    constructor (users0: seq<LabUser>)
      ensures users == users0 && currentUser.None? && currentPage == "login"
      ensures notifications == [] && alerts == [] && username == "" && password == ""
      ensures !isSignup && !loading
    {
      users, currentUser, currentPage, notifications, alerts := users0, None, "login", [], [];
      username, password, isSignup, loading := "", "", false, false;
    }

    /** The two inputs, disabled while a submission is pending. */
    method Type(name: string, pass: string)
      requires !loading
      modifies this
      ensures username == name && password == pass && isSignup == old(isSignup) && !loading
      ensures users == old(users) && currentUser == old(currentUser) && currentPage == old(currentPage)
      ensures notifications == old(notifications) && alerts == old(alerts)
    {
      username, password := name, pass;
    }

    /** The "sign up" / "sign in" switch. */
    method ToggleSignup()
      requires !loading
      modifies this
      ensures isSignup == !old(isSignup) && username == old(username) && password == old(password) && !loading
      ensures users == old(users) && currentUser == old(currentUser) && currentPage == old(currentPage)
      ensures notifications == old(notifications) && alerts == old(alerts)
    {
      isSignup := !isSignup;
    }

    /** Submitting the form: the page waits for the timeout. */
    method Submit()
      requires !loading
      modifies this
      ensures loading && username == old(username) && password == old(password) && isSignup == old(isSignup)
      ensures users == old(users) && currentUser == old(currentUser) && currentPage == old(currentPage)
      ensures notifications == old(notifications) && alerts == old(alerts)
    {
      loading := true;
    }

    /** The timeout callback of `handleLogin`; `now` stands for `Date.now()`
        and for the notification's time stamp. */
    method FireLogin(now: int)
      requires loading
      modifies this
      ensures Reached(Attempt(old(users), old(username), old(password), old(isSignup), now), now,
                      old(users), old(currentUser), old(currentPage), old(notifications), old(alerts))
      ensures !loading && username == old(username) && password == old(password) && isSignup == old(isSignup)
    {
      Apply(Attempt(users, username, password, isSignup, now), now);
    }

    /** The state after the callback has reached outcome `o`. */
    predicate Reached(o: Outcome, now: int, users0: seq<LabUser>, user0: Option<LabUser>, page0: string,
                      notifications0: seq<Notification>, alerts0: seq<string>)
      reads this
    {
      && alerts == alerts0 + [AlertFor(o)]
      && (o.Blank? || o.Taken? || o.Invalid? ==>
            users == users0 && currentUser == user0 && currentPage == page0 && notifications == notifications0)
      && (o.SignedUp? ==>
            users == users0 + [o.user] && currentUser == Some(o.user) && currentPage == "dashboard"
            && notifications == [Notification(now, WelcomeNew, now)])
      && (o.LoggedIn? ==>
            users == users0 && currentUser == Some(o.user) && currentPage == PageFor(o.user)
            && notifications == [Notification(now, WelcomeBack, now)])
    }

    /** The callback's effect once its branch is known. */
    method Apply(o: Outcome, now: int)
      modifies this
      ensures Reached(o, now, old(users), old(currentUser), old(currentPage), old(notifications), old(alerts))
      ensures !loading && username == old(username) && password == old(password) && isSignup == old(isSignup)
    {
      match o {
        case SignedUp(newUser) =>
          users := users + [newUser];
          currentUser := Some(newUser);
          notifications := [Notification(now, WelcomeNew, now)];
          currentPage := "dashboard";
        case LoggedIn(user) =>
          currentUser := Some(user);
          notifications := [Notification(now, WelcomeBack, now)];
          currentPage := PageFor(user);
        case _ =>
      }
      alerts := alerts + [AlertFor(o)];
      loading := false;
    }

    /** "Student Demo Login". */
    method DemoLogin(now: int)
      requires !loading
      modifies this
      ensures users == old(users) + [DemoStudent(now)] && currentUser == Some(DemoStudent(now))
      ensures currentPage == "dashboard" && alerts == old(alerts) + ["Demo login successful!"]
      ensures notifications == old(notifications) && !loading
      ensures username == old(username) && password == old(password) && isSignup == old(isSignup)
    {
      var demoUser := DemoStudent(now);
      users := users + [demoUser];
      currentUser := Some(demoUser);
      currentPage := "dashboard";
      alerts := alerts + ["Demo login successful!"];
    }

    /** "Teacher Demo Login": four users appended, the teacher first and signed in. */
    method TeacherDemo(now: int)
      requires !loading
      modifies this
      ensures users == old(users) + TeacherDemoUsers(now) && |users| == |old(users)| + 4
      ensures users[|old(users)|] == DemoTeacher(now) && currentUser == Some(DemoTeacher(now))
      ensures currentPage == "teacher-dashboard" && alerts == old(alerts) + ["Teacher demo login successful!"]
      ensures notifications == old(notifications) && !loading
      ensures username == old(username) && password == old(password) && isSignup == old(isSignup)
    {
      var teacherUser := DemoTeacher(now);
      users := users + TeacherDemoUsers(now);
      currentUser := Some(teacherUser);
      currentPage := "teacher-dashboard";
      alerts := alerts + ["Teacher demo login successful!"];
    }
  }
}
