/** The motion-demo lesson page (src/components/LessonsPage.tsx): the positions
    the three demos draw on a canvas of a given height and width, the animation
    state and its throttled clock, and the "mark as complete" button. Drawing
    itself is not modelled; only the numbers it is driven by. */
module LessonsPage {
  import opened Common
  import opened AppTypes

  function Min(a: real, b: real): real { if a <= b then a else b }
  function Max(a: real, b: real): real { if a >= b then a else b }

  // ---------------------------------------------------------------------------
  // Free fall: gravity 2.0, drop height 80, positions scaled by 5.

  /** Unclamped ball position: 80 + (0.5 * 2.0 * t * t) * 5. */
  function FreeFallY(t: real): real {
    80.0 + (0.5 * 2.0 * t * t) * 5.0
  }

  lemma FreeFallStartsAtDropHeight()
    ensures FreeFallY(0.0) == 80.0
  {
  }

  /** For t >= 0 the ball only goes down the canvas. */
  lemma FreeFallMonotone(t1: real, t2: real)
    requires 0.0 <= t1 <= t2
    ensures FreeFallY(t1) <= FreeFallY(t2)
  {
    assert t1 * t1 <= t1 * t2 <= t2 * t2;
  }

  /** The drawn ball centre, clamped at the top of the grass strip. */
  function BallCenterY(t: real, height: real): (r: real)
    ensures r <= height - 60.0
    ensures r == FreeFallY(t) || r == height - 60.0
    ensures FreeFallY(t) < height - 60.0 ==> r == FreeFallY(t)
  {
    Min(FreeFallY(t), height - 60.0)
  }

  /** The "Height" read-out: max(0, height - 60 - ballY). */
  function HeightReadout(t: real, height: real): (r: real)
    ensures r >= 0.0
    ensures r == 0.0 <==> FreeFallY(t) >= height - 60.0
  {
    Max(0.0, height - 60.0 - FreeFallY(t))
  }

  /** The velocity arrow is drawn while the ball is still above the grass. */
  predicate ArrowShown(t: real, height: real) {
    FreeFallY(t) < height - 60.0
  }

  /** While the arrow is shown the ball is drawn where it really is and its
      height read-out is positive; once it is hidden the ball rests on the grass. */
  lemma ArrowMeansInFlight(t: real, height: real)
    ensures ArrowShown(t, height) ==> BallCenterY(t, height) == FreeFallY(t) && HeightReadout(t, height) > 0.0
    ensures !ArrowShown(t, height) ==> BallCenterY(t, height) == height - 60.0 && HeightReadout(t, height) == 0.0
  {
  }

  // ---------------------------------------------------------------------------
  // Projectile: launch speed 6 at 45 degrees, gravity 1.0, positions scaled by 6.

  /** `Math.cos(Math.PI / 4)` and `Math.sin(Math.PI / 4)` as IEEE doubles. */
  const Cos45: real := 0.7071067811865476
  const Sin45: real := 0.7071067811865475

  function ProjectileX(t: real): real {
    50.0 + 6.0 * Cos45 * t * 6.0
  }

  /** Canvas y of the projectile (y grows downwards), launched from height - 100. */
  function ProjectileY(t: real, height: real): real {
    (height - 100.0) - (6.0 * Sin45 * t * 6.0 - 0.5 * 1.0 * t * t * 6.0)
  }

  /** The drawn rocket y as written: `Math.max(y, height - 60)`. */
  function RocketY(t: real, height: real): (r: real)
    ensures r >= height - 60.0
  {
    Max(ProjectileY(t, height), height - 60.0)
  }

  /** The launch point is above the grass strip, yet the rocket is drawn on the
      strip: while the projectile is in the air the drawn y is pinned to height - 60. */
  lemma RocketPinnedToGround(t: real, height: real)
    requires ProjectileY(t, height) <= height - 60.0
    ensures RocketY(t, height) == height - 60.0
    ensures ProjectileY(0.0, height) < height - 60.0
  {
  }

  /** The clamp the free-fall demo uses, applied to the rocket: it is drawn
      where it is while in the air and never below the grass strip. */
  function RocketYClamped(t: real, height: real): (r: real)
    ensures r <= height - 60.0
    ensures ProjectileY(t, height) <= height - 60.0 ==> r == ProjectileY(t, height)
  {
    Min(ProjectileY(t, height), height - 60.0)
  }

  // ---------------------------------------------------------------------------
  // Uniform motion: speed 2, scaled by 8, wrapping at the canvas width.

  /** JavaScript's `%` on numbers: the remainder of truncating division, with the
      sign of the dividend. */
  function JsRem(a: real, w: real): real
    requires w > 0.0
  {
    if a >= 0.0 then a - w * ((a / w).Floor as real)
    else -((-a) - w * (((-a) / w).Floor as real))
  }

  lemma JsRemRange(a: real, w: real)
    requires w > 0.0 && a >= 0.0
    ensures 0.0 <= JsRem(a, w) < w
  {
    var q := a / w;
    var f := q.Floor as real;
    assert f <= q < f + 1.0;
    assert w * q == a;
    var lo := q - f;
    var hi := f + 1.0 - q;
    assert lo >= 0.0 && hi > 0.0;
    assert w * lo >= 0.0;
    assert w * hi > 0.0;
    assert w * lo == a - w * f;
    assert w * hi == w * f + w - a;
    assert JsRem(a, w) == a - w * f;
  }

  function UniformX(t: real, width: real): real
    requires width > 0.0
  {
    JsRem(2.0 * t * 8.0, width)
  }

  /** The car is always drawn on the canvas. */
  lemma UniformOnCanvas(t: real, width: real)
    requires t >= 0.0 && width > 0.0
    ensures 0.0 <= UniformX(t, width) < width
  {
    JsRemRange(2.0 * t * 8.0, width);
  }

  // ---------------------------------------------------------------------------
  // The animation state and its handlers (the state is owned by the parent and
  // replaced through `setAnimationState(prev => ...)`).

  /** The demo picker: only the demo changes. */
  function Selected(s: AnimationState, d: Demo): (r: AnimationState)
    ensures r.selectedDemo == d && r.isPlaying == s.isPlaying && r.time == s.time
  {
    s.(selectedDemo := d)
  }

  /** Play/Pause: only the running flag flips. */
  function Toggled(s: AnimationState): (r: AnimationState)
    ensures r.isPlaying != s.isPlaying && r.selectedDemo == s.selectedDemo && r.time == s.time
  {
    s.(isPlaying := !s.isPlaying)
  }

  /** Reset: stopped at time zero, on the same demo. */
  function Rewound(s: AnimationState): (r: AnimationState)
    ensures !r.isPlaying && r.time == 0.0 && r.selectedDemo == s.selectedDemo
  {
    s.(isPlaying := false, time := 0.0)
  }

  /** Toggling twice restores the state; reset is idempotent and commutes with
      picking a demo. */
  lemma HandlerLaws(s: AnimationState, d: Demo)
    ensures Toggled(Toggled(s)) == s
    ensures Rewound(Rewound(s)) == Rewound(s)
    ensures Rewound(Selected(s, d)) == Selected(Rewound(s), d)
    ensures Rewound(Toggled(s)) == Rewound(s)
  {
  }

  /** One `animate(now)` call with the last advance at `lastTime` (milliseconds):
      the clock moves by 0.05 when the demo plays and more than 100 ms have passed. */
  function Throttle(s: AnimationState, lastTime: int, now: int): (r: (AnimationState, int))
    ensures r.0.selectedDemo == s.selectedDemo && r.0.isPlaying == s.isPlaying
    ensures s.isPlaying && now - lastTime > 100 ==> r.0.time == s.time + 0.05 && r.1 == now
    ensures !(s.isPlaying && now - lastTime > 100) ==> r == (s, lastTime)
  {
    if s.isPlaying && now - lastTime > 100 then (s.(time := s.time + 0.05), now) else (s, lastTime)
  }

  /** The intended throttle, the corrected counterpart of `AnimateAsWritten`:
      with the last advance remembered, two advances are more than 100 ms apart. */
  lemma ThrottleSpacing(s: AnimationState, lastTime: int, now1: int, now2: int)
    requires s.isPlaying && now1 - lastTime > 100
    ensures var (s1, last1) := Throttle(s, lastTime, now1);
            last1 == now1 && (Throttle(s1, last1, now2).0.time != s1.time ==> now2 - now1 > 100)
  {
  }

  /** The frame callback as the component runs it: `lastTime` is a local of the
      effect, and the effect depends on `animationState.time`, so every advance
      re-runs it and the next frame starts again from `lastTime = 0`. */
  function AnimateAsWritten(s: AnimationState, now: int): AnimationState {
    Throttle(s, 0, now).0
  }

  /** Two frames 16 ms apart both advance the clock: the throttle does not hold. */
  lemma AsWrittenAdvancesEveryFrame(s: AnimationState)
    requires s.isPlaying
    ensures AnimateAsWritten(AnimateAsWritten(s, 1000), 1016).time == s.time + 0.1
  {
  }

  // ---------------------------------------------------------------------------
  // Mark as complete.

  /** The user record the button builds: one more completed lesson, at most 5;
      every other progress field is carried over with the `|| default` fallbacks. */
  function CompletedLesson(u: User, now: string): (r: User)
    ensures r == u.(progress := r.progress) && r.progress.Some?
    ensures var before := FilledProgress(u.progress, now);
            r.progress.value == before.(completedLessons := r.progress.value.completedLessons)
    ensures var n := FilledProgress(u.progress, now).completedLessons;
            r.progress.value.completedLessons == (if n + 1 <= 5 then n + 1 else 5)
  {
    var p := FilledProgress(u.progress, now);
    var n := p.completedLessons + 1;
    u.(progress := Some(p.(completedLessons := if n <= 5 then n else 5)))
  }

  /** Completing lessons never takes the count above 5, and a sixth attempt
      leaves it at 5. */
  lemma CompletedLessonCap(u: User, now: string)
    requires u.progress.Some? && 0 <= u.progress.value.completedLessons <= 5
    ensures 1 <= CompletedLesson(u, now).progress.value.completedLessons <= 5
    ensures u.progress.value.completedLessons == 5 ==> CompletedLesson(u, now).progress.value.completedLessons == 5
  {
  }

  /** The lesson page: the animation state and user list it is handed and the
      messages it passes to `addNotification`. The frame throttle's `lastTime`
      is a local of the animation effect, so it is not a field (`Animate`). */
  class Page {
    var animation: AnimationState
    var currentUser: User
    var users: seq<User>
    var notices: seq<string>

    constructor (animation0: AnimationState, user: User, users0: seq<User>)
      ensures animation == animation0
      ensures currentUser == user && users == users0 && notices == []
    {
      animation := animation0;
      currentUser, users, notices := user, users0, [];
    }

    method SelectDemo(d: Demo)
      modifies this
      ensures animation == Selected(old(animation), d)
      ensures currentUser == old(currentUser)
      ensures users == old(users) && notices == old(notices)
    {
      animation := animation.(selectedDemo := d);
    }

    method TogglePlay()
      modifies this
      ensures animation == Toggled(old(animation))
      ensures currentUser == old(currentUser)
      ensures users == old(users) && notices == old(notices)
    {
      animation := animation.(isPlaying := !animation.isPlaying);
    }

    method Reset()
      modifies this
      ensures animation == Rewound(old(animation))
      ensures currentUser == old(currentUser)
      ensures users == old(users) && notices == old(notices)
    {
      animation := animation.(isPlaying := false, time := 0.0);
    }

    /** One animation frame at time `now` (ms) as written: the frame starts from
        the effect's `lastTime = 0`, because an advance changes `time` and so
        re-runs the effect, and the first frame of each run starts there too. */
    method Animate(now: int)
      modifies this
      ensures animation == AnimateAsWritten(old(animation), now)
      ensures currentUser == old(currentUser) && users == old(users) && notices == old(notices)
    {
      var lastTime := 0;
      if animation.isPlaying {
        if now - lastTime > 100 {
          animation := animation.(time := animation.time + 0.05);
        }
      }
    }

    /** The "Mark as Complete" button; `now` stands for `new Date().toISOString()`. */
    method MarkComplete(now: string)
      modifies this
      ensures currentUser == CompletedLesson(old(currentUser), now)
      ensures users == ReplaceById(old(users), currentUser)
      ensures notices == old(notices) + ["lessons.completed_toast"]
      ensures animation == old(animation)
    {
      var updated := CompletedLesson(currentUser, now);
      currentUser := updated;
      users := ReplaceById(users, updated);
      notices := notices + ["lessons.completed_toast"];
    }
  }
}
