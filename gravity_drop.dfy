/** The gravity-drop simulation (physics-learning-platform/src/components/games/GravityDrop.tsx):
    a ball dropped from 100 m, advanced by 0.016 s per animation frame under
    g = 9.8, that stops and rewinds its clock when it reaches the ground. */
module GravityDrop {

  const G: real := 9.8
  const FrameTime: real := 0.016
  const DropHeight: real := 100.0

  /** The height at time `t`: max(0, 100 - 0.5 * g * t * t). */
  function HeightAt(t: real): (r: real)
    ensures 0.0 <= r <= DropHeight
  {
    var h := DropHeight - 0.5 * G * t * t;
    if h > 0.0 then h else 0.0
  }

  /** The ball does not rise while the clock runs forward from zero. */
  lemma HeightNonIncreasing(t1: real, t2: real)
    requires 0.0 <= t1 <= t2
    ensures HeightAt(t2) <= HeightAt(t1)
  {
    assert t1 * t1 <= t1 * t2 <= t2 * t2;
  }

  datatype Drop = Drop(isPlaying: bool, time: real, height: real, velocity: real)

  function Initial(): Drop {
    Drop(false, 0.0, DropHeight, 0.0)
  }

  /** The states the simulation can be in: a clock that has not run backwards
      and a height between the ground and the drop height. */
  predicate Inv(d: Drop) {
    d.time >= 0.0 && 0.0 <= d.height <= DropHeight
  }

  /** One `animate` frame: the clock moves on by 0.016 s, height and velocity are
      recomputed from it, and on reaching the ground the run stops and the
      clock returns to 0. */
  function Step(d: Drop): (r: Drop)
    ensures r.velocity == G * (d.time + FrameTime)
    ensures r.height == HeightAt(d.time + FrameTime)
    ensures r.height <= 0.0 ==> !r.isPlaying && r.time == 0.0
    ensures r.height > 0.0 ==> r.isPlaying == d.isPlaying && r.time == d.time + FrameTime
  {
    var newTime := d.time + FrameTime;
    var newHeight := HeightAt(newTime);
    var newVelocity := G * newTime;
    if newHeight <= 0.0 then Drop(false, 0.0, newHeight, newVelocity)
    else d.(time := newTime, height := newHeight, velocity := newVelocity)
  }

  /** Play/Pause. */
  function Toggled(d: Drop): Drop {
    d.(isPlaying := !d.isPlaying)
  }

  lemma InitialInv()
    ensures Inv(Initial())
  {
  }

  /** Every handler keeps the height within [0, 100] and the clock non-negative. */
  lemma StepKeepsInv(d: Drop)
    requires Inv(d)
    ensures Inv(Step(d)) && Inv(Toggled(d))
  {
  }

  /** Across two frames that do not land, the ball does not rise. */
  lemma ConsecutiveFramesFall(d: Drop)
    requires Inv(d)
    requires Step(d).height > 0.0 && Step(Step(d)).height > 0.0
    ensures Step(Step(d)).height <= Step(d).height
  {
    HeightNonIncreasing(d.time + FrameTime, d.time + FrameTime + FrameTime);
  }

  /** Landing: the ball lies on the ground, the run is over and the clock is
      rewound, while the velocity still reports the landing speed. */
  lemma LandingStops(d: Drop)
    requires Inv(d)
    requires HeightAt(d.time + FrameTime) == 0.0
    ensures Step(d) == Drop(false, 0.0, 0.0, G * (d.time + FrameTime))
  {
  }

  /** The simulation component. */
  class Simulation {
    var isPlaying: bool
    var time: real
    var height: real
    var velocity: real

    function Snapshot(): Drop
      reads this
    {
      Drop(isPlaying, time, height, velocity)
    }

    constructor ()
      ensures Snapshot() == Initial() && Inv(Snapshot())
    {
      isPlaying, time, height, velocity := false, 0.0, DropHeight, 0.0;
    }

    /** The `animate` callback: the `setTime` updater computes the new time and
        sets height and velocity; on landing it stops the run and returns 0. */
    method Animate()
      requires Inv(Snapshot())
      modifies this
      ensures Snapshot() == Step(old(Snapshot())) && Inv(Snapshot())
    {
      StepKeepsInv(Snapshot());
      var newTime := time + FrameTime;
      var newHeight := HeightAt(newTime);
      var newVelocity := G * newTime;
      height := newHeight;
      velocity := newVelocity;
      if newHeight <= 0.0 {
        isPlaying := false;
        time := 0.0;
      } else {
        time := newTime;
      }
    }

    /** Reset: the state the simulation starts in, whatever it was. */
    method Reset()
      modifies this
      ensures Snapshot() == Initial()
    {
      isPlaying := false;
      time := 0.0;
      height := DropHeight;
      velocity := 0.0;
    }

    method TogglePlay()
      modifies this
      ensures Snapshot() == Toggled(old(Snapshot()))
    {
      isPlaying := !isPlaying;
    }
  }
}
