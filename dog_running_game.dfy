/** The three-lane obstacle course of src/components/games/DogRunningGame.tsx:
    obstacle generation, lane-gated collision, the per-frame update of the dog and
    the obstacles, question pauses, answers and restart.

    Random draws (`Math.floor(Math.random() * n)` and the spawn chances) and the
    held keys are inputs. Every obstacle carries two numbers the source keeps
    implicitly: `id`, the spawn it comes from, and `ref`, the identity of the
    JavaScript object. Each frame rebuilds the obstacle objects with `{...obs}`,
    so each frame hands out new `ref`s while `id` stays. */
module DogRunningGame {
  import opened Common
  import Text

  const Gravity: real := 0.8
  const JumpForce: real := -15.0
  const GroundY: real := 300.0
  const TrackWidth: real := 200.0

  datatype Kind = Barrier | LowBarrier | HighBarrier | QuestionKind | AnswerOption

  datatype Question = Question(text: string, options: seq<string>, correct: int)

  datatype Obstacle = Obstacle(
    id: nat,
    ref: nat,
    x: real,
    y: real,
    width: real,
    height: real,
    kind: Kind,
    track: int,
    question: Option<Question>,
    answerText: Option<string>,
    answerIndex: Option<int>)

  datatype Dog = Dog(x: real, y: real, velocityY: real, isJumping: bool,
                     width: real, height: real, track: int)

  datatype Keys = Keys(w: bool, a: bool, s: bool, d: bool)

  /** The random draws of one `generateObstacle` call: the question drawn from
      the question table, an index into the kind table, a track and an answer
      index. */
  datatype Spawn = Spawn(question: Question, kind: nat, track: nat, answer: nat)

  function PhysicsQuestions(): seq<Question> {
    [ Question("What is the acceleration due to gravity on Earth?", ["9.8 m/s²", "10 m/s²", "8.9 m/s²"], 0),
      Question("Which equation represents Newton's Second Law?", ["F = ma", "E = mc²", "v = u + at"], 0),
      Question("What is the unit of force?", ["Joule", "Newton", "Watt"], 1),
      Question("In projectile motion, which component of velocity remains constant?", ["Vertical", "Horizontal", "Both"], 1),
      Question("What is the formula for kinetic energy?", ["KE = ½mv²", "KE = mgh", "KE = mv"], 0),
      Question("What is the SI unit of power?", ["Joule", "Watt", "Newton"], 1),
      Question("Which law states that energy cannot be created or destroyed?", ["Newton's First Law", "Conservation of Energy", "Ohm's Law"], 1),
      Question("What is the speed of light in vacuum?", ["3 × 10⁸ m/s", "3 × 10⁶ m/s", "3 × 10¹⁰ m/s"], 0) ]
  }

  /** The kind table; `barrier` appears twice, so it is drawn with chance 2/6. */
  function ObstacleKinds(): seq<Kind> {
    [Barrier, Barrier, LowBarrier, HighBarrier, QuestionKind, AnswerOption]
  }

  /** Draws that `Math.floor(Math.random() * n)` can produce for each table: the
      question has the three options every table entry has. */
  predicate ValidSpawn(s: Spawn) {
    |s.question.options| == 3 && s.kind < 6 && s.track < 3 && s.answer < 3
  }

  /** The draw that picks entry `qi` of the question table. */
  function Draw(qi: nat, kind: nat, track: nat, answer: nat): Spawn
    requires qi < |PhysicsQuestions()|
  {
    Spawn(PhysicsQuestions()[qi], kind, track, answer)
  }

  /** Every in-range draw from the tables is a valid spawn: the question table has
      eight entries of three options each and the kind table six entries. */
  lemma DrawIsValid(qi: nat, kind: nat, track: nat, answer: nat)
    requires qi < 8 && kind < 6 && track < 3 && answer < 3
    ensures |PhysicsQuestions()| == 8 && |ObstacleKinds()| == 6
    ensures ValidSpawn(Draw(qi, kind, track, answer))
  {
  }

  function HeightOf(k: Kind): real {
    if k == LowBarrier then 30.0 else if k == HighBarrier then 90.0 else 60.0
  }

  /** `generateObstacle`: a new obstacle at the right edge of its track;
      `newId` becomes both its spawn id and its object identity. */
  function GenerateObstacle(s: Spawn, newId: nat): Obstacle
    requires ValidSpawn(s)
  {
    var kind := ObstacleKinds()[s.kind];
    var height := HeightOf(kind);
    var x := 800.0 + TrackWidth * s.track as real;
    if kind == AnswerOption then
      Obstacle(newId, newId, x, GroundY - height, 30.0, height, AnswerOption, s.track,
               Some(s.question), Some(s.question.options[s.answer]), Some(s.answer))
    else
      Obstacle(newId, newId, x, GroundY - height, 30.0, height, kind, s.track,
               if kind == QuestionKind then Some(s.question) else None, None, None)
  }

  /** A generated obstacle stands on the ground, has the height of its kind and
      sits right of the screen in its track; only question and answer obstacles
      carry the question, and an answer obstacle carries the option it shows. */
  lemma GeneratedShape(s: Spawn, newId: nat)
    requires ValidSpawn(s)
    ensures var o := GenerateObstacle(s, newId);
      && o.y + o.height == GroundY
      && o.height == (if o.kind == LowBarrier then 30.0 else if o.kind == HighBarrier then 90.0 else 60.0)
      && 0 <= o.track <= 2 && o.x == 800.0 + TrackWidth * o.track as real && o.x >= 800.0
      && o.width == 30.0
      && (o.kind == AnswerOption ==>
            o.answerIndex.Some? && 0 <= o.answerIndex.value < |s.question.options|
            && o.answerText == Some(s.question.options[o.answerIndex.value]))
      && (o.kind != AnswerOption ==> o.answerText.None? && o.answerIndex.None?)
      && (o.question.Some? <==> (o.kind == QuestionKind || o.kind == AnswerOption))
      && (o.question.Some? ==> o.question.value == s.question)
      && o.id == newId && o.ref == newId
  {
    assert ObstacleKinds()[s.kind] in ObstacleKinds();
  }

  /** Strict axis-aligned overlap of a box at (`ax`, `ay`) of size `aw` x `ah` with
      an obstacle; boxes that only touch do not overlap. */
  predicate Overlap(ax: real, aw: real, ay: real, ah: real, o: Obstacle) {
    ax < o.x + o.width && ax + aw > o.x && ay < o.y + o.height && ay + ah > o.y
  }

  /** The dog's horizontal position on a track, as `checkCollision` computes it. */
  function LaneX(track: int): real {
    100.0 + TrackWidth * track as real
  }

  predicate HitsInLane(dog: Dog, o: Obstacle) {
    dog.track == o.track && Overlap(LaneX(dog.track), dog.width, dog.y, dog.height, o)
  }

  /** `checkCollision`: some obstacle on the dog's own track overlaps the dog placed
      at its lane position. */
  function CheckCollision(dog: Dog, obs: seq<Obstacle>): bool {
    obs != [] && (HitsInLane(dog, obs[0]) || CheckCollision(dog, obs[1..]))
  }

  /** The collision test holds exactly when some listed obstacle is hit in the
      dog's lane. */
  lemma {:induction false} CheckCollisionIff(dog: Dog, obs: seq<Obstacle>)
    ensures CheckCollision(dog, obs) <==> exists i :: 0 <= i < |obs| && HitsInLane(dog, obs[i])
  {
    if obs != [] {
      CheckCollisionIff(dog, obs[1..]);
      assert forall i :: 1 <= i < |obs| ==> obs[i] == obs[1..][i - 1];
    }
  }

  /** The test of the question lookup in the frame update: a question obstacle
      overlapping the dog at the dog's own `x`, with no track test. */
  predicate QuestionHit(dog: Dog, o: Obstacle) {
    o.kind == QuestionKind && Overlap(dog.x, dog.width, dog.y, dog.height, o)
  }

  /** `obstacles.find(...)` with the question test: the first question hit, if any. */
  function FindQuestion(dog: Dog, obs: seq<Obstacle>): Option<Obstacle> {
    if obs == [] then None
    else if QuestionHit(dog, obs[0]) then Some(obs[0])
    else FindQuestion(dog, obs[1..])
  }

  /** The lookup finds the first listed question hit, and finds nothing exactly
      when no listed obstacle is a question hit. */
  lemma {:induction false} FindQuestionFirst(dog: Dog, obs: seq<Obstacle>)
    ensures var r := FindQuestion(dog, obs);
      && (r.Some? ==> exists k :: 0 <= k < |obs| && obs[k] == r.value && QuestionHit(dog, obs[k])
                                  && forall j :: 0 <= j < k ==> !QuestionHit(dog, obs[j]))
      && (r.None? <==> forall k :: 0 <= k < |obs| ==> !QuestionHit(dog, obs[k]))
  {
    if obs != [] {
      if QuestionHit(dog, obs[0]) {
        assert obs[0] == obs[0];
      } else {
        FindQuestionFirst(dog, obs[1..]);
        assert forall k :: 1 <= k < |obs| ==> obs[k] == obs[1..][k - 1];
        var r := FindQuestion(dog, obs[1..]);
        if r.Some? {
          var k :| 0 <= k < |obs[1..]| && obs[1..][k] == r.value && QuestionHit(dog, obs[1..][k])
                   && forall j :: 0 <= j < k ==> !QuestionHit(dog, obs[1..][j]);
          assert obs[k + 1] == r.value;
        }
      }
    }
  }

  /** The obstacle the lookup finds is a listed one, so it is as fresh as the list. */
  lemma FoundIsListed(dog: Dog, obs: seq<Obstacle>, low: nat, top: nat)
    requires AllFresh(obs, low, top)
    ensures FindQuestion(dog, obs).Some? ==> Fresh(FindQuestion(dog, obs).value, low, top)
  {
    FindQuestionFirst(dog, obs);
  }

  /** On a side track (1 or 2) an obstacle the dog hits in its lane never overlaps
      the dog at its fixed `x` of 100, so the question lookup cannot find it: a
      question obstacle hit on those tracks ends the game. */
  lemma LaneHitMissesFixedX(dog: Dog, o: Obstacle)
    requires dog.x == 100.0 && dog.width == 40.0 && o.width == 30.0
    requires 1 <= dog.track <= 2
    requires HitsInLane(dog, o)
    ensures !QuestionHit(dog, o)
  {
    assert LaneX(dog.track) >= 300.0;
  }

  /** A dog standing on the ground (y = 300) only touches the bottom edge of every
      obstacle standing on the ground, so it never collides. */
  lemma GroundedDogNeverCollides(dog: Dog, obs: seq<Obstacle>)
    requires dog.y == GroundY
    requires forall o :: o in obs ==> o.y + o.height == GroundY
    ensures !CheckCollision(dog, obs)
  {
    forall i | 0 <= i < |obs| ensures !HitsInLane(dog, obs[i]) {
      assert obs[i] in obs;
    }
    CheckCollisionIff(dog, obs);
  }

  /** The vertical motion after gravity: the dog reaches the ground this frame. */
  predicate Lands(prev: Dog) {
    prev.y + prev.velocityY + Gravity >= GroundY
  }

  /** Still in the air after the ground test. */
  predicate Airborne(prev: Dog) {
    prev.isJumping && !Lands(prev)
  }

  /** The `setDog` updater of one frame. */
  function DogStep(prev: Dog, keys: Keys): Dog
  {
    var vy := prev.velocityY + Gravity;
    var y := prev.y + vy;
    var landed := y >= GroundY;
    var grounded := if landed then prev.(y := GroundY, velocityY := 0.0, isJumping := false)
                    else prev.(y := y, velocityY := vy);
    var jumped := if keys.w && !grounded.isJumping then grounded.(velocityY := JumpForce, isJumping := true)
                  else grounded;
    var left := if keys.a && jumped.track > 0 then jumped.(track := jumped.track - 1) else jumped;
    if keys.d && left.track < 2 then left.(track := left.track + 1) else left
  }

  /** One frame of the dog: gravity pulls it down until it lands on the ground,
      a held `w` starts a jump only when it is not in the air, `a` and `d` move it
      one track left or right within tracks 0 to 2, and its box keeps its `x` and
      size. */
  lemma DogStepSpec(prev: Dog, keys: Keys)
    ensures var d := DogStep(prev, keys);
      && d.y <= GroundY
      && d.x == prev.x && d.width == prev.width && d.height == prev.height
      && (Lands(prev) ==> d.y == GroundY)
      && (!Lands(prev) ==> d.y == prev.y + prev.velocityY + Gravity)
      && (keys.w && !Airborne(prev) ==> d.velocityY == JumpForce && d.isJumping)
      && (!(keys.w && !Airborne(prev)) ==>
            d.isJumping == Airborne(prev)
            && d.velocityY == (if Lands(prev) then 0.0 else prev.velocityY + Gravity))
      && (0 <= prev.track <= 2 ==> 0 <= d.track <= 2)
      && (0 <= prev.track <= 2 && keys.a && !keys.d ==> d.track == (if prev.track > 0 then prev.track - 1 else 0))
      && (0 <= prev.track <= 2 && keys.d && !keys.a ==> d.track == (if prev.track < 2 then prev.track + 1 else 2))
      && (!keys.a && !keys.d ==> d.track == prev.track)
  {
  }

  /** `prev.map(obs => ({...obs, x: obs.x - speed}))`: every obstacle moves left by
      `speed` as a new object; object `i` gets identity `base + i`. */
  function MoveLeft(obs: seq<Obstacle>, speed: real, base: nat): (r: seq<Obstacle>)
    ensures |r| == |obs|
    ensures forall i :: 0 <= i < |obs| ==> r[i] == obs[i].(x := obs[i].x - speed, ref := base + i)
    decreases |obs|
  {
    if obs == [] then []
    else MoveLeft(obs[..|obs| - 1], speed, base)
         + [obs[|obs| - 1].(x := obs[|obs| - 1].x - speed, ref := base + |obs| - 1)]
  }

  predicate IdsDistinct(obs: seq<Obstacle>) {
    forall i, j :: 0 <= i < j < |obs| ==> obs[i].id != obs[j].id
  }

  /** `Array.prototype.filter` on an obstacle list: the obstacles `keep` accepts,
      in order. */
  function Filter(obs: seq<Obstacle>, keep: Obstacle -> bool): (r: seq<Obstacle>)
    ensures |r| <= |obs|
  {
    if obs == [] then []
    else (if keep(obs[0]) then [obs[0]] else []) + Filter(obs[1..], keep)
  }

  lemma {:induction false} FilterMembers(obs: seq<Obstacle>, keep: Obstacle -> bool)
    ensures forall o :: o in Filter(obs, keep) <==> o in obs && keep(o)
  {
    if obs != [] {
      FilterMembers(obs[1..], keep);
      assert obs == [obs[0]] + obs[1..];
    }
  }

  /** Filtering keeps every obstacle invariant that holds element by element, and
      keeps spawn ids distinct. */
  lemma {:induction false} FilterFresh(obs: seq<Obstacle>, keep: Obstacle -> bool, low: nat, top: nat)
    requires AllFresh(obs, low, top) && IdsDistinct(obs)
    ensures AllFresh(Filter(obs, keep), low, top) && IdsDistinct(Filter(obs, keep))
  {
    if obs != [] {
      var tail := obs[1..];
      assert AllFresh(tail, low, top) && IdsDistinct(tail) by {
        forall i | 0 <= i < |tail| ensures tail[i] == obs[i + 1] { }
      }
      FilterFresh(tail, keep, low, top);
      FilterMembers(tail, keep);
      var rest := Filter(tail, keep);
      forall o | o in rest ensures o.id != obs[0].id {
        var j :| 0 <= j < |tail| && tail[j] == o;
        assert obs[j + 1] == o;
      }
      if keep(obs[0]) {
        var r := [obs[0]] + rest;
        assert forall i :: 1 <= i < |r| ==> r[i] == rest[i - 1];
        assert forall i :: 1 <= i < |r| ==> r[i] in rest;
      }
    }
  }

  /** `.filter(obs => obs.x > -50)`: the obstacles still on screen, in order. */
  function KeepOnScreen(obs: seq<Obstacle>): seq<Obstacle> {
    Filter(obs, (o: Obstacle) => o.x > -50.0)
  }

  /** The screen filter keeps exactly the obstacles right of -50. */
  lemma KeepOnScreenMembers(obs: seq<Obstacle>)
    ensures forall o :: o in KeepOnScreen(obs) <==> o in obs && o.x > -50.0
  {
    FilterMembers(obs, (o: Obstacle) => o.x > -50.0);
  }

  /** The filter of `handleAnswer` as written: `prev.filter(obs => obs !== q)`,
      which compares object identity. */
  function RemoveSameObject(obs: seq<Obstacle>, q: Obstacle): seq<Obstacle> {
    Filter(obs, (o: Obstacle) => o.ref != q.ref)
  }

  /** The identity filter drops exactly the objects identical to `q`. */
  lemma RemoveSameObjectMembers(obs: seq<Obstacle>, q: Obstacle)
    ensures forall o :: o in RemoveSameObject(obs, q) <==> o in obs && o.ref != q.ref
  {
    FilterMembers(obs, (o: Obstacle) => o.ref != q.ref);
  }

  /** The question obstacle stored by a frame comes from the list that frame
      replaced, so no object of the current list is identical to it and the
      identity filter keeps every obstacle. */
  lemma {:induction false} IdentityFilterKeepsAll(obs: seq<Obstacle>, q: Obstacle)
    requires forall i :: 0 <= i < |obs| ==> obs[i].ref != q.ref
    ensures RemoveSameObject(obs, q) == obs
  {
    if obs != [] {
      IdentityFilterKeepsAll(obs[1..], q);
      assert obs == [obs[0]] + obs[1..];
    }
  }

  /** Every object of a frame's moved list is new: its identity is at least `base`. */
  lemma {:induction false} MovedObjectsAreNew(obs: seq<Obstacle>, speed: real, base: nat, q: Obstacle)
    requires q.ref < base
    ensures RemoveSameObject(KeepOnScreen(MoveLeft(obs, speed, base)), q) == KeepOnScreen(MoveLeft(obs, speed, base))
  {
    var moved := MoveLeft(obs, speed, base);
    var kept := KeepOnScreen(moved);
    KeepOnScreenMembers(moved);
    forall i | 0 <= i < |kept| ensures kept[i].ref != q.ref {
      assert kept[i] in kept;
      var j :| 0 <= j < |moved| && moved[j] == kept[i];
    }
    IdentityFilterKeepsAll(kept, q);
  }

  /** The removal the answer handler intends: every obstacle of the answered
      question's spawn goes, every other obstacle stays, in order. */
  function RemoveSpawn(obs: seq<Obstacle>, id: nat): seq<Obstacle> {
    Filter(obs, (o: Obstacle) => o.id != id)
  }

  /** The removal keeps exactly the obstacles of other spawns. */
  lemma RemoveSpawnMembers(obs: seq<Obstacle>, id: nat)
    ensures forall o :: o in RemoveSpawn(obs, id) <==> o in obs && o.id != id
  {
    FilterMembers(obs, (o: Obstacle) => o.id != id);
  }

  lemma RemoveSpawnFresh(obs: seq<Obstacle>, id: nat, low: nat, top: nat)
    requires AllFresh(obs, low, top) && IdsDistinct(obs)
    ensures AllFresh(RemoveSpawn(obs, id), low, top) && IdsDistinct(RemoveSpawn(obs, id))
  {
    FilterFresh(obs, (o: Obstacle) => o.id != id, low, top);
  }

  /** With distinct spawn ids, removing the spawn of obstacle `k` removes exactly
      that obstacle. */
  lemma {:induction false} RemoveSpawnExactlyOne(obs: seq<Obstacle>, k: nat)
    requires IdsDistinct(obs) && k < |obs|
    ensures RemoveSpawn(obs, obs[k].id) == obs[..k] + obs[k + 1..]
  {
    var tail := obs[1..];
    assert IdsDistinct(tail) by {
      forall i, j | 0 <= i < j < |tail| ensures tail[i].id != tail[j].id {
        assert tail[i] == obs[i + 1] && tail[j] == obs[j + 1];
      }
    }
    if k == 0 {
      forall i | 0 <= i < |tail| ensures tail[i].id != obs[0].id {
        assert tail[i] == obs[i + 1];
      }
      RemoveSpawnAbsent(tail, obs[0].id);
      assert obs[..0] + obs[1..] == tail;
    } else {
      assert tail[k - 1] == obs[k];
      RemoveSpawnExactlyOne(tail, k - 1);
      assert obs[0].id != obs[k].id;
      assert RemoveSpawn(obs, obs[k].id) == [obs[0]] + RemoveSpawn(tail, obs[k].id);
      assert tail[..k - 1] == obs[1..k];
      assert tail[k..] == obs[k + 1..];
      assert obs[..k] == [obs[0]] + obs[1..k];
    }
  }

  lemma {:induction false} RemoveSpawnAbsent(obs: seq<Obstacle>, id: nat)
    requires forall i :: 0 <= i < |obs| ==> obs[i].id != id
    ensures RemoveSpawn(obs, id) == obs
  {
    if obs != [] {
      RemoveSpawnAbsent(obs[1..], id);
      assert obs == [obs[0]] + obs[1..];
    }
  }

  predicate WellFormed(o: Obstacle) {
    0 <= o.track <= 2 && o.width == 30.0 && o.y + o.height == GroundY
  }

  /** `newObstacles.push(generateObstacle())` when the draw succeeded and the guard
      `push` holds; the new obstacle gets number `id`. */
  function Push(obs: seq<Obstacle>, spawn: Option<Spawn>, push: bool, id: nat): seq<Obstacle>
    requires spawn.Some? ==> ValidSpawn(spawn.value)
  {
    if spawn.Some? && push then obs + [GenerateObstacle(spawn.value, id)] else obs
  }

  /** The pushes at the end of the `setObstacles` updater: the first spawn if its
      draw succeeded, then the second if its draw succeeded while fewer than three
      obstacles are listed. The new obstacles get numbers `id` and `id + 1`. */
  function Spawns(kept: seq<Obstacle>, spawn1: Option<Spawn>, spawn2: Option<Spawn>, id: nat): seq<Obstacle>
    requires spawn1.Some? ==> ValidSpawn(spawn1.value)
    requires spawn2.Some? ==> ValidSpawn(spawn2.value)
  {
    var one := Push(kept, spawn1, true, id);
    Push(one, spawn2, |one| < 3, id + 1)
  }

  /** The spawns only append to the kept list: at most two obstacles, the first
      spawn's obstacle first, and the second spawn only while fewer than three
      obstacles are listed. */
  lemma SpawnsAppend(kept: seq<Obstacle>, spawn1: Option<Spawn>, spawn2: Option<Spawn>, id: nat)
    requires spawn1.Some? ==> ValidSpawn(spawn1.value)
    requires spawn2.Some? ==> ValidSpawn(spawn2.value)
    ensures var r := Spawns(kept, spawn1, spawn2, id);
      && |kept| <= |r| <= |kept| + 2 && r[..|kept|] == kept
      && (|r| > |kept| ==> spawn1.Some? || spawn2.Some?)
      && (spawn1.Some? ==> |r| > |kept| && r[|kept|] == GenerateObstacle(spawn1.value, id))
      && (spawn1.None? && spawn2.Some? && |kept| < 3 ==> r == kept + [GenerateObstacle(spawn2.value, id + 1)])
      && (spawn1.Some? && spawn2.Some? && |kept| >= 2 ==> |r| == |kept| + 1)
  {
    var one := Push(kept, spawn1, true, id);
    var r := Push(one, spawn2, |one| < 3, id + 1);
    assert one[..|kept|] == kept;
    assert r[..|one|] == one;
    assert r[..|kept|] == one[..|kept|];
  }

  /** The `setObstacles` updater of one frame: move, drop what left the screen,
      then push the spawns. Object identities start at `base`. */
  function NextObstacles(obs: seq<Obstacle>, speed: real, base: nat,
                         spawn1: Option<Spawn>, spawn2: Option<Spawn>): seq<Obstacle>
    requires spawn1.Some? ==> ValidSpawn(spawn1.value)
    requires spawn2.Some? ==> ValidSpawn(spawn2.value)
  {
    Spawns(KeepOnScreen(MoveLeft(obs, speed, base)), spawn1, spawn2, base + |obs|)
  }

  /** Obstacle `o` is well formed, its spawn id is below `top`, and its object
      identity was handed out in [`low`, `top`). */
  predicate Fresh(o: Obstacle, low: nat, top: nat) {
    WellFormed(o) && o.id < top && low <= o.ref < top
  }

  predicate AllFresh(obs: seq<Obstacle>, low: nat, top: nat) {
    forall i :: 0 <= i < |obs| ==> Fresh(obs[i], low, top)
  }

  /** The moved and filtered obstacles keep their shape and spawn ids and are all
      new objects. */
  lemma KeptObstaclesFresh(obs: seq<Obstacle>, speed: real, base: nat)
    requires forall i :: 0 <= i < |obs| ==> WellFormed(obs[i]) && obs[i].id < base
    requires IdsDistinct(obs)
    ensures AllFresh(KeepOnScreen(MoveLeft(obs, speed, base)), base, base + |obs|)
    ensures IdsDistinct(KeepOnScreen(MoveLeft(obs, speed, base)))
  {
    var moved := MoveLeft(obs, speed, base);
    assert AllFresh(moved, base, base + |obs|) && IdsDistinct(moved) by {
      forall i, j | 0 <= i < j < |moved| ensures moved[i].id != moved[j].id {
        assert moved[i].id == obs[i].id && moved[j].id == obs[j].id;
      }
    }
    FilterFresh(moved, (o: Obstacle) => o.x > -50.0, base, base + |obs|);
  }

  /** Pushing a generated obstacle whose number `top` exceeds every listed one
      keeps the list fresh and the spawn ids distinct. */
  lemma PushFresh(obs: seq<Obstacle>, spawn: Option<Spawn>, push: bool, low: nat, top: nat)
    requires spawn.Some? ==> ValidSpawn(spawn.value)
    requires IdsDistinct(obs) && AllFresh(obs, low, top) && low <= top
    ensures IdsDistinct(Push(obs, spawn, push, top)) && AllFresh(Push(obs, spawn, push, top), low, top + 1)
  {
    var r := Push(obs, spawn, push, top);
    if spawn.Some? {
      GeneratedShape(spawn.value, top);
    }
    forall i, j | 0 <= i < j < |r| ensures r[i].id != r[j].id {
      assert i < |obs|;
      assert r[i] == obs[i];
      if j < |obs| {
        assert r[j] == obs[j];
      }
    }
    forall i | 0 <= i < |r| ensures Fresh(r[i], low, top + 1) {
      if i < |obs| {
        assert r[i] == obs[i];
      }
    }
  }

  lemma SpawnsFresh(kept: seq<Obstacle>, spawn1: Option<Spawn>, spawn2: Option<Spawn>, low: nat, id: nat)
    requires spawn1.Some? ==> ValidSpawn(spawn1.value)
    requires spawn2.Some? ==> ValidSpawn(spawn2.value)
    requires AllFresh(kept, low, id) && IdsDistinct(kept) && low <= id
    ensures AllFresh(Spawns(kept, spawn1, spawn2, id), low, id + 2)
    ensures IdsDistinct(Spawns(kept, spawn1, spawn2, id))
  {
    PushFresh(kept, spawn1, true, low, id);
    var one := Push(kept, spawn1, true, id);
    PushFresh(one, spawn2, |one| < 3, low, id + 1);
  }

  /** A frame keeps the game's obstacle invariant: obstacles stay well formed with
      distinct spawn ids, every object is new, and all numbers stay below the next
      unused one. */
  lemma NextObstaclesFresh(obs: seq<Obstacle>, speed: real, base: nat,
                           spawn1: Option<Spawn>, spawn2: Option<Spawn>)
    requires spawn1.Some? ==> ValidSpawn(spawn1.value)
    requires spawn2.Some? ==> ValidSpawn(spawn2.value)
    requires forall i :: 0 <= i < |obs| ==> WellFormed(obs[i]) && obs[i].id < base
    requires IdsDistinct(obs)
    ensures AllFresh(NextObstacles(obs, speed, base, spawn1, spawn2), base, base + |obs| + 2)
    ensures IdsDistinct(NextObstacles(obs, speed, base, spawn1, spawn2))
  {
    KeptObstaclesFresh(obs, speed, base);
    SpawnsFresh(KeepOnScreen(MoveLeft(obs, speed, base)), spawn1, spawn2, base, base + |obs|);
  }

  lemma FreshBelow(obs: seq<Obstacle>, low: nat, top: nat)
    requires AllFresh(obs, low, top)
    ensures forall i :: 0 <= i < |obs| ==> WellFormed(obs[i]) && obs[i].id < top
  {
    forall i | 0 <= i < |obs| ensures WellFormed(obs[i]) && obs[i].id < top {
      assert Fresh(obs[i], low, top);
    }
  }

  /** Objects handed out from `low` on are fresh from 0 on, and none of them is an
      object `q` handed out before `low`. */
  lemma FreshAbove(obs: seq<Obstacle>, low: nat, top: nat, q: Option<Obstacle>)
    requires AllFresh(obs, low, top) && low <= top
    requires q.Some? ==> q.value.ref < low
    ensures AllFresh(obs, 0, top)
    ensures q.Some? ==> NotListed(q.value, obs, top)
  {
    forall i | 0 <= i < |obs| ensures Fresh(obs[i], 0, top) && low <= obs[i].ref {
      assert Fresh(obs[i], low, top);
    }
  }

  /** `q` is not one of the listed objects: every listed identity differs from
      its own, which is below `top`. */
  predicate NotListed(q: Obstacle, obs: seq<Obstacle>, top: nat) {
    q.ref < top && forall i :: 0 <= i < |obs| ==> obs[i].ref != q.ref
  }

  function InitialDog(): Dog {
    Dog(100.0, GroundY, 0.0, false, 40.0, 40.0, 1)
  }

  function NoKeys(): Keys {
    Keys(false, false, false, false)
  }

  /** `gameRef.current.keys[key] = held` for one of w, a, s, d. */
  function WithKey(keys: Keys, key: string, held: bool): Keys {
    if key == "w" then keys.(w := held)
    else if key == "a" then keys.(a := held)
    else if key == "s" then keys.(s := held)
    else if key == "d" then keys.(d := held)
    else keys
  }

  /** The state of the game component: the `gameRef` fields and the React state
      the game loop renders with. `nextRef` is the next unused object identity
      (and spawn id). */
  datatype State = State(
    isPlaying: bool,
    score: int,
    speed: real,
    gameTime: int,
    keys: Keys,
    dog: Dog,
    obstacles: seq<Obstacle>,
    currentQuestion: Option<Obstacle>,
    gameOver: bool,
    paused: bool,
    nextRef: nat)

  /** What every handler keeps: the dog stays a 40 x 40 box at `x` = 100 on one of
      the three tracks and never below the ground; the speed never drops below 2;
      the obstacles are well formed with distinct spawn ids and identities handed
      out below `nextRef`; and a stored question is an object no longer listed. */
  predicate Inv(st: State) {
    Shape(st) && (st.currentQuestion.Some? ==> NotListed(st.currentQuestion.value, st.obstacles, st.nextRef))
  }

  predicate Shape(st: State) {
    && st.dog.x == 100.0 && st.dog.width == 40.0 && st.dog.height == 40.0
    && 0 <= st.dog.track <= 2 && st.dog.y <= GroundY
    && st.speed >= 2.0 && st.gameTime >= 0 && st.score >= 0
    && AllFresh(st.obstacles, 0, st.nextRef) && IdsDistinct(st.obstacles)
  }

  /** Inside a frame, between the collision step and the updaters, the stored
      question may still be listed; it is at least an object handed out already. */
  predicate MidFrame(st: State) {
    Shape(st) && (st.currentQuestion.Some? ==> st.currentQuestion.value.ref < st.nextRef)
  }

  /** The state on mount. */
  function Initial(): State {
    State(false, 0, 2.0, 0, NoKeys(), InitialDog(), [], None, false, false, 0)
  }

  lemma InitialInv()
    ensures Inv(Initial())
  {
  }

  /** The collision step of a frame: `checkCollision` on the rendered dog and
      obstacles; a hit pauses the game, on a question obstacle found at the
      dog's own `x` with that question, otherwise as lost. */
  function Collided(st: State): State {
    if CheckCollision(st.dog, st.obstacles) then
      var found := FindQuestion(st.dog, st.obstacles);
      if found.Some? then st.(currentQuestion := found, paused := true)
      else st.(gameOver := true, paused := true)
    else st
  }

  /** The clock of a frame: `gameTime` advances, and the speed grows by 0.2 when
      it reaches a multiple of 300. */
  function Clocked(st: State): State {
    var time := st.gameTime + 1;
    st.(gameTime := time, speed := if time % 300 == 0 then st.speed + 0.2 else st.speed)
  }

  /** The `setDog` and `setObstacles` updaters. React runs them when it renders,
      after the frame has raised the speed, so the obstacles scroll by the new
      speed. */
  function Updated(st: State, spawn1: Option<Spawn>, spawn2: Option<Spawn>): State
    requires spawn1.Some? ==> ValidSpawn(spawn1.value)
    requires spawn2.Some? ==> ValidSpawn(spawn2.value)
  {
    ObstaclesUpdated(DogUpdated(st), spawn1, spawn2)
  }

  /** The `setDog` updater. */
  function DogUpdated(st: State): State {
    st.(dog := DogStep(st.dog, st.keys))
  }

  /** The `setObstacles` updater; every obstacle it keeps or adds gets a new object. */
  function ObstaclesUpdated(st: State, spawn1: Option<Spawn>, spawn2: Option<Spawn>): State
    requires spawn1.Some? ==> ValidSpawn(spawn1.value)
    requires spawn2.Some? ==> ValidSpawn(spawn2.value)
  {
    st.(obstacles := NextObstacles(st.obstacles, st.speed, st.nextRef, spawn1, spawn2),
        nextRef := st.nextRef + |st.obstacles| + 2)
  }

  /** One `gameLoop` frame: nothing happens unless the game is playing and not
      paused. */
  function Frame(st: State, spawn1: Option<Spawn>, spawn2: Option<Spawn>): State
    requires spawn1.Some? ==> ValidSpawn(spawn1.value)
    requires spawn2.Some? ==> ValidSpawn(spawn2.value)
  {
    if !st.isPlaying || st.paused then st
    else Updated(Clocked(Collided(st)), spawn1, spawn2)
  }

  lemma CollidedMidFrame(st: State)
    requires Inv(st)
    ensures MidFrame(Collided(st))
  {
    FoundIsListed(st.dog, st.obstacles, 0, st.nextRef);
  }

  lemma ClockedMidFrame(st: State)
    requires MidFrame(st)
    ensures MidFrame(Clocked(st))
  {
  }

  lemma DogUpdatedMidFrame(st: State)
    requires MidFrame(st)
    ensures MidFrame(DogUpdated(st))
  {
    DogStepSpec(st.dog, st.keys);
  }

  /** The obstacle updater hands out new identities to every obstacle, so
      afterwards no listed object is the stored question. */
  lemma ObstaclesUpdatedInv(st: State, spawn1: Option<Spawn>, spawn2: Option<Spawn>)
    requires spawn1.Some? ==> ValidSpawn(spawn1.value)
    requires spawn2.Some? ==> ValidSpawn(spawn2.value)
    requires MidFrame(st)
    ensures Inv(ObstaclesUpdated(st, spawn1, spawn2))
  {
    FreshBelow(st.obstacles, 0, st.nextRef);
    NextObstaclesFresh(st.obstacles, st.speed, st.nextRef, spawn1, spawn2);
    var next := NextObstacles(st.obstacles, st.speed, st.nextRef, spawn1, spawn2);
    FreshAbove(next, st.nextRef, st.nextRef + |st.obstacles| + 2, st.currentQuestion);
  }

  lemma FrameKeepsInv(st: State, spawn1: Option<Spawn>, spawn2: Option<Spawn>)
    requires spawn1.Some? ==> ValidSpawn(spawn1.value)
    requires spawn2.Some? ==> ValidSpawn(spawn2.value)
    requires Inv(st)
    ensures Inv(Frame(st, spawn1, spawn2))
  {
    if st.isPlaying && !st.paused {
      CollidedMidFrame(st);
      ClockedMidFrame(Collided(st));
      DogUpdatedMidFrame(Clocked(Collided(st)));
      ObstaclesUpdatedInv(DogUpdated(Clocked(Collided(st))), spawn1, spawn2);
    }
  }

  /** What a running frame decides: it pauses exactly when some obstacle is hit in
      the dog's lane; it then stores a question only if a question obstacle
      overlaps the dog at its fixed `x`, and otherwise loses the game. The score
      does not change, and the speed grows by 0.2 every 300 frames. */
  lemma FrameOutcome(st: State, spawn1: Option<Spawn>, spawn2: Option<Spawn>)
    requires spawn1.Some? ==> ValidSpawn(spawn1.value)
    requires spawn2.Some? ==> ValidSpawn(spawn2.value)
    requires st.isPlaying && !st.paused
    ensures var r := Frame(st, spawn1, spawn2);
      && r.gameTime == st.gameTime + 1 && r.score == st.score
      && r.speed == (if r.gameTime % 300 == 0 then st.speed + 0.2 else st.speed)
      && (r.paused <==> exists i :: 0 <= i < |st.obstacles| && HitsInLane(st.dog, st.obstacles[i]))
      && (r.paused && r.currentQuestion != st.currentQuestion ==>
            exists k :: 0 <= k < |st.obstacles| && r.currentQuestion == Some(st.obstacles[k])
                        && QuestionHit(st.dog, st.obstacles[k]))
      && (!st.gameOver ==>
            (r.gameOver <==> r.paused && forall k :: 0 <= k < |st.obstacles| ==> !QuestionHit(st.dog, st.obstacles[k])))
  {
    CheckCollisionIff(st.dog, st.obstacles);
    FindQuestionFirst(st.dog, st.obstacles);
  }

  /** A frame that starts with the dog on the ground never pauses: ground
      obstacles and a grounded dog only share an edge. */
  lemma GroundedFrameRuns(st: State, spawn1: Option<Spawn>, spawn2: Option<Spawn>)
    requires spawn1.Some? ==> ValidSpawn(spawn1.value)
    requires spawn2.Some? ==> ValidSpawn(spawn2.value)
    requires Inv(st) && st.isPlaying && !st.paused && st.dog.y == GroundY
    ensures !Frame(st, spawn1, spawn2).paused
  {
    forall o | o in st.obstacles ensures o.y + o.height == GroundY {
      var i :| 0 <= i < |st.obstacles| && st.obstacles[i] == o;
      assert Fresh(st.obstacles[i], 0, st.nextRef);
    }
    GroundedDogNeverCollides(st.dog, st.obstacles);
  }

  /** `handleAnswer` with the removal it intends: a correct answer removes the
      question obstacle's spawn, scores 10 and resumes; a wrong one loses the
      game. Without a current question nothing happens. */
  function Answer(st: State, answerIndex: int): State {
    if st.currentQuestion.Some? && st.currentQuestion.value.question.Some? then
      var q := st.currentQuestion.value;
      if answerIndex == q.question.value.correct then
        st.(obstacles := RemoveSpawn(st.obstacles, q.id), score := st.score + 10,
            currentQuestion := None, paused := false)
      else
        st.(gameOver := true, paused := true)
    else st
  }

  /** `handleAnswer` as written: the filter compares object identity. */
  function AnswerAsWritten(st: State, answerIndex: int): State {
    if st.currentQuestion.Some? && st.currentQuestion.value.question.Some? then
      var q := st.currentQuestion.value;
      if answerIndex == q.question.value.correct then
        st.(obstacles := RemoveSameObject(st.obstacles, q), score := st.score + 10,
            currentQuestion := None, paused := false)
      else
        st.(gameOver := true, paused := true)
    else st
  }

  /** As written, a correct answer never removes anything: the stored question is
      an object of an earlier render, and every frame rebuilt all objects. */
  lemma AsWrittenAnswerRemovesNothing(st: State, answerIndex: int)
    requires Inv(st)
    ensures AnswerAsWritten(st, answerIndex).obstacles == st.obstacles
  {
    if st.currentQuestion.Some? && st.currentQuestion.value.question.Some? {
      IdentityFilterKeepsAll(st.obstacles, st.currentQuestion.value);
    }
  }

  /** The answer as written keeps the invariant: the list is untouched and a
      resolved question is forgotten. */
  lemma AnswerAsWrittenKeepsInv(st: State, answerIndex: int)
    requires Inv(st)
    ensures Inv(AnswerAsWritten(st, answerIndex))
  {
    AsWrittenAnswerRemovesNothing(st, answerIndex);
  }

  /** The intended answer keeps the invariant too. */
  lemma AnswerKeepsInv(st: State, answerIndex: int)
    requires Inv(st)
    ensures Inv(Answer(st, answerIndex))
  {
    if st.currentQuestion.Some? && st.currentQuestion.value.question.Some? {
      RemoveSpawnFresh(st.obstacles, st.currentQuestion.value.id, 0, st.nextRef);
    }
  }

  /** A correct answer removes exactly the listed copy of the question obstacle,
      when it is still on screen, and keeps every other obstacle in order; a wrong
      answer keeps the obstacles and loses the game. */
  lemma AnswerOutcome(st: State, answerIndex: int, k: nat)
    requires Inv(st)
    requires st.currentQuestion.Some? && st.currentQuestion.value.question.Some?
    requires k < |st.obstacles| && st.obstacles[k].id == st.currentQuestion.value.id
    ensures var q := st.currentQuestion.value;
      var r := Answer(st, answerIndex);
      && (answerIndex == q.question.value.correct ==>
            r.obstacles == st.obstacles[..k] + st.obstacles[k + 1..] && r.score == st.score + 10 && !r.paused)
      && (answerIndex != q.question.value.correct ==>
            r.obstacles == st.obstacles && r.gameOver && r.paused)
  {
    RemoveSpawnExactlyOne(st.obstacles, k);
  }

  /** The answer keys 1, 2 and 3 stand for answer indices 0, 1 and 2. */
  predicate IsAnswerKey(k: string) {
    k == "1" || k == "2" || k == "3"
  }

  /** The key-down listener: w/a/s/d are held from here on; 1, 2 and 3 answer
      the current question with `parseInt(key) - 1`, through `handleAnswer` as
      written. */
  function PressKey(st: State, key: string): State {
    var k := Text.Lower(key);
    var held := st.(keys := WithKey(st.keys, k, true));
    if IsAnswerKey(k) && st.currentQuestion.Some? && st.currentQuestion.value.question.Some? then
      AnswerAsWritten(held, k[0] as int - '1' as int)
    else held
  }

  /** The key-up listener: w/a/s/d are released. */
  function ReleaseKey(st: State, key: string): State {
    st.(keys := WithKey(st.keys, Text.Lower(key), false))
  }

  /** Pressing a key only records it or answers with the matching index; releasing
      it undoes the record. */
  lemma KeysOutcome(st: State, key: string)
    ensures var k := Text.Lower(key);
      && (!IsAnswerKey(k) ==> PressKey(st, key) == st.(keys := WithKey(st.keys, k, true)))
      && (k == "1" ==> PressKey(st, key) == AnswerAsWritten(st.(keys := WithKey(st.keys, k, true)), 0))
      && (k == "2" ==> PressKey(st, key) == AnswerAsWritten(st.(keys := WithKey(st.keys, k, true)), 1))
      && (k == "3" ==> PressKey(st, key) == AnswerAsWritten(st.(keys := WithKey(st.keys, k, true)), 2))
      && ReleaseKey(PressKey(st, key), key).keys == WithKey(st.keys, k, false)
  {
  }

  lemma KeysKeepInv(st: State, key: string)
    requires Inv(st)
    ensures Inv(PressKey(st, key)) && Inv(ReleaseKey(st, key))
  {
    var k := Text.Lower(key);
    AnswerAsWrittenKeepsInv(st.(keys := WithKey(st.keys, k, true)), if |k| > 0 then k[0] as int - '1' as int else 0);
  }

  /** `startGame`: a new run with the dog in the centre track; the held keys stay. */
  function Start(st: State): State {
    st.(isPlaying := true, gameOver := false, paused := false, currentQuestion := None,
        dog := InitialDog(), obstacles := [], score := 0, speed := 2.0, gameTime := 0)
  }

  /** `stopGame`: the loop stops scheduling frames. */
  function Stop(st: State): State {
    st.(isPlaying := false)
  }

  /** The pause button, `setPaused(!paused)`. */
  function TogglePaused(st: State): State {
    st.(paused := !st.paused)
  }

  /** Starting forgets the old run, so restarting is starting; a stopped game does
      not move; the pause button undoes itself and, since it ignores `gameOver`,
      also lets a lost game run on. */
  lemma ControlsOutcome(st: State, spawn1: Option<Spawn>, spawn2: Option<Spawn>)
    requires spawn1.Some? ==> ValidSpawn(spawn1.value)
    requires spawn2.Some? ==> ValidSpawn(spawn2.value)
    ensures Start(Stop(st)) == Start(st) && Start(Start(st)) == Start(st)
    ensures Frame(Stop(st), spawn1, spawn2) == Stop(st)
    ensures TogglePaused(TogglePaused(st)) == st
    ensures st.isPlaying && st.gameOver && st.paused ==>
      TogglePaused(st).gameOver && Frame(TogglePaused(st), spawn1, spawn2).gameTime == st.gameTime + 1
  {
  }

  lemma ControlsKeepInv(st: State)
    requires Inv(st)
    ensures Inv(Start(st)) && Inv(Stop(st)) && Inv(TogglePaused(st))
  {
  }

  /** The game component. */
  class Game {
    var isPlaying: bool
    var score: int
    var speed: real
    var gameTime: int
    var keys: Keys
    var dog: Dog
    var obstacles: seq<Obstacle>
    var currentQuestion: Option<Obstacle>
    var gameOver: bool
    var paused: bool
    var nextRef: nat

    function Snapshot(): State
      reads this
    {
      State(isPlaying, score, speed, gameTime, keys, dog, obstacles, currentQuestion, gameOver, paused, nextRef)
    }

    predicate Valid()
      reads this
    {
      Inv(Snapshot())
    }

    constructor ()
      ensures Valid() && Snapshot() == Initial()
    {
      isPlaying, score, speed, gameTime, keys := false, 0, 2.0, 0, NoKeys();
      dog, obstacles, currentQuestion := InitialDog(), [], None;
      gameOver, paused := false, false;
      nextRef := 0;
      InitialInv();
    }

    /** One `gameLoop` frame; `spawn1`/`spawn2` are present when the 0.03 and 0.01
        draws succeed. */
    method Tick(spawn1: Option<Spawn>, spawn2: Option<Spawn>)
      requires Valid()
      requires spawn1.Some? ==> ValidSpawn(spawn1.value)
      requires spawn2.Some? ==> ValidSpawn(spawn2.value)
      modifies this
      ensures Valid() && Snapshot() == Frame(old(Snapshot()), spawn1, spawn2)
    {
      FrameKeepsInv(Snapshot(), spawn1, spawn2);
      if !isPlaying || paused {
        return;
      }
      ghost var st := Snapshot();
      Collide();
      AdvanceClock();
      assert Snapshot() == Clocked(Collided(st));
      UpdateDog();
      UpdateObstacles(spawn1, spawn2);
    }

    method Collide()
      modifies this
      ensures Snapshot() == Collided(old(Snapshot()))
    {
      if CheckCollision(dog, obstacles) {
        var found := FindQuestion(dog, obstacles);
        if found.Some? {
          currentQuestion := found;
          paused := true;
        } else {
          gameOver := true;
          paused := true;
        }
      }
    }

    method AdvanceClock()
      modifies this
      ensures Snapshot() == Clocked(old(Snapshot()))
    {
      gameTime := gameTime + 1;
      if gameTime % 300 == 0 {
        speed := speed + 0.2;
      }
    }

    /** The `setDog` updater, building the new dog field by field. */
    method UpdateDog()
      modifies this
      ensures Snapshot() == DogUpdated(old(Snapshot()))
    {
      var newDog := dog;
      newDog := newDog.(velocityY := newDog.velocityY + Gravity);
      newDog := newDog.(y := newDog.y + newDog.velocityY);
      if newDog.y >= GroundY {
        newDog := newDog.(y := GroundY, velocityY := 0.0, isJumping := false);
      }
      if keys.w && !newDog.isJumping {
        newDog := newDog.(velocityY := JumpForce, isJumping := true);
      }
      if keys.a && newDog.track > 0 {
        newDog := newDog.(track := newDog.track - 1);
      }
      if keys.d && newDog.track < 2 {
        newDog := newDog.(track := newDog.track + 1);
      }
      dog := newDog;
    }

    /** The `setObstacles` updater: move and filter, then push the drawn spawns. */
    method UpdateObstacles(spawn1: Option<Spawn>, spawn2: Option<Spawn>)
      requires spawn1.Some? ==> ValidSpawn(spawn1.value)
      requires spawn2.Some? ==> ValidSpawn(spawn2.value)
      modifies this
      ensures Snapshot() == ObstaclesUpdated(old(Snapshot()), spawn1, spawn2)
    {
      var base := nextRef + |obstacles|;
      var kept := KeepOnScreen(MoveLeft(obstacles, speed, nextRef));
      var newObstacles := Push(kept, spawn1, true, base);
      newObstacles := Push(newObstacles, spawn2, |newObstacles| < 3, base + 1);
      assert newObstacles == NextObstacles(obstacles, speed, nextRef, spawn1, spawn2);
      obstacles := newObstacles;
      nextRef := base + 2;
    }

    /** `handleAnswer` as written: the identity filter leaves the list as it is
        (`AsWrittenAnswerRemovesNothing`). */
    method HandleAnswer(answerIndex: int)
      requires Valid()
      modifies this
      ensures Valid() && Snapshot() == AnswerAsWritten(old(Snapshot()), answerIndex)
      ensures obstacles == old(obstacles)
    {
      AnswerAsWrittenKeepsInv(Snapshot(), answerIndex);
      AsWrittenAnswerRemovesNothing(Snapshot(), answerIndex);
      if currentQuestion.Some? && currentQuestion.value.question.Some? {
        var q := currentQuestion.value;
        if answerIndex == q.question.value.correct {
          obstacles := RemoveSameObject(obstacles, q);
          score := score + 10;
          currentQuestion := None;
          paused := false;
        } else {
          gameOver := true;
          paused := true;
        }
      }
    }

    method KeyDown(key: string)
      requires Valid()
      modifies this
      ensures Valid() && Snapshot() == PressKey(old(Snapshot()), key)
    {
      KeysKeepInv(Snapshot(), key);
      var k := Text.Lower(key);
      keys := WithKey(keys, k, true);
      if IsAnswerKey(k) && currentQuestion.Some? && currentQuestion.value.question.Some? {
        HandleAnswer(k[0] as int - '1' as int);
      }
    }

    method KeyUp(key: string)
      requires Valid()
      modifies this
      ensures Valid() && Snapshot() == ReleaseKey(old(Snapshot()), key)
    {
      KeysKeepInv(Snapshot(), key);
      keys := WithKey(keys, Text.Lower(key), false);
    }

    method StartGame()
      requires Valid()
      modifies this
      ensures Valid() && Snapshot() == Start(old(Snapshot()))
    {
      ControlsKeepInv(Snapshot());
      isPlaying := true;
      gameOver := false;
      paused := false;
      currentQuestion := None;
      dog := InitialDog();
      obstacles := [];
      score := 0;
      speed := 2.0;
      gameTime := 0;
    }

    method StopGame()
      requires Valid()
      modifies this
      ensures Valid() && Snapshot() == Stop(old(Snapshot()))
    {
      ControlsKeepInv(Snapshot());
      isPlaying := false;
    }

    /** The restart button: stop, then start. */
    method Restart()
      requires Valid()
      modifies this
      ensures Valid() && Snapshot() == Start(Stop(old(Snapshot())))
    {
      StopGame();
      StartGame();
    }

    method TogglePause()
      requires Valid()
      modifies this
      ensures Valid() && Snapshot() == TogglePaused(old(Snapshot()))
    {
      ControlsKeepInv(Snapshot());
      paused := !paused;
    }
  }
}
