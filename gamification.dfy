/** The gamification panel (src/components/GamificationSystem.tsx): experience
    points and levels, the badge rules, completion of chapters, quizzes and games,
    and the daily streak. Dates are day numbers and ISO time stamps are strings
    handed in by the caller; console messages are not modelled. */
module GamificationSystem {
  import opened Common
  import opened AppTypes

  // ---------------------------------------------------------------------------
  // Levels.

  /** `Math.floor(xp / 1000) + 1`: the level whose 1000-point band holds `xp`. */
  function CalculateLevel(xp: int): (r: int)
    ensures (r - 1) * 1000 <= xp < r * 1000
    ensures xp >= 0 ==> r >= 1
  {
    xp / 1000 + 1
  }

  /** A higher score never lowers the level. */
  lemma LevelMonotone(xp1: int, xp2: int)
    requires xp1 <= xp2
    ensures CalculateLevel(xp1) <= CalculateLevel(xp2)
  {
  }

  function XPForNextLevel(level: int): int {
    level * 1000
  }

  /** The filled fraction of the progress bar, in percent. */
  function ProgressToNextLevel(xp: int, level: int): real {
    var currentLevelXP := (level - 1) * 1000;
    var nextLevelXP := level * 1000;
    (xp - currentLevelXP) as real / (nextLevelXP - currentLevelXP) as real * 100.0
  }

  /** With the level the score determines, the "XP needed" read-out is between
      1 and 1000 and the progress bar is at least empty and never full. */
  lemma LevelReadouts(xp: int)
    ensures var level := CalculateLevel(xp);
            1 <= XPForNextLevel(level) - xp <= 1000
            && 0.0 <= ProgressToNextLevel(xp, level) < 100.0
  {
  }

  function LevelTitle(level: int): (r: string)
    ensures level >= 20 <==> r == "Legendary Scholar"
    ensures 15 <= level < 20 <==> r == "Master Learner"
    ensures 10 <= level < 15 <==> r == "Expert Student"
    ensures 5 <= level < 10 <==> r == "Advanced Learner"
    ensures level < 5 <==> r == "Rising Star"
  {
    if level >= 20 then "Legendary Scholar"
    else if level >= 15 then "Master Learner"
    else if level >= 10 then "Expert Student"
    else if level >= 5 then "Advanced Learner"
    else "Rising Star"
  }

  // ---------------------------------------------------------------------------
  // Badges.

  /** Badge number `i` of the panel's table of eight badges, awarded at `now`. */
  function Award(i: nat, now: string): (b: Badge)
    requires i < 8
    ensures b.id == i + 1 && b.earnedAt == now
  {
    match i
    case 0 => Badge(1, "First Steps", "Complete your first chapter", "👶", now, ChapterCategory)
    case 1 => Badge(2, "Quiz Master", "Complete 5 quizzes", "🧠", now, QuizCategory)
    case 2 => Badge(3, "Game Champion", "Complete 10 games", "🎮", now, GameCategory)
    case 3 => Badge(4, "Streak Master", "Maintain a 7-day streak", "🔥", now, StreakCategory)
    case 4 => Badge(5, "Math Genius", "Complete all math chapters", "➗", now, SpecialCategory)
    case 5 => Badge(6, "Science Explorer", "Complete all science chapters", "🔬", now, SpecialCategory)
    case 6 => Badge(7, "Level 10 Hero", "Reach level 10", "🏆", now, SpecialCategory)
    case 7 => Badge(8, "Perfect Score", "Get 100% on a quiz", "💯", now, QuizCategory)
  }

  /** `badges.find(b => b.id === id)` finds something. */
  predicate HasBadge(badges: seq<Badge>, id: int) {
    exists i :: 0 <= i < |badges| && badges[i].id == id
  }

  lemma HasBadgeAppend(a: seq<Badge>, b: seq<Badge>, id: int)
    ensures HasBadge(a + b, id) <==> HasBadge(a, id) || HasBadge(b, id)
  {
    if HasBadge(a + b, id) {
      var i :| 0 <= i < |a + b| && (a + b)[i].id == id;
      if i >= |a| { assert b[i - |a|].id == id; }
    }
    if HasBadge(b, id) {
      var i :| 0 <= i < |b| && b[i].id == id;
      assert (a + b)[|a| + i].id == id;
    }
    if HasBadge(a, id) {
      var i :| 0 <= i < |a| && a[i].id == id;
      assert (a + b)[i].id == id;
    }
  }

  lemma HasBadgeSingle(b: Badge, id: int)
    ensures HasBadge([b], id) <==> b.id == id
  {
    if b.id == id { assert [b][0].id == id; }
  }

  /** The five rules of `checkForNewBadges`, in order: rule `k` awards badge
      number `RuleBadge(k)` of the table (ids 1, 2, 3, 4 and 7). */
  function RuleBadge(k: nat): (i: nat)
    requires k < 5
    ensures i < 8 && i + 1 in {1, 2, 3, 4, 7}
  {
    if k < 4 then k else 6
  }

  /** The threshold of rule `k`: one chapter, five quizzes, ten games, a
      seven-day streak, level ten. */
  predicate Reached(p: UserProgress, k: nat)
    requires k < 5
  {
    if k == 0 then |p.completedChapters| >= 1
    else if k == 1 then |p.completedQuizzes| >= 5
    else if k == 2 then |p.completedGames| >= 10
    else if k == 3 then p.streak >= 7
    else p.level >= 10
  }

  /** Rule `k` awards its badge: the threshold is reached and the badge is not held. */
  predicate Fires(p: UserProgress, held: seq<Badge>, k: nat)
    requires k < 5
  {
    Reached(p, k) && !HasBadge(held, RuleBadge(k) + 1)
  }

  /** What rule `k` awards: its badge, or nothing. */
  function RuleAward(p: UserProgress, held: seq<Badge>, now: string, k: nat): seq<Badge>
    requires k < 5
  {
    if Fires(p, held, k) then [Award(RuleBadge(k), now)] else []
  }

  /** The awards of the first `k` rules, in rule order. */
  function AwardsUpTo(p: UserProgress, held: seq<Badge>, now: string, k: nat): seq<Badge>
    requires k <= 5
  {
    if k == 0 then [] else AwardsUpTo(p, held, now, k - 1) + RuleAward(p, held, now, k - 1)
  }

  /** The badges `checkForNewBadges` awards for the progress `p` when `held` are
      the badges already earned. */
  function NewBadges(p: UserProgress, held: seq<Badge>, now: string): seq<Badge> {
    AwardsUpTo(p, held, now, 5)
  }

  predicate Ascending(bs: seq<Badge>) {
    forall i, j :: 0 <= i < j < |bs| ==> bs[i].id < bs[j].id
  }

  /** Every badge of `bs` is one of those a rule can award, is not yet held and
      is stamped `now`. */
  predicate Granted(bs: seq<Badge>, held: seq<Badge>, now: string) {
    forall i :: 0 <= i < |bs| ==> bs[i].id in {1, 2, 3, 4, 7} && !HasBadge(held, bs[i].id) && bs[i].earnedAt == now
  }

  predicate IdsAtMost(bs: seq<Badge>, m: int) {
    forall i :: 0 <= i < |bs| ==> bs[i].id <= m
  }

  /** The awards of the first `k` rules are numbered at most as the badge of rule `k - 1`. */
  lemma {:induction false} AwardsUpToBelow(p: UserProgress, held: seq<Badge>, now: string, k: nat)
    requires k <= 5
    ensures IdsAtMost(AwardsUpTo(p, held, now, k), if k == 0 then 0 else RuleBadge(k - 1) + 1)
  {
    if k > 0 {
      AwardsUpToBelow(p, held, now, k - 1);
    }
  }

  /** The awards of the first `k` rules ascend. */
  lemma {:induction false} AwardsUpToAscending(p: UserProgress, held: seq<Badge>, now: string, k: nat)
    requires k <= 5
    ensures Ascending(AwardsUpTo(p, held, now, k))
  {
    if k > 0 {
      AwardsUpToAscending(p, held, now, k - 1);
      AwardsUpToBelow(p, held, now, k - 1);
      var init := AwardsUpTo(p, held, now, k - 1);
      var last := RuleAward(p, held, now, k - 1);
      assert AwardsUpTo(p, held, now, k) == init + last;
      assert forall b :: b in last ==> b.id == RuleBadge(k - 1) + 1;
    }
  }

  /** The awards of the first `k` rules are grantable, not held and stamped `now`. */
  lemma {:induction false} AwardsUpToGranted(p: UserProgress, held: seq<Badge>, now: string, k: nat)
    requires k <= 5
    ensures Granted(AwardsUpTo(p, held, now, k), held, now)
  {
    if k > 0 {
      AwardsUpToGranted(p, held, now, k - 1);
    }
  }

  /** Badge `id` is among the awards of the first `k` rules exactly when one of
      those rules fires for it. */
  lemma {:induction false} AwardsUpToHas(p: UserProgress, held: seq<Badge>, now: string, k: nat, id: int)
    requires k <= 5
    ensures HasBadge(AwardsUpTo(p, held, now, k), id) <==>
              exists j :: 0 <= j < k && Fires(p, held, j) && RuleBadge(j) + 1 == id
  {
    if k > 0 {
      var last := RuleAward(p, held, now, k - 1);
      AwardsUpToHas(p, held, now, k - 1, id);
      HasBadgeAppend(AwardsUpTo(p, held, now, k - 1), last, id);
      if Fires(p, held, k - 1) { HasBadgeSingle(Award(RuleBadge(k - 1), now), id); }
    }
  }

  /** An award is never one already held, no badge is awarded twice (the ids
      ascend), only the badges 1, 2, 3, 4 and 7 can be awarded, and each rule
      awards its badge exactly at its threshold when it is not held yet. */
  lemma NewBadgesSpec(p: UserProgress, held: seq<Badge>, now: string)
    ensures var r := NewBadges(p, held, now);
            && Granted(r, held, now)
            && Ascending(r)
            && (HasBadge(r, 1) <==> |p.completedChapters| >= 1 && !HasBadge(held, 1))
            && (HasBadge(r, 2) <==> |p.completedQuizzes| >= 5 && !HasBadge(held, 2))
            && (HasBadge(r, 3) <==> |p.completedGames| >= 10 && !HasBadge(held, 3))
            && (HasBadge(r, 4) <==> p.streak >= 7 && !HasBadge(held, 4))
            && (HasBadge(r, 7) <==> p.level >= 10 && !HasBadge(held, 7))
  {
    AwardsUpToAscending(p, held, now, 5);
    AwardsUpToGranted(p, held, now, 5);
    AwardsUpToHas(p, held, now, 5, 1);
    AwardsUpToHas(p, held, now, 5, 2);
    AwardsUpToHas(p, held, now, 5, 3);
    AwardsUpToHas(p, held, now, 5, 4);
    AwardsUpToHas(p, held, now, 5, 7);
    assert Fires(p, held, 0) ==> RuleBadge(0) + 1 == 1;
    assert Fires(p, held, 1) ==> RuleBadge(1) + 1 == 2;
    assert Fires(p, held, 2) ==> RuleBadge(2) + 1 == 3;
    assert Fires(p, held, 3) ==> RuleBadge(3) + 1 == 4;
    assert Fires(p, held, 4) ==> RuleBadge(4) + 1 == 7;
  }

  /** `checkForNewBadges`: the rules are tried in order and each award is pushed
      onto a local list. */
  method CheckForNewBadges(p: UserProgress, held: seq<Badge>, now: string) returns (newBadges: seq<Badge>)
    ensures newBadges == NewBadges(p, held, now)
  {
    newBadges := [];
    if |p.completedChapters| >= 1 && !HasBadge(held, 1) {
      newBadges := newBadges + [Award(0, now)];
    }
    assert newBadges == AwardsUpTo(p, held, now, 1);
    if |p.completedQuizzes| >= 5 && !HasBadge(held, 2) {
      newBadges := newBadges + [Award(1, now)];
    }
    assert newBadges == AwardsUpTo(p, held, now, 2);
    if |p.completedGames| >= 10 && !HasBadge(held, 3) {
      newBadges := newBadges + [Award(2, now)];
    }
    assert newBadges == AwardsUpTo(p, held, now, 3);
    if p.streak >= 7 && !HasBadge(held, 4) {
      newBadges := newBadges + [Award(3, now)];
    }
    assert newBadges == AwardsUpTo(p, held, now, 4);
    if p.level >= 10 && !HasBadge(held, 7) {
      newBadges := newBadges + [Award(6, now)];
    }
  }

  // ---------------------------------------------------------------------------
  // Progress updates.

  /** The panel's starting progress, read from the user with `|| default`
      fallbacks (level 1, the activity date `now`). */
  function InitialProgress(p: Option<Progress>, now: string): UserProgress {
    var q := FilledProgress(p, now);
    UserProgress(OrNum(q.xp, 0), q.level, q.badges, q.completedChapters, q.completedQuizzes,
                 q.completedGames, OrNum(q.streak, 0), q.lastActiveDate)
  }

  /** `addXP`: the new progress record. */
  function AddedXP(p: UserProgress, amount: int, now: string): (r: UserProgress)
    ensures r.xp == p.xp + amount && r.level == CalculateLevel(p.xp + amount)
    ensures r.badges == p.badges + NewBadges(p.(xp := r.xp, level := r.level, lastActiveDate := now), p.badges, now)
    ensures r == p.(xp := r.xp, level := r.level, badges := r.badges, lastActiveDate := now)
  {
    var newXP := p.xp + amount;
    var np := p.(xp := newXP, level := CalculateLevel(newXP), lastActiveDate := now);
    var nb := NewBadges(np, p.badges, now);
    if |nb| > 0 then np.(badges := p.badges + nb) else np
  }

  /** The badges already held survive an award, in front of the new ones, and no
      badge id becomes held twice when none was. */
  lemma AddedXPKeepsBadges(p: UserProgress, amount: int, now: string)
    requires forall i, j :: 0 <= i < j < |p.badges| ==> p.badges[i].id != p.badges[j].id
    ensures var r := AddedXP(p, amount, now);
            && r.badges[..|p.badges|] == p.badges
            && (forall i, j :: 0 <= i < j < |r.badges| ==> r.badges[i].id != r.badges[j].id)
  {
    var np := p.(xp := p.xp + amount, level := CalculateLevel(p.xp + amount), lastActiveDate := now);
    var nb := NewBadges(np, p.badges, now);
    NewBadgesSpec(np, p.badges, now);
    var r := AddedXP(p, amount, now);
    assert r.badges == p.badges + nb;
    forall i, j | 0 <= i < j < |r.badges| ensures r.badges[i].id != r.badges[j].id {
      if j >= |p.badges| {
        assert r.badges[j] == nb[j - |p.badges|];
        if i < |p.badges| {
          assert !HasBadge(p.badges, nb[j - |p.badges|].id);
          assert r.badges[i] == p.badges[i];
        } else {
          assert r.badges[i] == nb[i - |p.badges|];
        }
      }
    }
  }

  /** The level-up report of `addXP`. */
  function LevelsUp(p: UserProgress, amount: int): bool {
    CalculateLevel(p.xp + amount) > p.level
  }

  /** A gain reports a level-up exactly when it crosses into a higher 1000-point
      band than the recorded level; a loss never does when the level is current. */
  lemma LevelUpIff(p: UserProgress, amount: int)
    requires p.level == CalculateLevel(p.xp)
    ensures LevelsUp(p, amount) <==> (p.xp + amount) / 1000 > p.xp / 1000
    ensures amount <= 0 ==> !LevelsUp(p, amount)
  {
    if amount <= 0 { LevelMonotone(p.xp + amount, p.xp); }
  }

  /** The three kinds of activity and the points their completion earns. */
  datatype Activity = ChapterActivity | QuizActivity | GameActivity {
    function Reward(): int {
      match this
      case ChapterActivity => 50
      case QuizActivity => 100
      case GameActivity => 150
    }
  }

  /** The list of completed ids of one kind. */
  function Done(p: UserProgress, a: Activity): seq<int> {
    match a
    case ChapterActivity => p.completedChapters
    case QuizActivity => p.completedQuizzes
    case GameActivity => p.completedGames
  }

  function WithDone(p: UserProgress, a: Activity, ids: seq<int>): (r: UserProgress)
    ensures Done(r, a) == ids
    ensures forall b :: b != a ==> Done(r, b) == Done(p, b)
  {
    match a
    case ChapterActivity => p.(completedChapters := ids)
    case QuizActivity => p.(completedQuizzes := ids)
    case GameActivity => p.(completedGames := ids)
  }

  /** `completeChapter`/`completeQuiz`/`completeGame` as they run: `addXP` is the
      closure of the same render, so it spreads the progress from before the id
      was appended, and its `setProgress` wins over the first one. */
  function CompletedAsWritten(p: UserProgress, a: Activity, id: int, now: string): UserProgress {
    if id in Done(p, a) then p else AddedXP(p, a.Reward(), now)
  }

  /** As written, a completion earns its points but the id is never recorded, so
      completing the same chapter again earns them again. */
  lemma AsWrittenNeverRecords(p: UserProgress, a: Activity, id: int, now: string)
    requires id !in Done(p, a)
    ensures id !in Done(CompletedAsWritten(p, a, id, now), a)
    ensures CompletedAsWritten(CompletedAsWritten(p, a, id, now), a, id, now).xp == p.xp + 2 * a.Reward()
  {
    var once := CompletedAsWritten(p, a, id, now);
    assert Done(once, a) == Done(p, a) by {
      match a
      case ChapterActivity =>
      case QuizActivity =>
      case GameActivity =>
    }
  }

  /** The completion the handlers are meant to perform, the corrected
      counterpart of `CompletedAsWritten`: append the id, then add the points to
      that progress. */
  function Completed(p: UserProgress, a: Activity, id: int, now: string): UserProgress {
    if id in Done(p, a) then p else AddedXP(WithDone(p, a, Done(p, a) + [id]), a.Reward(), now)
  }

  /** A completion records the id after the earlier ones, earns its reward once,
      leaves the other lists alone, and completing again changes nothing. */
  lemma CompleteSpec(p: UserProgress, a: Activity, id: int, now: string)
    ensures var r := Completed(p, a, id, now);
            && (id in Done(p, a) ==> r == p)
            && (id !in Done(p, a) ==> Done(r, a) == Done(p, a) + [id] && r.xp == p.xp + a.Reward()
                                      && r.level == CalculateLevel(r.xp))
            && (forall b :: b != a ==> Done(r, b) == Done(p, b))
            && Completed(r, a, id, now) == r
  {
    var r := Completed(p, a, id, now);
    if id !in Done(p, a) {
      var q := WithDone(p, a, Done(p, a) + [id]);
      assert forall b :: Done(r, b) == Done(q, b) by {
        forall b ensures Done(r, b) == Done(q, b) {
          match b
          case ChapterActivity =>
          case QuizActivity =>
          case GameActivity =>
        }
      }
      assert id in Done(r, a);
    }
  }

  /** `updateStreak` over day numbers: active yesterday extends the streak, active
      today keeps it, anything else starts again at 1. */
  function StreakUpdated(p: UserProgress, lastActiveDay: int, today: int, now: string): (r: UserProgress)
    ensures lastActiveDay == today - 1 ==> r.streak == p.streak + 1
    ensures lastActiveDay == today ==> r.streak == p.streak
    ensures lastActiveDay != today - 1 && lastActiveDay != today ==> r.streak == 1
    ensures r == p.(streak := r.streak, lastActiveDate := now)
  {
    var newStreak :=
      if lastActiveDay == today - 1 || lastActiveDay == today then
        (if lastActiveDay == today - 1 then p.streak + 1 else p.streak)
      else 1;
    p.(streak := newStreak, lastActiveDate := now)
  }

  /** The panel: its progress state and the records it hands to
      `onProgressUpdate`. */
  class Panel {
    var progress: UserProgress
    var reported: seq<UserProgress>

    constructor (userProgress: Option<Progress>, now: string)
      ensures progress == InitialProgress(userProgress, now) && reported == []
    {
      progress := InitialProgress(userProgress, now);
      reported := [];
    }

    /** `addXP`; the result is the level-up that the component logs. */
    method AddXP(amount: int, now: string) returns (levelUp: bool)
      modifies this
      ensures progress == AddedXP(old(progress), amount, now)
      ensures reported == old(reported) + [progress]
      ensures levelUp == LevelsUp(old(progress), amount)
    {
      var newXP := progress.xp + amount;
      var newLevel := CalculateLevel(newXP);
      levelUp := newLevel > progress.level;
      var newProgress := progress.(xp := newXP, level := newLevel, lastActiveDate := now);
      var newBadges := CheckForNewBadges(newProgress, progress.badges, now);
      if |newBadges| > 0 {
        newProgress := newProgress.(badges := progress.badges + newBadges);
      }
      progress := newProgress;
      reported := reported + [newProgress];
    }

    /** `completeChapter`/`completeQuiz`/`completeGame` as written: the id is
        appended and reported, then `addXP`, the closure of the same render,
        adds the reward to the progress from before the append and reports that,
        so the append is overwritten (`AsWrittenNeverRecords`). */
    method Complete(a: Activity, id: int, now: string)
      modifies this
      ensures progress == CompletedAsWritten(old(progress), a, id, now)
      ensures id in Done(old(progress), a) ==> reported == old(reported)
      ensures id !in Done(old(progress), a) ==>
                reported == old(reported) + [WithDone(old(progress), a, Done(old(progress), a) + [id]), progress]
    {
      if id !in Done(progress, a) {
        var rendered := progress;
        var newProgress := WithDone(rendered, a, Done(rendered, a) + [id]);
        progress := newProgress;
        reported := reported + [newProgress];
        // `addXP` spreads the progress it captured at render time.
        progress := AddedXP(rendered, a.Reward(), now);
        reported := reported + [progress];
      }
    }

    /** `updateStreak`; `lastActiveDay` is the day of the recorded activity date
        and `today` the current day. */
    method UpdateStreak(lastActiveDay: int, today: int, now: string)
      modifies this
      ensures progress == StreakUpdated(old(progress), lastActiveDay, today, now)
      ensures reported == old(reported) + [progress]
    {
      var newStreak := progress.streak;
      if lastActiveDay == today - 1 || lastActiveDay == today {
        if lastActiveDay == today - 1 {
          newStreak := newStreak + 1;
        }
      } else {
        newStreak := 1;
      }
      progress := progress.(streak := newStreak, lastActiveDate := now);
      reported := reported + [progress];
    }
  }
}
