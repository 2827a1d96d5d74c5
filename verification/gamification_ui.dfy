/** The arithmetic behind the gamification widgets: the level card's XP
    figures (the widget file keeps its own copy of the level curve), the
    count-up animations of the streak and points counters, the badge grid's
    overflow tile, the streak record labels and the level glow. One
    animation tick is one loop iteration; the interval timer is outside the
    model. */
module GamificationUi {
  import opened Util
  import opened Types
  import LevelCurve
  import ProfileStore

  /** The widget file's `getXPRequiredForLevel`. */
  function UiXpRequired(level: int): int {
    100 + (level - 1) * 50 + FloorDiv(level - 1, 5) * 100
  }

  /** The widget's copy of the curve agrees with the store's at every level. */
  lemma UiCurveAgreesWithStore(level: int)
    ensures UiXpRequired(level) == LevelCurve.XpRequired(level)
  {
    var q := FloorDiv(level - 1, 5);
    assert q == (level - 1) / 5;
  }

  /** The level card's "XP to the next level": the next level's cost less
      the XP shown. */
  function XpToNextLevel(level: int, xp: int): (remaining: int)
    ensures remaining == LevelCurve.XpRequired(level + 1) - xp
  {
    UiCurveAgreesWithStore(level + 1);
    UiXpRequired(level + 1) - xp
  }

  /** With the carried XP of the level reached, something is always left to
      earn, and never more than the next level costs. */
  lemma CarriedXpLeavesPositiveRemainder(totalXp: int, level: nat)
    requires level >= 1 && LevelCurve.IsLevelOf(totalXp, level)
    ensures 0 < XpToNextLevel(level, ProfileStore.CarriedXp(totalXp, level)) <= LevelCurve.XpRequired(level + 1)
  {
  }

  /** The store's award rule, after a jump from level 1 to 3 with 500 XP,
      leaves the card showing a negative amount still to earn. */
  lemma MultiLevelJumpShowsNegativeRemainder()
    ensures XpToNextLevel(3, ProfileStore.XpAfterAward(0, 500, 1, 3)) == -50
  {
  }

  lemma {:induction false} NonPositiveTimes(q: int, s: nat)
    requires q <= 0 && s >= 1
    ensures q * s <= q
    decreases s
  {
    if s > 1 {
      NonPositiveTimes(q, s - 1);
      assert q * s == q * (s - 1) + q;
    }
  }

  /** The step of a count-up: at least one and enough to reach a positive
      target in `steps` ticks; for a target of zero or less, between the
      target and zero. */
  lemma IncrementBounds(target: int, steps: int)
    requires steps > 0
    ensures target > 0 ==> 1 <= CeilDiv(target, steps) && target <= CeilDiv(target, steps) * steps
    ensures target <= 0 ==> target <= CeilDiv(target, steps) <= 0
  {
    var q := CeilDiv(target, steps);
    if target <= 0 {
      if q < target {
        NonPositiveTimes(q, steps);
      }
    }
  }

  predicate StrictlyIncreasing(s: seq<int>) {
    forall i, j :: 0 <= i < j < |s| ==> s[i] < s[j]
  }

  lemma AppendAboveAll(s: seq<int>, x: int)
    requires StrictlyIncreasing(s) && (s == [] || s[|s| - 1] < x)
    ensures StrictlyIncreasing(s + [x])
  {
  }

  /** The count-up animation towards `target` (`streakDays` with 20 steps,
      `points` with 30): every tick adds ceil(target / steps) and the tick
      that reaches the target shows the target and stops the animation.
      Returns the value shown after each tick. */
  method CountUp(target: int, steps: int) returns (shown: seq<int>)
    requires steps > 0
    ensures |shown| >= 1 && shown[|shown| - 1] == target
    ensures target > 0 ==> |shown| <= steps
    ensures target <= 0 ==> |shown| == 1
    ensures forall i :: 0 <= i < |shown| - 1 ==> shown[i] == (i + 1) * CeilDiv(target, steps) && shown[i] < target
    ensures StrictlyIncreasing(shown)
  {
    var increment := CeilDiv(target, steps);
    IncrementBounds(target, steps);
    var current := 0;
    shown := [];
    var running := true;
    while running
      invariant |shown| <= steps
      invariant target <= 0 ==> (running <==> shown == []) && |shown| <= 1
      invariant running ==> current == |shown| * increment && (shown == [] || (current < target && shown[|shown| - 1] == current))
      invariant running && target > 0 ==> |shown| < steps
      invariant !running ==> |shown| >= 1 && shown[|shown| - 1] == target
      invariant forall i :: 0 <= i < |shown| - (if running then 0 else 1) ==> shown[i] == (i + 1) * increment && shown[i] < target
      invariant StrictlyIncreasing(shown)
      decreases steps - |shown| + (if running then 1 else 0)
    {
      current := current + increment;
      if current >= target {
        current := target;
        running := false;
      } else if target > 0 {
        assert current == (|shown| + 1) * increment;
        if |shown| + 1 >= steps {
          assert (|shown| + 1) * increment >= steps * increment;
        }
      }
      AppendAboveAll(shown, current);
      shown := shown + [current];
    }
  }

  /** The streak counter counts up in at most 20 ticks, the points display
      in at most 30. */
  const StreakSteps: int := 20
  const PointsSteps: int := 30

  /** The badge grid shows the first `maxDisplay` badges (`slice(0, maxDisplay)`). */
  function DisplayBadges(badges: seq<Badge>, maxDisplay: int): (shown: seq<Badge>)
    ensures maxDisplay >= 0 ==> |shown| == if maxDisplay < |badges| then maxDisplay else |badges|
    ensures |shown| <= |badges| && shown == badges[..|shown|]
  {
    var end := if maxDisplay < 0 then (if |badges| + maxDisplay > 0 then |badges| + maxDisplay else 0)
               else if maxDisplay < |badges| then maxDisplay else |badges|;
    badges[..end]
  }

  /** The number on the "+k" tile; the tile shows when it is positive. */
  function RemainingCount(badges: seq<Badge>, maxDisplay: int): (k: int)
    ensures k >= 0
    ensures k > 0 <==> |badges| > maxDisplay
  {
    if |badges| - maxDisplay > 0 then |badges| - maxDisplay else 0
  }

  /** With a non-negative limit, every badge is either shown or counted on
      the tile. */
  lemma BadgesShownOrCounted(badges: seq<Badge>, maxDisplay: int)
    requires maxDisplay >= 0
    ensures |DisplayBadges(badges, maxDisplay)| + RemainingCount(badges, maxDisplay) == |badges|
  {
  }

  /** "Best: n days" shows while the record is above the current streak. */
  predicate ShowsBestRecord(streakDays: int, maxStreak: int) {
    maxStreak > streakDays
  }

  /** "New record!" shows for a positive streak that equals the record. */
  predicate ShowsNewRecord(streakDays: int, maxStreak: int) {
    streakDays > 0 && streakDays == maxStreak
  }

  /** For a profile that keeps its record at least its streak, a running
      streak shows exactly one of the two labels, and no streak shows the
      best label exactly when a record exists. */
  lemma StreakLabelsExclusive(streakDays: int, maxStreak: int)
    requires maxStreak >= streakDays
    ensures streakDays > 0 ==> (ShowsBestRecord(streakDays, maxStreak) != ShowsNewRecord(streakDays, maxStreak))
    ensures streakDays == 0 ==> !ShowsNewRecord(streakDays, maxStreak) && (ShowsBestRecord(streakDays, maxStreak) <==> maxStreak > 0)
  {
  }

  datatype Glow = GlowMd | GlowLg | GlowXl | Glow2xl

  /** `getLevelGlow`: the shadow grows at levels 10, 25 and 50. */
  function LevelGlow(level: int): (g: Glow)
    ensures g == Glow2xl <==> level >= 50
    ensures g == GlowXl <==> 25 <= level < 50
    ensures g == GlowLg <==> 10 <= level < 25
    ensures g == GlowMd <==> level < 10
  {
    if level >= 50 then Glow2xl
    else if level >= 25 then GlowXl
    else if level >= 10 then GlowLg
    else GlowMd
  }

  /** The crown icon appears from level 10, the level of the first glow step. */
  predicate ShowsCrown(level: int) {
    level >= 10
  }

  lemma CrownWithGlow(level: int)
    ensures ShowsCrown(level) <==> LevelGlow(level) != GlowMd
  {
  }
}
