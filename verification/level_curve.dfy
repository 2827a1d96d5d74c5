/** The XP curve: how much XP each level costs and which level a lifetime XP
    total reaches. Reaching level L from level L - 1 costs XpRequired(L), and
    the accumulation starts at level 2, so level 2 is reached at 150 XP,
    level 3 at 350 and level 4 at 600. */
module LevelCurve {

  /** `getXPRequiredForLevel`: 100 + 50 (level - 1) + 100 floor((level - 1) / 5).
      Dafny's `/` by a positive constant rounds down like `Math.floor`. */
  function XpRequired(level: int): (r: int)
    ensures level >= 1 ==> r >= 100
    ensures level >= 2 ==> r >= 150
  {
    100 + (level - 1) * 50 + ((level - 1) / 5) * 100
  }

  /** Each level costs strictly more than the one before. */
  lemma XpRequiredIncreasing(a: int, b: int)
    requires a < b
    ensures XpRequired(a) < XpRequired(b)
  {
    assert (a - 1) / 5 <= (b - 1) / 5;
  }

  /** The lifetime XP at which `level` is reached: XpRequired(2) + ... +
      XpRequired(level); zero for levels 0 and 1. */
  function Cumulative(level: nat): (r: int)
    ensures r >= 150 * (level - 1)
    ensures r >= 0
  {
    if level <= 1 then 0 else Cumulative(level - 1) + XpRequired(level)
  }

  /** `level` is the level of lifetime total `totalXp`: its threshold has been
      reached and the next one has not. A negative total has level 0. */
  predicate IsLevelOf(totalXp: int, level: nat) {
    (level == 0 || Cumulative(level) <= totalXp) && totalXp < Cumulative(level + 1)
  }

  /** `calculateLevel`: climbs while the running threshold is reached. The
      loop ends because every step raises the threshold by at least 150. */
  method CalculateLevel(totalXp: int) returns (level: nat)
    ensures IsLevelOf(totalXp, level)
    ensures level == 0 <==> totalXp < 0
  {
    var l: nat := 1;
    var requiredXp := 0;
    while totalXp >= requiredXp
      invariant l >= 1 && requiredXp == Cumulative(l)
      invariant l == 1 || Cumulative(l - 1) <= totalXp
      decreases totalXp - requiredXp
    {
      l := l + 1;
      requiredXp := requiredXp + XpRequired(l);
    }
    level := l - 1;
  }

  /** The level reached from level `l` on, climbing while the next threshold
      is reached. */
  function LevelFrom(totalXp: int, l: nat): (r: nat)
    requires l >= 1 && Cumulative(l) <= totalXp
    ensures r >= l && IsLevelOf(totalXp, r)
    decreases totalXp - Cumulative(l)
  {
    if totalXp < Cumulative(l + 1) then l else LevelFrom(totalXp, l + 1)
  }

  /** The level of a lifetime total, as a function (the loop above computes
      the same value, by `LevelOfUnique`). */
  function LevelOf(totalXp: int): (l: nat)
    ensures IsLevelOf(totalXp, l)
  {
    if totalXp < 0 then 0 else LevelFrom(totalXp, 1)
  }

  /** Thresholds grow strictly from level 1 on. */
  lemma {:induction false} CumulativeIncreasing(a: nat, b: nat)
    requires 1 <= a < b
    ensures Cumulative(a) < Cumulative(b)
    decreases b
  {
    if a < b - 1 {
      CumulativeIncreasing(a, b - 1);
    }
  }

  lemma CumulativeMonotone(a: nat, b: nat)
    requires a <= b
    ensures Cumulative(a) <= Cumulative(b)
  {
    if 1 <= a < b {
      CumulativeIncreasing(a, b);
    }
  }

  /** The level of a total is unique. */
  lemma LevelOfUnique(totalXp: int, a: nat, b: nat)
    requires IsLevelOf(totalXp, a) && IsLevelOf(totalXp, b)
    ensures a == b
  {
    if a < b {
      CumulativeMonotone(a + 1, b);
    } else if b < a {
      CumulativeMonotone(b + 1, a);
    }
  }

  /** More lifetime XP never means a lower level. */
  lemma LevelMonotone(x: int, y: int, a: nat, b: nat)
    requires x <= y && IsLevelOf(x, a) && IsLevelOf(y, b)
    ensures a <= b
  {
    if b < a {
      CumulativeMonotone(b + 1, a);
    }
  }

  /** The first thresholds of the curve: 0 XP is level 1, 150 XP level 2,
      350 XP level 3 and 600 XP level 4. */
  lemma FirstThresholds()
    ensures IsLevelOf(0, 1) && IsLevelOf(149, 1)
    ensures IsLevelOf(150, 2) && IsLevelOf(349, 2)
    ensures IsLevelOf(350, 3) && IsLevelOf(599, 3)
    ensures IsLevelOf(600, 4)
  {
    assert Cumulative(2) == 150;
    assert Cumulative(3) == 350;
    assert Cumulative(4) == 600;
    assert Cumulative(5) == 900;
  }
}
