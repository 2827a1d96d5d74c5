/** The profile store of the gamification hook: XP and levels, points,
    badges, achievements and the daily streak. The profile is the state of a
    class whose methods replace it, as the hook's `saveProfile` does; the
    date of the last study day is a second piece of state. Days are UTC day
    numbers and times are milliseconds, both passed in by the caller. */
module ProfileStore {
  import opened Util
  import opened Types
  import opened LevelCurve

  // ----- Static catalogs ---------------------------------------------------

  /** The ids of the achievement catalog and of the badge catalog. */
  const AchievementCatalogIds: set<string> := {"first_study", "streak_7", "quiz_master"}
  const BadgeCatalogIds: set<string> := {"streak_master", "quiz_expert"}

  /** `getInitialAchievements`: the three achievements every profile starts with. */
  function InitialAchievements(): (r: seq<GameAchievement>)
    ensures |r| == 3 && UniqueAchievementIds(r)
    ensures forall a :: a in r ==> a.id in AchievementCatalogIds
    ensures forall a :: a in r ==> a.progress == 0 && a.maxProgress >= 1 && !a.isCompleted && a.completedAt == None
  {
    [ GameAchievement("first_study", "첫 걸음", "첫 AI 정보를 학습하세요", "🎯", 0, 1, false, None, Reward(50, 10, [])),
      GameAchievement("streak_7", "일주일 도전", "7일 연속 학습하세요", "🔥", 0, 1, false, None, Reward(200, 50, ["streak_master"])),
      GameAchievement("quiz_master", "퀴즈 마스터", "퀴즈 100문제를 맞히세요", "🧠", 0, 100, false, None, Reward(500, 100, ["quiz_expert"])) ]
  }

  /** `getAllBadges`: the badge catalog; entries carry no unlock time. */
  function AllBadges(): (r: seq<Badge>)
    ensures UniqueBadgeIds(r)
    ensures forall b :: b in r ==> b.unlockedAt == None
    ensures BadgeIds(r) == BadgeCatalogIds
  {
    [ Badge("streak_master", "연속 학습자", "7일 연속 학습 달성", "🔥", Rare, None, StreakBadge),
      Badge("quiz_expert", "퀴즈 전문가", "퀴즈 100문제 정답", "🧠", Epic, None, QuizBadge) ]
  }

  /** Every badge an achievement can award exists in the catalog. */
  lemma RewardBadgesInCatalog()
    ensures forall a, id :: a in InitialAchievements() && id in a.reward.badges ==> id in BadgeIds(AllBadges())
  {
  }

  function DefaultPreferences(): UserPreferences {
    UserPreferences(Dark, Korean, NotificationSettings(true, true, true, true), [], true, true)
  }

  /** The profile created on first access. */
  function InitialProfile(): (p: UserProfile)
    ensures ProfileInvariant(p)
    ensures p.level == 1 && p.xp == 0 && p.totalXp == 0 && p.points == 0
    ensures p.streakDays == 0 && p.maxStreak == 0 && p.badges == []
  {
    FirstThresholds();
    UserProfile(None, 1, 0, 0, 0, 0, 0, [], InitialAchievements(), DefaultPreferences())
  }

  /** What every profile the store produces satisfies: the level matches the
      lifetime XP, the record streak is at least the current one, badges come
      from the catalog once each, and each catalog achievement is present once
      with its progress clamped and its completion flag derived from it. */
  predicate ProfileInvariant(p: UserProfile) {
    && p.level >= 0 && IsLevelOf(p.totalXp, p.level as nat)
    && p.maxStreak >= p.streakDays
    && UniqueBadgeIds(p.badges)
    && BadgeIds(p.badges) <= BadgeIds(AllBadges())
    && UniqueAchievementIds(p.achievements)
    && (forall a :: a in p.achievements ==> a.id in AchievementCatalogIds)
    && forall a :: a in p.achievements ==> a.progress <= a.maxProgress && (a.isCompleted <==> a.progress >= a.maxProgress)
  }

  // ----- XP ----------------------------------------------------------------

  /** `addXP`'s new `xp`, as written: on a level rise it subtracts the cost of
      the new level only, whatever the number of levels climbed. */
  function XpAfterAward(xp: int, amount: int, oldLevel: int, newLevel: int): int {
    if newLevel > oldLevel then xp + amount - XpRequired(newLevel) else xp + amount
  }

  /** The intended `xp`: what lies past the threshold of the level reached.
      It always fits inside that level's span. */
  function CarriedXp(totalXp: int, level: nat): (xp: int)
    requires level >= 1 && IsLevelOf(totalXp, level)
    ensures 0 <= xp < XpRequired(level + 1)
  {
    totalXp - Cumulative(level)
  }

  /** When an award climbs at most one level, the written rule keeps `xp`
      equal to the intended carry. */
  lemma SingleLevelAwardCarries(totalXp: int, amount: int, xp: int, oldLevel: nat, newLevel: nat)
    requires oldLevel >= 1 && IsLevelOf(totalXp, oldLevel) && xp == CarriedXp(totalXp, oldLevel)
    requires amount >= 0 && IsLevelOf(totalXp + amount, newLevel) && newLevel <= oldLevel + 1
    ensures newLevel >= 1
    ensures XpAfterAward(xp, amount, oldLevel, newLevel) == CarriedXp(totalXp + amount, newLevel)
  {
    LevelMonotone(totalXp, totalXp + amount, oldLevel, newLevel);
  }

  /** A fresh profile awarded 500 XP reaches level 3 with `xp` 300, while
      only 150 XP lie past the level-3 threshold of 350. */
  lemma MultiLevelAwardOvercounts()
    ensures IsLevelOf(500, 3)
    ensures XpAfterAward(0, 500, 1, 3) == 300
    ensures CarriedXp(500, 3) == 150
  {
    FirstThresholds();
  }

  // ----- Badges ------------------------------------------------------------

  /** `getAllBadges().find(b => b.id === id)`. */
  function FindBadge(catalog: seq<Badge>, id: string): (r: Option<Badge>)
    ensures r.Some? ==> r.value in catalog && r.value.id == id
    ensures r.None? ==> id !in BadgeIds(catalog)
  {
    if catalog == [] then None
    else if catalog[0].id == id then Some(catalog[0])
    else FindBadge(catalog[1..], id)
  }

  /** The badge list after `unlockBadge(id)` at time `now`: unchanged when the
      id is unknown or already owned, otherwise one new badge at the end. */
  function BadgesAfterUnlock(owned: seq<Badge>, id: string, now: int): (r: seq<Badge>)
    ensures id !in BadgeIds(AllBadges()) || id in BadgeIds(owned) ==> r == owned
    ensures id in BadgeIds(AllBadges()) && id !in BadgeIds(owned) ==>
      && |r| == |owned| + 1 && r[..|owned|] == owned
      && r[|owned|].id == id && r[|owned|].unlockedAt == Some(now)
      && r[|owned|].(unlockedAt := None) in AllBadges()
  {
    match FindBadge(AllBadges(), id)
    case None => owned
    case Some(b) => if id in BadgeIds(owned) then owned else owned + [b.(unlockedAt := Some(now))]
  }

  /** Unlocking keeps badge ids unique and within the catalog. */
  lemma UnlockKeepsBadgesUnique(owned: seq<Badge>, id: string, now: int)
    requires UniqueBadgeIds(owned) && BadgeIds(owned) <= BadgeIds(AllBadges())
    ensures UniqueBadgeIds(BadgesAfterUnlock(owned, id, now))
    ensures BadgeIds(BadgesAfterUnlock(owned, id, now)) <= BadgeIds(AllBadges())
  {
    var r := BadgesAfterUnlock(owned, id, now);
    if r != owned {
      forall i | 0 <= i < |owned| ensures owned[i].id != id {
        assert owned[i] in owned;
      }
      assert BadgeIds(r) == BadgeIds(owned) + {id};
    }
  }

  /** Unlocking the same badge twice is the same as unlocking it once. */
  lemma UnlockIdempotent(owned: seq<Badge>, id: string, now: int, later: int)
    ensures BadgesAfterUnlock(BadgesAfterUnlock(owned, id, now), id, later) == BadgesAfterUnlock(owned, id, now)
  {
    var r := BadgesAfterUnlock(owned, id, now);
    if r != owned {
      assert r[|owned|] in r;
    }
  }

  /** An unlock adds the id to the owned ids exactly when it is a catalog id. */
  lemma UnlockAddsCatalogId(owned: seq<Badge>, id: string, now: int)
    ensures BadgeIds(BadgesAfterUnlock(owned, id, now)) == BadgeIds(owned) + (if id in BadgeCatalogIds then {id} else {})
  {
    var r := BadgesAfterUnlock(owned, id, now);
    if id in BadgeCatalogIds && id !in BadgeIds(owned) {
      assert r == owned + [r[|owned|]];
      forall x | x in BadgeIds(r) ensures x in BadgeIds(owned) + {id} {
        var b :| b in r && b.id == x;
        if b != r[|owned|] {
          var k :| 0 <= k < |r| && r[k] == b;
          assert owned[k] == b;
        }
      }
    }
  }

  /** The badges after unlocking `ids` one after the other, as a reward's
      `badges.forEach(unlockBadge)` does; the owned badges stay in front. */
  function BadgesAfterUnlockAll(owned: seq<Badge>, ids: seq<string>, now: int): (r: seq<Badge>)
    ensures |owned| <= |r| && r[..|owned|] == owned
    decreases |ids|
  {
    if ids == [] then owned
    else BadgesAfterUnlock(BadgesAfterUnlockAll(owned, ids[..|ids| - 1], now), ids[|ids| - 1], now)
  }

  /** The owned ids grow by exactly the catalog ids among `ids`. */
  lemma {:induction false} UnlockAllAddsCatalogIds(owned: seq<Badge>, ids: seq<string>, now: int)
    ensures forall x :: x in BadgeIds(BadgesAfterUnlockAll(owned, ids, now)) <==>
              x in BadgeIds(owned) || (x in ids && x in BadgeCatalogIds)
    decreases |ids|
  {
    if ids != [] {
      var front := ids[..|ids| - 1];
      var last := ids[|ids| - 1];
      var before := BadgesAfterUnlockAll(owned, front, now);
      UnlockAllAddsCatalogIds(owned, front, now);
      UnlockAddsCatalogId(before, last, now);
      assert BadgesAfterUnlockAll(owned, ids, now) == BadgesAfterUnlock(before, last, now);
      forall x ensures x in ids <==> x in front || x == last {
        assert ids == front + [last];
      }
    }
  }

  // ----- Achievements ------------------------------------------------------

  /** The rising edge: not yet completed, and the new progress reaches the goal. */
  predicate CompletesNow(a: GameAchievement, progress: int) {
    !a.isCompleted && progress >= a.maxProgress
  }

  /** One achievement after `updateAchievement(a.id, progress)`: progress is
      clamped to the goal, completion is recomputed from it (so a lower value
      un-completes), and the completion time is stamped on the rising edge only. */
  function AchievementAfterProgress(a: GameAchievement, progress: int, now: int): (r: GameAchievement)
    ensures r == a.(progress := r.progress, isCompleted := r.isCompleted, completedAt := r.completedAt)
    ensures r.progress <= progress && r.progress <= a.maxProgress
    ensures r.progress == progress || r.progress == a.maxProgress
    ensures r.isCompleted <==> progress >= a.maxProgress
    ensures CompletesNow(a, progress) ==> r.completedAt == Some(now)
    ensures !CompletesNow(a, progress) ==> r.completedAt == a.completedAt
  {
    var newProgress := if progress < a.maxProgress then progress else a.maxProgress;
    var isNowCompleted := newProgress >= a.maxProgress;
    a.(progress := newProgress, isCompleted := isNowCompleted,
       completedAt := if isNowCompleted && !a.isCompleted then Some(now) else a.completedAt)
  }

  /** The achievement list after `updateAchievement(id, progress)`: the
      achievements with that id are updated, all others are untouched. */
  function AchievementsAfterProgress(as_: seq<GameAchievement>, id: string, progress: int, now: int): (r: seq<GameAchievement>)
    ensures |r| == |as_|
    ensures forall i :: 0 <= i < |as_| && as_[i].id != id ==> r[i] == as_[i]
    ensures forall i :: 0 <= i < |as_| && as_[i].id == id ==> r[i] == AchievementAfterProgress(as_[i], progress, now)
  {
    seq(|as_|, i requires 0 <= i < |as_| =>
      if as_[i].id == id then AchievementAfterProgress(as_[i], progress, now) else as_[i])
  }

  /** The rewards `updateAchievement(id, progress)` grants, in list order: one
      per achievement with that id whose rising edge this update is. */
  function RisingRewards(as_: seq<GameAchievement>, id: string, progress: int): (r: seq<Reward>)
    ensures |r| <= |as_|
    ensures id !in AchievementIds(as_) ==> r == []
    ensures forall w :: w in r ==> exists a :: a in as_ && a.id == id && CompletesNow(a, progress) && a.reward == w
    ensures forall i :: 0 <= i < |as_| && as_[i].id == id && CompletesNow(as_[i], progress) ==> as_[i].reward in r
  {
    if as_ == [] then []
    else
      var rest := RisingRewards(as_[..|as_| - 1], id, progress);
      var last := as_[|as_| - 1];
      assert forall a :: a in as_[..|as_| - 1] ==> a in as_;
      assert forall i :: 0 <= i < |as_| - 1 ==> as_[..|as_| - 1][i] == as_[i];
      if last.id == id && CompletesNow(last, progress) then rest + [last.reward] else rest
  }

  /** With unique ids an update grants at most one reward. */
  lemma {:induction false} AtMostOneReward(as_: seq<GameAchievement>, id: string, progress: int)
    requires UniqueAchievementIds(as_)
    ensures |RisingRewards(as_, id, progress)| <= 1
  {
    if as_ != [] {
      var init := as_[..|as_| - 1];
      AtMostOneReward(init, id, progress);
      if as_[|as_| - 1].id == id {
        assert id !in AchievementIds(init) by {
          forall a | a in init ensures a.id != id {
            var k :| 0 <= k < |init| && init[k] == a;
            assert as_[k] == a;
          }
        }
      }
    }
  }

  /** Updating an id that is not in the list changes nothing. */
  lemma AbsentAchievementUnchanged(as_: seq<GameAchievement>, id: string, progress: int, now: int)
    requires forall i :: 0 <= i < |as_| ==> as_[i].id != id
    ensures AchievementsAfterProgress(as_, id, progress, now) == as_
  {
    var r := AchievementsAfterProgress(as_, id, progress, now);
    forall i | 0 <= i < |as_| ensures r[i] == as_[i] {
      assert as_[i] in as_;
    }
  }

  /** No reward when no achievement with that id has its rising edge. */
  lemma {:induction false} NoEdgeNoReward(as_: seq<GameAchievement>, id: string, q: int)
    requires forall i :: 0 <= i < |as_| && as_[i].id == id ==> !CompletesNow(as_[i], q)
    ensures RisingRewards(as_, id, q) == []
  {
    if as_ != [] {
      NoEdgeNoReward(as_[..|as_| - 1], id, q);
    }
  }

  /** Reaching the goal twice in a row grants the reward only the first time. */
  lemma RepeatedCompletionRewardsOnce(as_: seq<GameAchievement>, id: string, p: int, q: int, now: int)
    requires forall i :: 0 <= i < |as_| && as_[i].id == id ==> p >= as_[i].maxProgress
    ensures RisingRewards(AchievementsAfterProgress(as_, id, p, now), id, q) == []
  {
    NoEdgeNoReward(AchievementsAfterProgress(as_, id, p, now), id, q);
  }

  /** Rising edges met along a sequence of progress reports, as written. */
  function EdgesAsWritten(a: GameAchievement, reports: seq<int>, now: int): nat
    decreases |reports|
  {
    if reports == [] then 0
    else (if CompletesNow(a, reports[0]) then 1 else 0)
         + EdgesAsWritten(AchievementAfterProgress(a, reports[0], now), reports[1..], now)
  }

  /** The streak achievement reported as reached, then as lost (a broken
      streak reports 0), then as reached again is rewarded twice. */
  lemma StreakRewardGrantedTwice(now: int)
    ensures EdgesAsWritten(InitialAchievements()[1], [1, 0, 1], now) == 2
  {
    var a0 := InitialAchievements()[1];
    var a1 := AchievementAfterProgress(a0, 1, now);
    var a2 := AchievementAfterProgress(a1, 0, now);
    assert [1, 0, 1][1..] == [0, 1];
    assert [0, 1][1..] == [1];
    assert CompletesNow(a0, 1) && !CompletesNow(a1, 0) && CompletesNow(a2, 1);
  }

  /** Sticky completion, as the achievement design describes it: progress
      never decreases and a completed achievement stays completed. */
  function StickyAfterProgress(a: GameAchievement, progress: int, now: int): (r: GameAchievement)
    ensures r.maxProgress == a.maxProgress
    ensures a.isCompleted ==> r.isCompleted
    ensures r.isCompleted <==> a.isCompleted || progress >= a.maxProgress || a.progress >= a.maxProgress
  {
    var clamped := if progress < a.maxProgress then progress else a.maxProgress;
    var newProgress := if clamped < a.progress then a.progress else clamped;
    var isNowCompleted := a.isCompleted || newProgress >= a.maxProgress;
    a.(progress := newProgress, isCompleted := isNowCompleted,
       completedAt := if isNowCompleted && !a.isCompleted then Some(now) else a.completedAt)
  }

  function EdgesSticky(a: GameAchievement, reports: seq<int>, now: int): nat
    decreases |reports|
  {
    if reports == [] then 0
    else (if CompletesNow(a, reports[0]) then 1 else 0)
         + EdgesSticky(StickyAfterProgress(a, reports[0], now), reports[1..], now)
  }

  /** With sticky completion a reward is granted at most once over any
      sequence of reports, and never for an already completed achievement. */
  lemma {:induction false} StickyRewardsAtMostOnce(a: GameAchievement, reports: seq<int>, now: int)
    ensures EdgesSticky(a, reports, now) <= (if a.isCompleted then 0 else 1)
    decreases |reports|
  {
    if reports != [] {
      var next := StickyAfterProgress(a, reports[0], now);
      StickyRewardsAtMostOnce(next, reports[1..], now);
    }
  }

  /** Sum of the XP and of the points of a list of rewards. */
  function SumXp(rs: seq<Reward>): int {
    if rs == [] then 0 else SumXp(rs[..|rs| - 1]) + rs[|rs| - 1].xp
  }

  function SumPoints(rs: seq<Reward>): int {
    if rs == [] then 0 else SumPoints(rs[..|rs| - 1]) + rs[|rs| - 1].points
  }

  // ----- Whole-profile effects ---------------------------------------------

  /** The profile after `addXP(amount)`: the total grows, the level is the
      level of the new total, `xp` follows the written rule, and nothing
      else changes. */
  function ProfileAfterXp(p: UserProfile, amount: int): (r: UserProfile)
    ensures r.totalXp == p.totalXp + amount && r.level == LevelOf(r.totalXp)
    ensures r.xp == XpAfterAward(p.xp, amount, p.level, r.level)
    ensures r.(xp := p.xp, totalXp := p.totalXp, level := p.level) == p
  {
    var level := LevelOf(p.totalXp + amount);
    p.(xp := XpAfterAward(p.xp, amount, p.level, level), totalXp := p.totalXp + amount, level := level)
  }

  /** The profile after one reward is granted: its XP, its points, then its
      badges. Achievements, streak, avatar and preferences are untouched. */
  function ProfileAfterReward(p: UserProfile, w: Reward, now: int): (r: UserProfile)
    ensures r.totalXp == p.totalXp + w.xp && r.level == LevelOf(r.totalXp)
    ensures r.points == p.points + w.points
    ensures forall x :: x in BadgeIds(r.badges) <==> x in BadgeIds(p.badges) || (x in w.badges && x in BadgeCatalogIds)
    ensures r.(xp := p.xp, totalXp := p.totalXp, level := p.level, points := p.points, badges := p.badges) == p
  {
    UnlockAllAddsCatalogIds(p.badges, w.badges, now);
    ProfileAfterXp(p, w.xp).(points := p.points + w.points, badges := BadgesAfterUnlockAll(p.badges, w.badges, now))
  }

  /** The profile after a list of rewards, granted in order. */
  function ProfileAfterRewards(p: UserProfile, ws: seq<Reward>, now: int): (r: UserProfile)
    ensures r.totalXp == p.totalXp + SumXp(ws) && r.points == p.points + SumPoints(ws)
    ensures ws == [] ==> r == p
    ensures ws != [] ==> r.level == LevelOf(r.totalXp)
    ensures r.(xp := p.xp, totalXp := p.totalXp, level := p.level, points := p.points, badges := p.badges) == p
    decreases |ws|
  {
    if ws == [] then p
    else ProfileAfterReward(ProfileAfterRewards(p, ws[..|ws| - 1], now), ws[|ws| - 1], now)
  }

  /** The profile after `updateAchievement(id, progress)`, with the nested
      reward calls composed in order: the rising-edge rewards are granted and
      the achievement list is replaced by its update. */
  function ProfileAfterReport(p: UserProfile, id: string, progress: int, now: int): (r: UserProfile)
    ensures r.achievements == AchievementsAfterProgress(p.achievements, id, progress, now)
    ensures r.totalXp == p.totalXp + SumXp(RisingRewards(p.achievements, id, progress))
    ensures r.points == p.points + SumPoints(RisingRewards(p.achievements, id, progress))
    ensures RisingRewards(p.achievements, id, progress) == [] ==> r == p.(achievements := r.achievements)
    ensures r.streakDays == p.streakDays && r.maxStreak == p.maxStreak
  {
    ProfileAfterRewards(p, RisingRewards(p.achievements, id, progress), now)
      .(achievements := AchievementsAfterProgress(p.achievements, id, progress, now))
  }

  // ----- Streak ------------------------------------------------------------

  /** The streak part of the profile together with the stored last study day. */
  datatype StreakState = StreakState(streakDays: int, maxStreak: int, lastStudyDate: Option<int>)

  /** `updateStreak` on day `today` (yesterday is `today - 1`): nothing when
      today is already counted; +1 after yesterday; restart at 1 after an
      older day or none; the count is kept for a later (future) day. The
      record is raised to the new count and today is stored. */
  function StreakStep(s: StreakState, today: int): (r: StreakState)
    ensures s.lastStudyDate == Some(today) ==> r == s
    ensures r.lastStudyDate == Some(today)
    ensures s.lastStudyDate == Some(today - 1) ==> r.streakDays == s.streakDays + 1
    ensures s.lastStudyDate == None || s.lastStudyDate.value < today - 1 ==> r.streakDays == 1
    ensures s.lastStudyDate.Some? && s.lastStudyDate.value > today ==> r.streakDays == s.streakDays
    ensures s.lastStudyDate != Some(today) ==> r.maxStreak >= r.streakDays && r.maxStreak >= s.maxStreak
    ensures s.lastStudyDate != Some(today) ==> r.maxStreak == s.maxStreak || r.maxStreak == r.streakDays
  {
    if s.lastStudyDate == Some(today) then s
    else
      var yesterday := today - 1;
      var newStreakDays :=
        if s.lastStudyDate == Some(yesterday) then s.streakDays + 1
        else if s.lastStudyDate.Some? && s.lastStudyDate.value < yesterday then 1
        else if s.lastStudyDate.None? then 1
        else s.streakDays;
      var newMaxStreak := if s.maxStreak < newStreakDays then newStreakDays else s.maxStreak;
      StreakState(newStreakDays, newMaxStreak, Some(today))
  }

  /** A second update on the same day changes nothing. */
  lemma StreakStepIdempotent(s: StreakState, today: int)
    ensures StreakStep(StreakStep(s, today), today) == StreakStep(s, today)
  {
  }

  /** The record streak is never below the current streak. */
  lemma StreakStepKeepsRecord(s: StreakState, today: int)
    requires s.maxStreak >= s.streakDays
    ensures StreakStep(s, today).maxStreak >= StreakStep(s, today).streakDays
    ensures StreakStep(s, today).maxStreak >= s.maxStreak
  {
  }

  // ----- The store ---------------------------------------------------------

  /** What one call of the streak handler leaves behind. */
  datatype StreakOutcome = StreakOutcome(profile: UserProfile, lastStudyDate: Option<int>, milestone: bool)

  /** `updateStreak` as written, with every save made from the profile the
      handler closed over. The streak is saved first, but each of the three
      achievement reports then saves `{...profile, achievements}` built from
      that same stale profile, so the last report (`streak_100`) decides the
      stored profile; the study date is a separate key and is kept. */
  function StreakUpdateAsWritten(p: UserProfile, last: Option<int>, today: int, now: int): (r: StreakOutcome)
    ensures r.lastStudyDate == Some(today)
    ensures ProfileInvariant(p) ==> r.profile == p
    ensures r.milestone <==> last != Some(today) && StreakStep(StreakState(p.streakDays, p.maxStreak, last), today).streakDays > 1
  {
    if last == Some(today) then StreakOutcome(p, last, false)
    else
      var s := StreakStep(StreakState(p.streakDays, p.maxStreak, last), today);
      var final := p.(achievements := AchievementsAfterProgress(p.achievements, "streak_100",
                                                               if s.streakDays >= 100 then 1 else 0, now));
      LongStreakAchievementsAbsent();
      if ProfileInvariant(p) then
        assert forall i :: 0 <= i < |p.achievements| ==> p.achievements[i] in p.achievements;
        AbsentAchievementUnchanged(p.achievements, "streak_100", if s.streakDays >= 100 then 1 else 0, now);
        StreakOutcome(final, Some(today), s.streakDays > 1)
      else StreakOutcome(final, Some(today), s.streakDays > 1)
  }

  /** A second day in a row, as written: the first study day of a new profile
      is followed by the next day; the stored streak stays 0 while the
      intended step gives 1. */
  lemma StreakLostAsWritten(today: int, now: int)
    ensures var r := StreakUpdateAsWritten(InitialProfile(), Some(today - 1), today, now);
            && r.profile.streakDays == 0 && r.profile.maxStreak == 0 && !r.milestone
    ensures StreakStep(StreakState(0, 0, Some(today - 1)), today).streakDays == 1
  {
  }

  class GamificationStore {
    var profile: UserProfile
    var lastStudyDate: Option<int>

    predicate Valid()
      reads this
    {
      ProfileInvariant(profile)
    }

    /** The store of a session seen for the first time. */
    constructor ()
      ensures Valid()
      ensures profile == InitialProfile() && lastStudyDate == None
    {
      profile := InitialProfile();
      lastStudyDate := None;
    }

    /** `addXP(amount)`: no guard on the sign of `amount`. Returns whether the
        level rose and the new level. */
    method AddXP(amount: int) returns (leveledUp: bool, newLevel: nat)
      modifies this
      ensures IsLevelOf(old(profile.totalXp) + amount, newLevel)
      ensures leveledUp <==> newLevel > old(profile.level)
      ensures profile == old(profile).(
                xp := XpAfterAward(old(profile.xp), amount, old(profile.level), newLevel),
                totalXp := old(profile.totalXp) + amount,
                level := newLevel)
      ensures profile == ProfileAfterXp(old(profile), amount)
      ensures lastStudyDate == old(lastStudyDate)
      ensures old(Valid()) ==> Valid()
    {
      var newTotalXp := profile.totalXp + amount;
      newLevel := CalculateLevel(newTotalXp);
      LevelOfUnique(newTotalXp, newLevel, LevelOf(newTotalXp));
      leveledUp := newLevel > profile.level;
      profile := profile.(
        xp := XpAfterAward(profile.xp, amount, profile.level, newLevel),
        totalXp := newTotalXp,
        level := newLevel);
    }

    /** `addPoints(amount)`: no guard on the sign of `amount`. */
    method AddPoints(amount: int)
      modifies this
      ensures profile == old(profile).(points := old(profile.points) + amount)
      ensures lastStudyDate == old(lastStudyDate)
      ensures old(Valid()) ==> Valid()
    {
      profile := profile.(points := profile.points + amount);
    }

    /** `unlockBadge(id)` at time `now`; reports whether a badge was added. */
    method UnlockBadge(id: string, now: int) returns (unlocked: bool)
      modifies this
      ensures profile == old(profile).(badges := BadgesAfterUnlock(old(profile.badges), id, now))
      ensures unlocked <==> id in BadgeIds(AllBadges()) && id !in BadgeIds(old(profile.badges))
      ensures lastStudyDate == old(lastStudyDate)
      ensures old(Valid()) ==> Valid()
    {
      unlocked := id in BadgeIds(AllBadges()) && id !in BadgeIds(profile.badges);
      if old(Valid()) {
        UnlockKeepsBadgesUnique(profile.badges, id, now);
      }
      profile := profile.(badges := BadgesAfterUnlock(profile.badges, id, now));
    }

    /** Grants one reward: its XP, its points, then each of its badges. */
    method GrantReward(w: Reward, now: int)
      modifies this
      ensures profile == ProfileAfterReward(old(profile), w, now)
      ensures lastStudyDate == old(lastStudyDate)
      ensures old(Valid()) ==> Valid()
    {
      var _, _ := AddXP(w.xp);
      AddPoints(w.points);
      var i := 0;
      while i < |w.badges|
        invariant 0 <= i <= |w.badges|
        invariant profile == ProfileAfterXp(old(profile), w.xp).(
                    points := old(profile.points) + w.points,
                    badges := BadgesAfterUnlockAll(old(profile.badges), w.badges[..i], now))
        invariant lastStudyDate == old(lastStudyDate)
        invariant old(Valid()) ==> Valid()
      {
        assert w.badges[..i + 1][..i] == w.badges[..i];
        var _ := UnlockBadge(w.badges[i], now);
        i := i + 1;
      }
      assert w.badges[..i] == w.badges;
    }

    /** Grants the rewards one after the other. */
    method GrantRewards(rewards: seq<Reward>, now: int)
      modifies this
      ensures profile == ProfileAfterRewards(old(profile), rewards, now)
      ensures lastStudyDate == old(lastStudyDate)
      ensures old(Valid()) ==> Valid()
    {
      var i := 0;
      while i < |rewards|
        invariant 0 <= i <= |rewards|
        invariant profile == ProfileAfterRewards(old(profile), rewards[..i], now)
        invariant lastStudyDate == old(lastStudyDate)
        invariant old(Valid()) ==> Valid()
      {
        assert rewards[..i + 1][..i] == rewards[..i];
        GrantReward(rewards[i], now);
        i := i + 1;
      }
      assert rewards[..|rewards|] == rewards;
    }

    /** `updateAchievement(id, progress)` at time `now`. The rewards of a rising
        edge are granted one after the other before the list is stored. */
    method UpdateAchievement(id: string, progress: int, now: int)
      modifies this
      ensures profile == ProfileAfterReport(old(profile), id, progress, now)
      ensures old(Valid()) && id !in AchievementCatalogIds ==> profile == old(profile)
      ensures lastStudyDate == old(lastStudyDate)
      ensures old(Valid()) ==> Valid()
    {
      if Valid() && id !in AchievementCatalogIds {
        assert forall i :: 0 <= i < |profile.achievements| ==> profile.achievements[i] in profile.achievements;
        NoEdgeNoReward(profile.achievements, id, progress);
        AbsentAchievementUnchanged(profile.achievements, id, progress, now);
      }
      var rewards := RisingRewards(profile.achievements, id, progress);
      var updated := AchievementsAfterProgress(profile.achievements, id, progress, now);
      GrantRewards(rewards, now);
      if old(Valid()) {
        UpdateKeepsInvariant(profile, id, progress, now);
      }
      profile := profile.(achievements := updated);
    }

    /** The three achievement reports at the end of `updateStreak`. */
    method ReportStreakAchievements(streakDays: int, now: int)
      modifies this
      ensures old(Valid()) ==>
                profile == ProfileAfterReport(old(profile), "streak_7", if streakDays >= 7 then 1 else 0, now)
      ensures profile.streakDays == old(profile.streakDays) && profile.maxStreak == old(profile.maxStreak)
      ensures lastStudyDate == old(lastStudyDate)
      ensures old(Valid()) ==> Valid()
    {
      UpdateAchievement("streak_7", if streakDays >= 7 then 1 else 0, now);
      LongStreakAchievementsAbsent();
      UpdateAchievement("streak_30", if streakDays >= 30 then 1 else 0, now);
      UpdateAchievement("streak_100", if streakDays >= 100 then 1 else 0, now);
    }

    /** `updateStreak()` on day `today` at time `now`. Reports whether the
        streak notification (more than one day) is raised. After the streak
        the three streak achievements are reported; only `streak_7` exists in
        the catalog, so the other two reports change nothing. */
    method UpdateStreak(today: int, now: int) returns (milestone: bool)
      modifies this
      ensures old(lastStudyDate) == Some(today) ==> profile == old(profile) && lastStudyDate == old(lastStudyDate) && !milestone
      ensures lastStudyDate == Some(today)
      ensures var s := StreakStep(StreakState(old(profile.streakDays), old(profile.maxStreak), old(lastStudyDate)), today);
                profile.streakDays == s.streakDays && profile.maxStreak == s.maxStreak
      ensures milestone <==> old(lastStudyDate) != Some(today) && profile.streakDays > 1
      ensures old(Valid()) && old(lastStudyDate) != Some(today) ==>
                profile == ProfileAfterReport(old(profile).(streakDays := profile.streakDays, maxStreak := profile.maxStreak),
                                              "streak_7", if profile.streakDays >= 7 then 1 else 0, now)
      ensures old(Valid()) ==> Valid()
    {
      if lastStudyDate == Some(today) {
        return false;
      }
      var s := StreakStep(StreakState(profile.streakDays, profile.maxStreak, lastStudyDate), today);
      if Valid() {
        StreakKeepsInvariant(profile, s.streakDays, s.maxStreak);
      }
      profile := profile.(streakDays := s.streakDays, maxStreak := s.maxStreak);
      lastStudyDate := Some(today);
      ReportStreakAchievements(s.streakDays, now);
      milestone := s.streakDays > 1;
    }
  }

  /** The 30- and 100-day streak achievements are not in the catalog. */
  lemma LongStreakAchievementsAbsent()
    ensures "streak_30" !in AchievementCatalogIds && "streak_100" !in AchievementCatalogIds
  {
    assert "streak_100"[7] == '1' && "streak_7"[7] == '7';
  }

  /** A new streak that does not beat its record keeps the invariant. */
  lemma StreakKeepsInvariant(p: UserProfile, streakDays: int, maxStreak: int)
    requires ProfileInvariant(p) && maxStreak >= streakDays
    ensures ProfileInvariant(p.(streakDays := streakDays, maxStreak := maxStreak))
  {
  }

  /** Replacing the achievement list by its update keeps the invariant. */
  lemma UpdateKeepsInvariant(p: UserProfile, id: string, progress: int, now: int)
    requires ProfileInvariant(p)
    ensures ProfileInvariant(p.(achievements := AchievementsAfterProgress(p.achievements, id, progress, now)))
  {
    var r := AchievementsAfterProgress(p.achievements, id, progress, now);
    assert forall i :: 0 <= i < |r| ==> r[i].id == p.achievements[i].id;
    forall a | a in r
      ensures a.id in AchievementCatalogIds
      ensures a.progress <= a.maxProgress && (a.isCompleted <==> a.progress >= a.maxProgress)
    {
      var k :| 0 <= k < |r| && r[k] == a;
      assert p.achievements[k] in p.achievements;
    }
  }
}
