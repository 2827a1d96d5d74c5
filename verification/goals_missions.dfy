/** The goals-and-missions panel: its own daily missions (four of them),
    user goals with create, update and delete, the time left before a
    deadline, and the reward rule of the goal form. Reward claims, which the
    panel hands to its parent after a short delay, are collected in order in
    an outbox. */
module GoalsMissions {
  import opened Util
  import opened Types
  import opened Missions

  const MinuteMs: int := 60000
  const HourMs: int := 3600000
  const DayMs: int := 86400000

  /** The panel's `generateDailyMissions`: three counting missions and the
      streak mission, which starts completed when a streak is running. */
  function PanelDailyMissions(streakDays: int, validUntil: int): (r: seq<DailyMission>)
    ensures |r| == 4
    ensures forall m :: m in r ==> MissionConsistent(m) && m.target >= 1 && m.validUntil == validUntil
    ensures forall i :: 0 <= i < 3 ==> r[i].current == 0 && !r[i].isCompleted
    ensures r[3].kind == KeepStreak && (r[3].isCompleted <==> streakDays > 0)
    ensures forall i, j :: 0 <= i < j < 4 ==> r[i].id != r[j].id
  {
    var streakCurrent := if streakDays > 0 then 1 else 0;
    [ DailyMission("daily_ai_study", "오늘의 AI 학습", "AI 정보 3개를 학습하세요", "🧠", StudyAi, 3, 0, false, Reward(100, 25, []), validUntil),
      DailyMission("daily_quiz", "오늘의 퀴즈 도전", "퀴즈 10문제를 풀어보세요", "🎯", TakeQuiz, 10, 0, false, Reward(150, 35, []), validUntil),
      DailyMission("daily_terms", "용어 마스터", "새로운 용어 5개를 학습하세요", "📚", LearnTerms, 5, 0, false, Reward(80, 20, []), validUntil),
      DailyMission("daily_streak", "연속 학습 유지", "연속 학습 기록을 이어가세요", "🔥", KeepStreak, 1, streakCurrent, streakDays > 0, Reward(50, 15, []), validUntil) ]
  }

  datatype ClaimKind = MissionClaim | GoalClaim

  /** One call of `onClaimReward(kind, id, reward)`. */
  datatype Claim = Claim(kind: ClaimKind, id: string, reward: Reward)

  /** The claims for the missions completed by an update, in list order. */
  function MissionClaims(ms: seq<DailyMission>): (r: seq<Claim>)
    ensures |r| == |ms|
    ensures forall i :: 0 <= i < |ms| ==> r[i] == Claim(MissionClaim, ms[i].id, ms[i].reward)
  {
    seq(|ms|, i requires 0 <= i < |ms| => Claim(MissionClaim, ms[i].id, ms[i].reward))
  }

  /** A `Partial<Goal>`: each field is either replaced or kept. */
  datatype GoalUpdate = GoalUpdate(
    id: Option<string>, name: Option<string>, description: Option<string>,
    kind: Option<GoalType>, target: Option<int>, current: Option<int>,
    category: Option<GoalCategory>, deadline: Option<int>,
    isCompleted: Option<bool>, reward: Option<Reward>)

  function Pick<T>(o: Option<T>, d: T): T {
    if o.Some? then o.value else d
  }

  /** `{ ...goal, ...updates }`. */
  function MergeGoal(g: Goal, u: GoalUpdate): (r: Goal)
    ensures u.target.Some? ==> r.target == u.target.value
    ensures u.target.None? ==> r.target == g.target
    ensures u.current.Some? ==> r.current == u.current.value
    ensures u.current.None? ==> r.current == g.current
    ensures u == GoalUpdate(None, None, None, None, None, None, None, None, None, None) ==> r == g
  {
    Goal(Pick(u.id, g.id), Pick(u.name, g.name), Pick(u.description, g.description),
         Pick(u.kind, g.kind), Pick(u.target, g.target), Pick(u.current, g.current),
         Pick(u.category, g.category), Pick(u.deadline, g.deadline),
         Pick(u.isCompleted, g.isCompleted), Pick(u.reward, g.reward))
  }

  /** The goal reaches its target through this update while not completed before. */
  predicate GoalCompletesNow(g: Goal, u: GoalUpdate) {
    !g.isCompleted && MergeGoal(g, u).current >= MergeGoal(g, u).target
  }

  /** One goal after `updateGoal(g.id, u)`: the merge, marked completed on
      the rising edge. */
  function GoalAfterUpdate(g: Goal, u: GoalUpdate): (r: Goal)
    ensures GoalCompletesNow(g, u) ==> r == MergeGoal(g, u).(isCompleted := true)
    ensures !GoalCompletesNow(g, u) ==> r == MergeGoal(g, u)
    ensures GoalCompletesNow(g, u) ==> r.isCompleted && r.current >= r.target
  {
    var m := MergeGoal(g, u);
    if !g.isCompleted && m.current >= m.target then m.(isCompleted := true) else m
  }

  /** The goal list after `updateGoal(goalId, u)`. */
  function GoalsAfterUpdate(goals: seq<Goal>, goalId: string, u: GoalUpdate): (r: seq<Goal>)
    ensures |r| == |goals|
    ensures forall i :: 0 <= i < |goals| && goals[i].id != goalId ==> r[i] == goals[i]
    ensures forall i :: 0 <= i < |goals| && goals[i].id == goalId ==> r[i] == GoalAfterUpdate(goals[i], u)
  {
    seq(|goals|, i requires 0 <= i < |goals| =>
      if goals[i].id == goalId then GoalAfterUpdate(goals[i], u) else goals[i])
  }

  /** The claims of `updateGoal(goalId, u)`: for each matching goal on its
      rising edge, its id and its reward from before the update. */
  function GoalClaims(goals: seq<Goal>, goalId: string, u: GoalUpdate): (r: seq<Claim>)
    ensures |r| <= |goals|
    ensures forall c :: c in r ==>
              (c.kind == GoalClaim && c.id == goalId &&
               exists g :: g in goals && g.id == goalId && GoalCompletesNow(g, u) && g.reward == c.reward)
    ensures forall i :: 0 <= i < |goals| && goals[i].id == goalId && GoalCompletesNow(goals[i], u) ==>
              Claim(GoalClaim, goalId, goals[i].reward) in r
  {
    if goals == [] then []
    else
      var rest := GoalClaims(goals[..|goals| - 1], goalId, u);
      var last := goals[|goals| - 1];
      assert forall g :: g in goals[..|goals| - 1] ==> g in goals;
      if last.id == goalId && GoalCompletesNow(last, u) then rest + [Claim(GoalClaim, last.id, last.reward)] else rest
  }

  /** A completed goal is never claimed again, whatever the update. */
  lemma {:induction false} CompletedGoalNotClaimedAgain(goals: seq<Goal>, goalId: string, u: GoalUpdate)
    requires forall i :: 0 <= i < |goals| && goals[i].id == goalId ==> goals[i].isCompleted
    ensures GoalClaims(goals, goalId, u) == []
  {
    if goals != [] {
      CompletedGoalNotClaimedAgain(goals[..|goals| - 1], goalId, u);
    }
  }

  /** What the goal form submits: its fields and the reward derived from the target. */
  datatype GoalForm = GoalForm(
    name: string, description: string, kind: GoalType, target: int,
    category: GoalCategory, deadline: int, reward: Reward)

  /** The goal form's reward rule: 10 XP and 5 points per target unit. */
  function FormReward(target: int): (w: Reward)
    ensures w.badges == [] && w.xp == 2 * w.points
    ensures target > 0 ==> w.xp > 0 && w.points > 0
    ensures w.points == 5 * target
  {
    Reward(target * 10, target * 5, [])
  }

  /** The submitted form: `deadline` is the chosen day's instant. */
  function SubmitForm(name: string, description: string, kind: GoalType, target: int,
                      category: GoalCategory, deadline: int): (f: GoalForm)
    ensures f.reward == FormReward(target) && f.target == target && f.deadline == deadline
  {
    GoalForm(name, description, kind, target, category, deadline, FormReward(target))
  }

  /** Editing a goal submits the form's fields as a partial update. */
  function FormUpdate(f: GoalForm): (u: GoalUpdate)
    ensures u.id.None? && u.current.None? && u.isCompleted.None?
    ensures u.target == Some(f.target) && u.reward == Some(f.reward)
  {
    GoalUpdate(None, Some(f.name), Some(f.description), Some(f.kind), Some(f.target), None,
               Some(f.category), Some(f.deadline), None, Some(f.reward))
  }

  /** Lowering a goal's target to its progress completes it, and the claim
      carries the reward from before the edit. */
  lemma EditCompletesWithOldReward(g: Goal, f: GoalForm)
    requires !g.isCompleted && g.current >= f.target
    ensures GoalAfterUpdate(g, FormUpdate(f)).isCompleted
    ensures GoalAfterUpdate(g, FormUpdate(f)).reward == f.reward
    ensures GoalClaims([g], g.id, FormUpdate(f)) == [Claim(GoalClaim, g.id, g.reward)]
  {
    assert [g][..0] == [];
  }

  /** `getTimeRemaining(deadline)` at time `now`. */
  datatype TimeRemaining = Expired | DaysLeft(days: int, hours: int) | HoursLeft(hours: int) | MinutesLeft(minutes: int)

  function GetTimeRemaining(deadline: int, now: int): (r: TimeRemaining)
    ensures r.Expired? <==> deadline - now <= 0
    ensures r.DaysLeft? ==>
              (r.days >= 1 && 0 <= r.hours < 24 &&
               r.days * DayMs + r.hours * HourMs <= deadline - now < r.days * DayMs + (r.hours + 1) * HourMs)
    ensures r.HoursLeft? ==>
              (1 <= r.hours < 24 && r.hours * HourMs <= deadline - now < (r.hours + 1) * HourMs)
    ensures r.MinutesLeft? ==>
              (0 <= r.minutes < 60 && r.minutes * MinuteMs <= deadline - now < (r.minutes + 1) * MinuteMs)
  {
    var diff := deadline - now;
    if diff <= 0 then Expired
    else
      var days := diff / DayMs;
      var hours := (diff % DayMs) / HourMs;
      if days > 0 then DaysLeft(days, hours)
      else if hours > 0 then HoursLeft(hours)
      else MinutesLeft((diff % HourMs) / MinuteMs)
  }

  /** The text shown for the remaining time. */
  function TimeRemainingText(r: TimeRemaining): string {
    match r
    case Expired => "만료됨"
    case DaysLeft(d, h) => IntToString(d) + "일 " + IntToString(h) + "시간 남음"
    case HoursLeft(h) => IntToString(h) + "시간 남음"
    case MinutesLeft(m) => IntToString(m) + "분 남음"
  }

  /** The panel's state: today's missions, the goals, and the claims raised. */
  class GoalsPanel {
    var missions: seq<DailyMission>
    var goals: seq<Goal>
    var claims: seq<Claim>

    predicate Valid()
      reads this
    {
      forall i :: 0 <= i < |missions| ==> MissionConsistent(missions[i])
    }

    /** A day with no saved missions and no saved goals. */
    constructor (streakDays: int, validUntil: int)
      ensures missions == PanelDailyMissions(streakDays, validUntil)
      ensures goals == [] && claims == []
      ensures Valid()
    {
      missions := PanelDailyMissions(streakDays, validUntil);
      goals := [];
      claims := [];
      new;
      assert forall i :: 0 <= i < |missions| ==> missions[i] in missions;
    }

    /** `updateMissionProgress(missionId, progress)`. */
    method UpdateMissionProgress(missionId: string, progress: int)
      modifies this
      ensures missions == MissionsAfterProgress(old(missions), missionId, progress)
      ensures claims == old(claims) + MissionClaims(CompletedByUpdate(old(missions), missionId, progress))
      ensures goals == old(goals)
      ensures old(Valid()) ==> Valid()
    {
      claims := claims + MissionClaims(CompletedByUpdate(missions, missionId, progress));
      missions := MissionsAfterProgress(missions, missionId, progress);
    }

    /** `createGoal(form)` at time `now`: id `goal_<now>`, no progress yet. */
    method CreateGoal(f: GoalForm, now: int) returns (g: Goal)
      modifies this
      ensures goals == old(goals) + [g]
      ensures g == Goal("goal_" + IntToString(now), f.name, f.description, f.kind, f.target, 0,
                        f.category, f.deadline, false, f.reward)
      ensures missions == old(missions) && claims == old(claims)
      ensures old(Valid()) ==> Valid()
    {
      g := Goal("goal_" + IntToString(now), f.name, f.description, f.kind, f.target, 0,
                f.category, f.deadline, false, f.reward);
      goals := goals + [g];
    }

    /** `updateGoal(goalId, u)`. */
    method UpdateGoal(goalId: string, u: GoalUpdate)
      modifies this
      ensures goals == GoalsAfterUpdate(old(goals), goalId, u)
      ensures claims == old(claims) + GoalClaims(old(goals), goalId, u)
      ensures missions == old(missions)
      ensures old(Valid()) ==> Valid()
    {
      claims := claims + GoalClaims(goals, goalId, u);
      goals := GoalsAfterUpdate(goals, goalId, u);
    }

    /** `deleteGoal(goalId)`: keeps the other goals in order. */
    method DeleteGoal(goalId: string)
      modifies this
      ensures goals == Filter(old(goals), (g: Goal) => g.id != goalId)
      ensures forall g :: g in goals <==> g in old(goals) && g.id != goalId
      ensures missions == old(missions) && claims == old(claims)
      ensures old(Valid()) ==> Valid()
    {
      goals := Filter(goals, (g: Goal) => g.id != goalId);
    }
  }
}
