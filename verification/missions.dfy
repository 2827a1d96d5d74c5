/** Daily missions: the progress rule shared by the missions hook and the
    goals-and-missions panel, and the hook's own mission store. Progress is
    added to a mission and clamped at its target; the mission is completed
    exactly when its progress reaches the target, and the completion event
    fires only on the false-to-true edge. */
module Missions {
  import opened Util
  import opened Types

  /** The shape every mission keeps: progress at most the target, and the
      completion flag derived from it. */
  predicate MissionConsistent(m: DailyMission) {
    m.current <= m.target && (m.isCompleted <==> m.current >= m.target)
  }

  /** The rising edge: not yet completed, and the added progress reaches the target. */
  predicate MissionCompletesNow(m: DailyMission, progress: int) {
    !m.isCompleted && m.current + progress >= m.target
  }

  /** One mission after `progress` more units: `current` becomes
      min(current + progress, target) and the flag is recomputed. */
  function MissionAfterProgress(m: DailyMission, progress: int): (r: DailyMission)
    ensures r == m.(current := r.current, isCompleted := r.isCompleted)
    ensures r.current <= m.current + progress && r.current <= m.target
    ensures r.current == m.current + progress || r.current == m.target
    ensures r.isCompleted <==> m.current + progress >= m.target
    ensures MissionConsistent(r)
  {
    var newCurrent := if m.current + progress < m.target then m.current + progress else m.target;
    m.(current := newCurrent, isCompleted := newCurrent >= m.target)
  }

  /** The mission list after `updateMissionProgress(id, progress)`: the
      missions with that id are updated, the others are untouched. */
  function MissionsAfterProgress(ms: seq<DailyMission>, id: string, progress: int): (r: seq<DailyMission>)
    ensures |r| == |ms|
    ensures forall i :: 0 <= i < |ms| && ms[i].id != id ==> r[i] == ms[i]
    ensures forall i :: 0 <= i < |ms| && ms[i].id == id ==> r[i] == MissionAfterProgress(ms[i], progress)
  {
    seq(|ms|, i requires 0 <= i < |ms| =>
      if ms[i].id == id then MissionAfterProgress(ms[i], progress) else ms[i])
  }

  /** The missions (as they were before the update) whose completion event
      fires during `updateMissionProgress(id, progress)`, in list order. */
  function CompletedByUpdate(ms: seq<DailyMission>, id: string, progress: int): (r: seq<DailyMission>)
    ensures |r| <= |ms|
    ensures forall m :: m in r ==> m in ms && m.id == id && MissionCompletesNow(m, progress)
    ensures forall m :: m in ms && m.id == id && MissionCompletesNow(m, progress) ==> m in r
  {
    if ms == [] then []
    else
      var rest := CompletedByUpdate(ms[..|ms| - 1], id, progress);
      var last := ms[|ms| - 1];
      assert forall m :: m in ms ==> m in ms[..|ms| - 1] || m == last;
      if last.id == id && MissionCompletesNow(last, progress) then rest + [last] else rest
  }

  /** Once an update has completed the missions with that id, no later
      update raises their completion event again. */
  lemma {:induction false} CompletionEventOnce(ms: seq<DailyMission>, id: string, p: int, q: int)
    requires forall i :: 0 <= i < |ms| && ms[i].id == id ==> ms[i].current + p >= ms[i].target
    ensures CompletedByUpdate(MissionsAfterProgress(ms, id, p), id, q) == []
  {
    var r := MissionsAfterProgress(ms, id, p);
    NoEdgeNoEvent(r, id, q);
  }

  lemma {:induction false} NoEdgeNoEvent(ms: seq<DailyMission>, id: string, q: int)
    requires forall i :: 0 <= i < |ms| && ms[i].id == id ==> ms[i].isCompleted
    ensures CompletedByUpdate(ms, id, q) == []
  {
    if ms != [] {
      NoEdgeNoEvent(ms[..|ms| - 1], id, q);
    }
  }

  /** The hook's `generateDailyMissions`; `validUntil` is the next local midnight. */
  function HookDailyMissions(validUntil: int): (r: seq<DailyMission>)
    ensures |r| == 2 && r[0].id != r[1].id
    ensures forall m :: m in r ==> m.current == 0 && !m.isCompleted && m.target >= 1 && m.validUntil == validUntil
    ensures forall m :: m in r ==> MissionConsistent(m)
  {
    [ DailyMission("daily_study", "오늘의 학습", "AI 정보 3개를 학습하세요", "📚", StudyAi, 3, 0, false, Reward(100, 20, []), validUntil),
      DailyMission("daily_quiz", "오늘의 퀴즈", "퀴즈 10문제를 풀어보세요", "🎯", TakeQuiz, 10, 0, false, Reward(150, 30, []), validUntil) ]
  }

  /** The `useMissions` hook: the day's missions and the (loaded) goals. */
  class MissionsHook {
    var missions: seq<DailyMission>
    var goals: seq<Goal>

    /** A session with nothing saved for today: fresh missions, no goals. */
    constructor (validUntil: int)
      ensures missions == HookDailyMissions(validUntil) && goals == []
    {
      missions := HookDailyMissions(validUntil);
      goals := [];
    }

    /** `updateMissionProgress(missionId, progress)`. Returns the missions
        whose completion notice is logged; the hook grants no XP or points. */
    method UpdateMissionProgress(missionId: string, progress: int) returns (notices: seq<DailyMission>)
      modifies this
      ensures missions == MissionsAfterProgress(old(missions), missionId, progress)
      ensures notices == CompletedByUpdate(old(missions), missionId, progress)
      ensures goals == old(goals)
    {
      notices := CompletedByUpdate(missions, missionId, progress);
      missions := MissionsAfterProgress(missions, missionId, progress);
    }
  }
}
