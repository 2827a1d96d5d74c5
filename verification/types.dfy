/** The data model of the gamification layer: profile, badges, achievements,
    missions, goals, review items, reminders, heat-map cells, flashcards and
    notifications. String unions of the original become datatypes; a field
    named `type` in the original is called `kind` here (`type` is a keyword).
    Timestamps are integers (milliseconds, or day numbers where noted);
    notification creation times stay strings because they are split on 'T'. */
module Types {
  import opened Util

  datatype Rarity = Common | Rare | Epic | Legendary

  datatype BadgeCategory = LearningBadge | StreakBadge | QuizBadge | SocialBadge | AchievementBadge

  /** A reward; an absent `badges` list is the empty list. */
  datatype Reward = Reward(xp: int, points: int, badges: seq<string>)

  /** A badge; catalog entries carry no unlock time, owned badges do. */
  datatype Badge = Badge(
    id: string, name: string, description: string, icon: string,
    rarity: Rarity, unlockedAt: Option<int>, category: BadgeCategory)

  datatype GameAchievement = GameAchievement(
    id: string, name: string, description: string, icon: string,
    progress: int, maxProgress: int, isCompleted: bool,
    completedAt: Option<int>, reward: Reward)

  datatype Theme = Light | Dark | Auto
  datatype Language = Korean | English
  datatype NotificationSettings = NotificationSettings(daily: bool, weekly: bool, achievements: bool, reminders: bool)

  /** `days` holds weekdays, documented as 0 (Sunday) to 6 (Saturday). */
  datatype StudyReminder = StudyReminder(id: string, time: string, days: seq<int>, message: string, isActive: bool)

  datatype UserPreferences = UserPreferences(
    theme: Theme, language: Language, notifications: NotificationSettings,
    studyReminders: seq<StudyReminder>, soundEffects: bool, animations: bool)

  datatype UserProfile = UserProfile(
    avatar: Option<string>,
    level: int, xp: int, totalXp: int,
    streakDays: int, maxStreak: int, points: int,
    badges: seq<Badge>, achievements: seq<GameAchievement>,
    preferences: UserPreferences)

  datatype MissionType = StudyAi | TakeQuiz | LearnTerms | KeepStreak | EarnPoints

  datatype DailyMission = DailyMission(
    id: string, name: string, description: string, icon: string,
    kind: MissionType, target: int, current: int, isCompleted: bool,
    reward: Reward, validUntil: int)

  datatype GoalType = Daily | Weekly | Monthly | Custom
  datatype GoalCategory = AiInfoGoal | QuizGoal | TermsGoal | StreakGoal | XpGoal

  datatype Goal = Goal(
    id: string, name: string, description: string, kind: GoalType,
    target: int, current: int, category: GoalCategory, deadline: int,
    isCompleted: bool, reward: Reward)

  datatype ReviewType = QuizReview | TermReview | AiInfoReview
  datatype ContentId = TextId(text: string) | NumberId(number: int)

  /** `difficulty` is documented as an integer from 1 to 5. */
  datatype ReviewItem = ReviewItem(
    id: string, kind: ReviewType, contentId: ContentId,
    lastReviewed: int, nextReview: int, difficulty: int,
    correctCount: int, totalCount: int, isActive: bool)

  datatype ActivityDetails = ActivityDetails(aiInfo: int, quiz: int, terms: int, studyTime: int)

  /** `value` is documented as an activity intensity from 0 to 4. */
  datatype HeatmapData = HeatmapData(date: string, value: int, details: ActivityDetails)

  /** The three difficulty levels of flashcards and puzzles. */
  datatype Difficulty = Easy | Medium | Hard

  datatype Flashcard = Flashcard(
    id: string, front: string, back: string, category: string,
    difficulty: Difficulty, lastReviewed: Option<int>, nextReview: Option<int>,
    correctCount: int, totalCount: int, tags: seq<string>)

  datatype NotificationType = Achievement | Reminder | Social | System

  datatype Notification = Notification(
    id: string, kind: NotificationType, title: string, message: string,
    icon: Option<string>, isRead: bool, createdAt: string, actionUrl: Option<string>)

  /** The documented ranges. */
  predicate ValidDifficulty(d: int) { 1 <= d <= 5 }
  predicate ValidWeekday(d: int) { 0 <= d <= 6 }
  predicate ValidIntensity(v: int) { 0 <= v <= 4 }

  /** No two elements share an id. */
  predicate UniqueBadgeIds(bs: seq<Badge>) {
    forall i, j :: 0 <= i < j < |bs| ==> bs[i].id != bs[j].id
  }

  predicate UniqueAchievementIds(as_: seq<GameAchievement>) {
    forall i, j :: 0 <= i < j < |as_| ==> as_[i].id != as_[j].id
  }

  function BadgeIds(bs: seq<Badge>): (ids: set<string>)
    ensures forall b :: b in bs ==> b.id in ids
    ensures forall id :: id in ids ==> exists b :: b in bs && b.id == id
  {
    set b | b in bs :: b.id
  }

  function AchievementIds(as_: seq<GameAchievement>): (ids: set<string>)
    ensures forall a :: a in as_ ==> a.id in ids
    ensures forall id :: id in ids ==> exists a :: a in as_ && a.id == id
  {
    set a | a in as_ :: a.id
  }
}
