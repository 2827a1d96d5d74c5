/** The notification hook of the notifications component: the notification
    list and the toast queue, both replaced by each operation, the helpers
    that build the usual kinds of notification, the centre's filter tabs and
    the bell's unread badge. Ids and creation times come from the clock and
    randomness in the original; here they are parameters that the caller
    promises are fresh. */
module Notifications {
  import opened Util
  import opened Types
  import opened NotificationLists

  /** What `addNotification` receives: a notification without id, creation
      time and read flag. */
  datatype NotificationInput = NotificationInput(
    kind: NotificationType, title: string, message: string,
    icon: Option<string>, actionUrl: Option<string>)

  /** Only achievements and reminders go to the toast queue. */
  predicate QueuesToast(kind: NotificationType) {
    kind == Achievement || kind == Reminder
  }

  /** The notification `addNotification` stores: unread, with the given id
      and time. */
  function Created(input: NotificationInput, id: string, createdAt: string): (n: Notification)
    ensures n.id == id && n.createdAt == createdAt && !n.isRead
    ensures n.kind == input.kind && n.title == input.title && n.message == input.message
    ensures n.icon == input.icon && n.actionUrl == input.actionUrl
  {
    Notification(id, input.kind, input.title, input.message, input.icon, false, createdAt, input.actionUrl)
  }

  /** `icon || '🏆'`: an absent or empty icon falls back to the trophy. */
  function IconOrTrophy(icon: Option<string>): (r: string)
    ensures r != []
    ensures icon.Some? && icon.value != [] ==> r == icon.value
    ensures icon.None? || icon.value == [] ==> r == "🏆"
  {
    if icon.Some? && icon.value != [] then icon.value else "🏆"
  }

  function AchievementInput(title: string, message: string, icon: Option<string>): NotificationInput {
    NotificationInput(Achievement, title, message, Some(IconOrTrophy(icon)), None)
  }

  function LevelUpInput(level: int): NotificationInput {
    NotificationInput(Achievement, "레벨 업!", "축하합니다! 레벨 " + IntToString(level) + "에 도달했습니다.", Some("🎉"), None)
  }

  function StreakInput(days: int): NotificationInput {
    NotificationInput(Achievement, "연속 학습 달성!", IntToString(days) + "일 연속 학습을 달성했습니다! 🔥", Some("🔥"), None)
  }

  function BadgeInput(badgeName: string): NotificationInput {
    NotificationInput(Achievement, "새 배지 획득!", "\"" + badgeName + "\" 배지를 획득했습니다!", Some("🏅"), None)
  }

  function FriendInput(friendName: string, action: string): NotificationInput {
    NotificationInput(Social, "친구 활동", friendName + "님이 " + action, Some("👥"), None)
  }

  function ReminderInput(message: string): NotificationInput {
    NotificationInput(Reminder, "학습 알림", message, Some("⏰"), None)
  }

  /** The achievement, level-up, streak, badge and reminder helpers all
      produce notifications that reach the toast queue; the friend helper's
      social notification does not. Every helper sets an icon. */
  lemma HelpersQueueToasts(title: string, message: string, icon: Option<string>, level: int, days: int,
                           badgeName: string, friendName: string, action: string)
    ensures QueuesToast(AchievementInput(title, message, icon).kind)
    ensures QueuesToast(LevelUpInput(level).kind) && QueuesToast(StreakInput(days).kind)
    ensures QueuesToast(BadgeInput(badgeName).kind) && QueuesToast(ReminderInput(message).kind)
    ensures !QueuesToast(FriendInput(friendName, action).kind)
    ensures AchievementInput(title, message, icon).icon.Some? && AchievementInput(title, message, icon).icon.value != []
  {
  }

  /** The hook's state. Ids stay unique in both lists because every id it is
      given is fresh. */
  class NotificationsHook {
    var notifications: seq<Notification>
    var toastQueue: seq<Notification>

    predicate Valid()
      reads this
    {
      NoDuplicates(Ids(notifications)) && NoDuplicates(Ids(toastQueue))
    }

    constructor ()
      ensures Valid() && notifications == [] && toastQueue == []
    {
      notifications := [];
      toastQueue := [];
    }

    /** `addNotification`: the new notification, unread, goes in front; the
        unread count grows by one; achievements and reminders also join the
        end of the toast queue. */
    method AddNotification(input: NotificationInput, id: string, createdAt: string)
      requires Valid() && FreshId(notifications, id) && FreshId(toastQueue, id)
      modifies this
      ensures Valid()
      ensures notifications == [Created(input, id, createdAt)] + old(notifications)
      ensures UnreadCount(notifications) == UnreadCount(old(notifications)) + 1
      ensures QueuesToast(input.kind) ==> toastQueue == old(toastQueue) + [Created(input, id, createdAt)]
      ensures !QueuesToast(input.kind) ==> toastQueue == old(toastQueue)
    {
      var n := Created(input, id, createdAt);
      PrependKeepsIdsUnique(notifications, n);
      PrependUnread(notifications, n);
      notifications := [n] + notifications;
      if input.kind == Achievement || input.kind == Reminder {
        AppendKeepsIdsUnique(toastQueue, n);
        toastQueue := toastQueue + [n];
      }
    }

    /** `markAsRead`: only the notification with that id changes. */
    method MarkAsRead(id: string)
      requires Valid()
      modifies this
      ensures Valid()
      ensures notifications == MarkRead(old(notifications), id)
      ensures UnreadCount(notifications) <= UnreadCount(old(notifications))
      ensures toastQueue == old(toastQueue)
    {
      MarkReadNeverRaisesUnread(notifications, id);
      notifications := MarkRead(notifications, id);
      assert Ids(notifications) == Ids(old(notifications));
    }

    /** `markAllAsRead`: everything becomes read, in the same order. */
    method MarkAllAsRead()
      requires Valid()
      modifies this
      ensures Valid()
      ensures notifications == MarkAllRead(old(notifications))
      ensures UnreadCount(notifications) == 0
      ensures toastQueue == old(toastQueue)
    {
      MarkAllReadClearsUnread(notifications);
      notifications := MarkAllRead(notifications);
      assert Ids(notifications) == Ids(old(notifications));
    }

    /** `deleteNotification`: exactly the notifications with that id go. */
    method DeleteNotification(id: string)
      requires Valid()
      modifies this
      ensures Valid()
      ensures notifications == RemoveById(old(notifications), id)
      ensures toastQueue == old(toastQueue)
    {
      RemoveKeepsIdsUnique(notifications, id);
      notifications := RemoveById(notifications, id);
    }

    /** `removeToast`: exactly the queued toasts with that id go; the
        notification list keeps them. */
    method RemoveToast(id: string)
      requires Valid()
      modifies this
      ensures Valid()
      ensures toastQueue == RemoveById(old(toastQueue), id)
      ensures notifications == old(notifications)
    {
      RemoveKeepsIdsUnique(toastQueue, id);
      toastQueue := RemoveById(toastQueue, id);
    }

    method ShowAchievementNotification(title: string, message: string, icon: Option<string>, id: string, createdAt: string)
      requires Valid() && FreshId(notifications, id) && FreshId(toastQueue, id)
      modifies this
      ensures Valid()
      ensures notifications == [Created(AchievementInput(title, message, icon), id, createdAt)] + old(notifications)
      ensures toastQueue == old(toastQueue) + [Created(AchievementInput(title, message, icon), id, createdAt)]
    {
      AddNotification(AchievementInput(title, message, icon), id, createdAt);
    }

    method ShowLevelUpNotification(level: int, id: string, createdAt: string)
      requires Valid() && FreshId(notifications, id) && FreshId(toastQueue, id)
      modifies this
      ensures Valid()
      ensures notifications == [Created(LevelUpInput(level), id, createdAt)] + old(notifications)
      ensures toastQueue == old(toastQueue) + [Created(LevelUpInput(level), id, createdAt)]
    {
      AddNotification(LevelUpInput(level), id, createdAt);
    }

    method ShowStreakNotification(days: int, id: string, createdAt: string)
      requires Valid() && FreshId(notifications, id) && FreshId(toastQueue, id)
      modifies this
      ensures Valid()
      ensures notifications == [Created(StreakInput(days), id, createdAt)] + old(notifications)
      ensures toastQueue == old(toastQueue) + [Created(StreakInput(days), id, createdAt)]
    {
      AddNotification(StreakInput(days), id, createdAt);
    }

    method ShowBadgeNotification(badgeName: string, id: string, createdAt: string)
      requires Valid() && FreshId(notifications, id) && FreshId(toastQueue, id)
      modifies this
      ensures Valid()
      ensures notifications == [Created(BadgeInput(badgeName), id, createdAt)] + old(notifications)
      ensures toastQueue == old(toastQueue) + [Created(BadgeInput(badgeName), id, createdAt)]
    {
      AddNotification(BadgeInput(badgeName), id, createdAt);
    }

    /** A friend's activity is listed but never queued as a toast. */
    method ShowFriendNotification(friendName: string, action: string, id: string, createdAt: string)
      requires Valid() && FreshId(notifications, id) && FreshId(toastQueue, id)
      modifies this
      ensures Valid()
      ensures notifications == [Created(FriendInput(friendName, action), id, createdAt)] + old(notifications)
      ensures toastQueue == old(toastQueue)
    {
      AddNotification(FriendInput(friendName, action), id, createdAt);
    }

    method ShowReminderNotification(message: string, id: string, createdAt: string)
      requires Valid() && FreshId(notifications, id) && FreshId(toastQueue, id)
      modifies this
      ensures Valid()
      ensures notifications == [Created(ReminderInput(message), id, createdAt)] + old(notifications)
      ensures toastQueue == old(toastQueue) + [Created(ReminderInput(message), id, createdAt)]
    {
      AddNotification(ReminderInput(message), id, createdAt);
    }
  }

  /** The centre's filter tabs. */
  datatype NotificationFilter = All | UnreadOnly | AchievementOnly | SocialOnly

  function Keeps(f: NotificationFilter): Notification -> bool {
    (n: Notification) =>
      match f
      case UnreadOnly => !n.isRead
      case AchievementOnly => n.kind == Achievement
      case SocialOnly => n.kind == Social
      case All => true
  }

  /** The notifications the selected tab lists, in list order. */
  function FilterNotifications(ns: seq<Notification>, f: NotificationFilter): (r: seq<Notification>)
    ensures |r| <= |ns|
    ensures f == All ==> r == ns
    ensures f == UnreadOnly ==> forall n :: n in r <==> n in ns && !n.isRead
    ensures f == AchievementOnly ==> forall n :: n in r <==> n in ns && n.kind == Achievement
    ensures f == SocialOnly ==> forall n :: n in r <==> n in ns && n.kind == Social
  {
    if f == All then
      FilterAll(ns, Keeps(All));
      Filter(ns, Keeps(f))
    else Filter(ns, Keeps(f))
  }

  /** The unread tab lists exactly as many notifications as the bell counts. */
  lemma UnreadTabMatchesCount(ns: seq<Notification>)
    ensures |FilterNotifications(ns, UnreadOnly)| == UnreadCount(ns)
  {
    FilterExt(ns, Keeps(UnreadOnly), IsUnread);
    CountIsFilterLength(ns, IsUnread);
  }

  /** After "mark all as read" the unread tab is empty. */
  lemma MarkAllReadEmptiesUnreadTab(ns: seq<Notification>)
    ensures FilterNotifications(MarkAllRead(ns), UnreadOnly) == []
  {
    UnreadTabMatchesCount(MarkAllRead(ns));
    MarkAllReadClearsUnread(ns);
  }

  /** The bell's badge: hidden without unread notifications, "99+" above 99,
      otherwise the count in decimal. */
  function BadgeLabel(unreadCount: int): (shown: Option<string>)
    ensures shown.None? <==> unreadCount <= 0
    ensures shown == Some("99+") <==> unreadCount > 99
    ensures 0 < unreadCount <= 99 ==>
      shown.Some? && IsDigits(shown.value) && 1 <= |shown.value| <= 2 && DigitsValue(shown.value) == unreadCount
  {
    if unreadCount <= 0 then None
    else if unreadCount > 99 then Some("99+")
    else
      NatToStringRoundTrip(unreadCount);
      Some(IntToString(unreadCount))
  }
}
