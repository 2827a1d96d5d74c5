/** The notification provider of the notification system: the list of
    notifications and the toast stack, both replaced by each handler, the
    three celebration popups, and the helpers the notification centre uses
    to group the list by day and to say how long ago something happened.
    Ids come from the clock and randomness in the original; here they are
    parameters that the caller promises are fresh. */
module NotificationSystem {
  import opened Util
  import opened Types
  import opened NotificationLists

  datatype ToastType = Success | ErrorToast | Warning | Info

  datatype Toast = Toast(id: string, message: string, kind: ToastType, createdAt: int)

  /** What `addNotification` receives: a notification without its id and
      creation time. The `isRead` it carries is overwritten. */
  datatype NotificationData = NotificationData(
    kind: NotificationType, title: string, message: string,
    icon: Option<string>, isRead: bool, actionUrl: Option<string>)

  datatype LevelRewards = LevelRewards(xp: int, points: int)
  datatype LevelUp = LevelUp(level: int, rewards: Option<LevelRewards>)

  /** `getToastTypeFromNotification`: achievements celebrate, system
      messages warn, reminders and social news inform; nothing maps to the
      error style. */
  function ToastTypeFor(kind: NotificationType): (t: ToastType)
    ensures t == Success <==> kind == Achievement
    ensures t == Warning <==> kind == System
    ensures t == Info <==> kind == Reminder || kind == Social
    ensures t != ErrorToast
  {
    match kind
    case Achievement => Success
    case Reminder => Info
    case Social => Info
    case System => Warning
  }

  /** Every added notification raises a toast with its title, except system
      notifications. */
  predicate RaisesToast(kind: NotificationType) {
    kind != System
  }

  /** `createdAt.split('T')[0]`: the text before the first `T`, or all of it. */
  function DatePrefix(s: string): (d: string)
    ensures d <= s && 'T' !in d
    ensures |d| < |s| ==> s[|d|] == 'T'
  {
    if s == [] || s[0] == 'T' then [] else [s[0]] + DatePrefix(s[1..])
  }

  function OnDate(d: string): Notification -> bool {
    (n: Notification) => DatePrefix(n.createdAt) == d
  }

  /** The days of a list in order of first appearance: the key order of the
      object `groupNotificationsByDate` builds. */
  function DateKeys(ns: seq<Notification>): seq<string> {
    if ns == [] then []
    else
      var keys := DateKeys(ns[..|ns| - 1]);
      var d := DatePrefix(ns[|ns| - 1].createdAt);
      if d in keys then keys else keys + [d]
  }

  /** Every day of the list is a key, and no key repeats. */
  lemma {:induction false} DateKeysCoverDays(ns: seq<Notification>)
    ensures NoDuplicates(DateKeys(ns))
    ensures forall i :: 0 <= i < |ns| ==> DatePrefix(ns[i].createdAt) in DateKeys(ns)
    decreases |ns|
  {
    if ns != [] {
      var init := ns[..|ns| - 1];
      DateKeysCoverDays(init);
      forall i | 0 <= i < |ns|
        ensures DatePrefix(ns[i].createdAt) in DateKeys(ns)
      {
        if i < |init| {
          assert ns[i] == init[i];
        }
      }
    }
  }

  /** A day no notification of the list falls on has an empty group. */
  lemma AbsentDayIsEmpty(ns: seq<Notification>, d: string)
    requires d !in DateKeys(ns)
    ensures Filter(ns, OnDate(d)) == []
  {
    DateKeysCoverDays(ns);
    CountNone(ns, OnDate(d));
    CountIsFilterLength(ns, OnDate(d));
  }

  /** `groups` and `order` are the grouping of `ns`: the days in order of
      first appearance, each with exactly its notifications in list order. */
  ghost predicate GroupsOf(ns: seq<Notification>, groups: map<string, seq<Notification>>, order: seq<string>) {
    && order == DateKeys(ns)
    && (forall d :: d in groups <==> d in order)
    && (forall d :: d in groups ==> groups[d] == Filter(ns, OnDate(d)) && groups[d] != [])
  }

  /** The day keys of a list with one more notification. */
  lemma DateKeysAppend(ns: seq<Notification>, n: Notification)
    ensures DateKeys(ns + [n]) ==
      var keys := DateKeys(ns);
      var date := DatePrefix(n.createdAt);
      if date in keys then keys else keys + [date]
  {
    assert (ns + [n])[..|ns|] == ns;
  }

  /** The group of a day after one more notification. */
  lemma GroupAppend(ns: seq<Notification>, n: Notification, d: string)
    ensures Filter(ns + [n], OnDate(d)) == Filter(ns, OnDate(d)) + (if DatePrefix(n.createdAt) == d then [n] else [])
  {
    FilterAppend(ns, [n], OnDate(d));
  }

  /** Pushing one more notification onto its day's group, created empty if
      missing, groups the longer list. */
  lemma GroupPush(ns: seq<Notification>, n: Notification, groups: map<string, seq<Notification>>, order: seq<string>,
                  groups': map<string, seq<Notification>>, order': seq<string>)
    requires GroupsOf(ns, groups, order)
    requires var date := DatePrefix(n.createdAt);
      && groups' == groups[date := (if date in groups then groups[date] else []) + [n]]
      && order' == if date in groups then order else order + [date]
    ensures GroupsOf(ns + [n], groups', order')
  {
    var date := DatePrefix(n.createdAt);
    DateKeysAppend(ns, n);
    forall d | d in groups'
      ensures groups'[d] == Filter(ns + [n], OnDate(d)) && groups'[d] != []
    {
      GroupAppend(ns, n, d);
      if d == date && date !in groups {
        AbsentDayIsEmpty(ns, date);
      }
    }
  }

  /** One step of the reduce, over the prefix of the list read so far. */
  lemma GroupStep(ns: seq<Notification>, i: nat, groups: map<string, seq<Notification>>, order: seq<string>,
                  groups': map<string, seq<Notification>>, order': seq<string>)
    requires i < |ns| && GroupsOf(ns[..i], groups, order)
    requires var date := DatePrefix(ns[i].createdAt);
      && groups' == groups[date := (if date in groups then groups[date] else []) + [ns[i]]]
      && order' == if date in groups then order else order + [date]
    ensures GroupsOf(ns[..i + 1], groups', order')
  {
    assert ns[..i + 1] == ns[..i] + [ns[i]];
    GroupPush(ns[..i], ns[i], groups, order, groups', order');
  }

  /** `groupNotificationsByDate`: one pass over the list that pushes every
      notification onto the group of its day, creating the group on the
      first notification of that day. Every group holds exactly the
      notifications of its day, in list order, and the keys come in order of
      first appearance. */
  method GroupNotificationsByDate(ns: seq<Notification>) returns (groups: map<string, seq<Notification>>, order: seq<string>)
    ensures order == DateKeys(ns)
    ensures forall d :: d in groups <==> d in order
    ensures forall d :: d in groups ==> groups[d] == Filter(ns, OnDate(d)) && groups[d] != []
  {
    groups := map[];
    order := [];
    var i := 0;
    while i < |ns|
      invariant 0 <= i <= |ns|
      invariant GroupsOf(ns[..i], groups, order)
    {
      var date := DatePrefix(ns[i].createdAt);
      ghost var before, orderBefore := groups, order;
      // A missing group starts empty; then the notification is pushed.
      var group := if date in groups then groups[date] else [];
      if date !in groups {
        order := order + [date];
      }
      groups := groups[date := group + [ns[i]]];
      GroupStep(ns, i, before, orderBefore, groups, order);
      i := i + 1;
    }
    assert ns[..i] == ns;
  }

  /** Sum of the group sizes for the given days. */
  function GroupSizes(ns: seq<Notification>, keys: seq<string>): nat {
    if keys == [] then 0
    else GroupSizes(ns, keys[..|keys| - 1]) + |Filter(ns, OnDate(keys[|keys| - 1]))|
  }

  /** Appending one notification adds one to the sum over a key list that
      holds its day once, and nothing otherwise. */
  lemma {:induction false} GroupSizesAppend(ns: seq<Notification>, n: Notification, keys: seq<string>)
    requires NoDuplicates(keys)
    ensures GroupSizes(ns + [n], keys) == GroupSizes(ns, keys) + (if DatePrefix(n.createdAt) in keys then 1 else 0)
    decreases |keys|
  {
    if keys != [] {
      var init := keys[..|keys| - 1];
      var last := keys[|keys| - 1];
      assert keys == init + [last];
      GroupSizesAppend(ns, n, init);
      FilterAppend(ns, [n], OnDate(last));
      assert DatePrefix(n.createdAt) in keys <==> DatePrefix(n.createdAt) in init || DatePrefix(n.createdAt) == last;
      assert last !in init;
    }
  }

  /** The groups partition the list: their sizes add up to its length. */
  lemma {:induction false} GroupSizesSumToLength(ns: seq<Notification>)
    ensures GroupSizes(ns, DateKeys(ns)) == |ns|
    decreases |ns|
  {
    if ns != [] {
      var init := ns[..|ns| - 1];
      var n := ns[|ns| - 1];
      var keys := DateKeys(init);
      var d := DatePrefix(n.createdAt);
      assert ns == init + [n];
      GroupSizesSumToLength(init);
      DateKeysCoverDays(init);
      GroupSizesAppend(init, n, keys);
      if d !in keys {
        var ext := keys + [d];
        assert ext[..|ext| - 1] == keys;
        AbsentDayIsEmpty(init, d);
        FilterAppend(init, [n], OnDate(d));
      }
    }
  }

  datatype TimeAgo = JustNow | MinutesAgo(minutes: int) | HoursAgo(hours: int) | DaysAgo(days: int)

  const MinuteMs: int := 60000

  /** `formatTime`: the whole minutes elapsed decide the wording; under a
      minute (or in the future) is "just now", then minutes below an hour,
      hours below a day, days after that. */
  function FormatTimeAgo(elapsedMs: int): (t: TimeAgo) {
    var m := FloorDiv(elapsedMs, MinuteMs);
    if m < 1 then JustNow
    else if m < 60 then MinutesAgo(m)
    else if m < 1440 then HoursAgo(FloorDiv(m, 60))
    else DaysAgo(FloorDiv(m, 1440))
  }

  /** Each wording covers one range of elapsed time, and the number shown is
      the elapsed time rounded down to that unit. */
  lemma FormatTimeAgoBuckets(elapsedMs: int)
    ensures FormatTimeAgo(elapsedMs) == JustNow <==> elapsedMs < 60000
    ensures FormatTimeAgo(elapsedMs).MinutesAgo? <==> 60000 <= elapsedMs < 3600000
    ensures FormatTimeAgo(elapsedMs).HoursAgo? <==> 3600000 <= elapsedMs < 86400000
    ensures FormatTimeAgo(elapsedMs).DaysAgo? <==> 86400000 <= elapsedMs
    ensures FormatTimeAgo(elapsedMs).MinutesAgo? ==>
      var k := FormatTimeAgo(elapsedMs).minutes; k * 60000 <= elapsedMs < k * 60000 + 60000
    ensures FormatTimeAgo(elapsedMs).HoursAgo? ==>
      var k := FormatTimeAgo(elapsedMs).hours; 1 <= k < 24 && k * 3600000 <= elapsedMs < k * 3600000 + 3600000
    ensures FormatTimeAgo(elapsedMs).DaysAgo? ==>
      var k := FormatTimeAgo(elapsedMs).days; 1 <= k && k * 86400000 <= elapsedMs < k * 86400000 + 86400000
  {
    var m := FloorDiv(elapsedMs, MinuteMs);
    assert m * 60000 <= elapsedMs < m * 60000 + 60000;
    if m >= 60 {
      var h := FloorDiv(m, 60);
      assert h * 60 <= m < h * 60 + 60;
      assert h * 3600000 == (h * 60) * 60000;
      assert (h * 60 + 60) * 60000 == h * 3600000 + 3600000;
      var dd := FloorDiv(m, 1440);
      assert dd * 1440 <= m < dd * 1440 + 1440;
      assert dd * 86400000 == (dd * 1440) * 60000;
      assert (dd * 1440 + 1440) * 60000 == dd * 86400000 + 86400000;
    }
  }

  /** The provider's state. Notification ids stay unique because every id it
      is given is fresh. */
  class NotificationProvider {
    var notifications: seq<Notification>
    var toasts: seq<Toast>
    var achievementPopup: Option<GameAchievement>
    var badgePopup: Option<Badge>
    var levelUpPopup: Option<LevelUp>

    predicate Valid()
      reads this
    {
      NoDuplicates(Ids(notifications))
    }

    /** The popups' state and both lists start empty. */
    constructor ()
      ensures Valid()
      ensures notifications == [] && toasts == []
      ensures achievementPopup == None && badgePopup == None && levelUpPopup == None
    {
      notifications := [];
      toasts := [];
      achievementPopup := None;
      badgePopup := None;
      levelUpPopup := None;
    }

    /** `showToast`: a toast goes on the end of the stack. */
    method ShowToast(message: string, kind: ToastType, id: string, now: int)
      modifies this
      ensures toasts == old(toasts) + [Toast(id, message, kind, now)]
      ensures notifications == old(notifications)
      ensures achievementPopup == old(achievementPopup) && badgePopup == old(badgePopup) && levelUpPopup == old(levelUpPopup)
    {
      toasts := toasts + [Toast(id, message, kind, now)];
    }

    /** The toast's timer running out, or its close button: the toasts with
        that id leave the stack. */
    method RemoveToast(id: string)
      modifies this
      ensures toasts == Filter(old(toasts), (t: Toast) => t.id != id)
      ensures forall t :: t in toasts <==> t in old(toasts) && t.id != id
      ensures notifications == old(notifications)
      ensures achievementPopup == old(achievementPopup) && badgePopup == old(badgePopup) && levelUpPopup == old(levelUpPopup)
    {
      toasts := Filter(toasts, (t: Toast) => t.id != id);
    }

    /** `addNotification`: the new notification, unread, goes in front; the
        list grows by one and its unread count by one; a toast with its title
        follows unless it is a system notification. */
    method AddNotification(data: NotificationData, id: string, createdAt: string, toastId: string, now: int)
      requires Valid() && FreshId(notifications, id)
      modifies this
      ensures Valid()
      ensures notifications == [Notification(id, data.kind, data.title, data.message, data.icon, false, createdAt, data.actionUrl)] + old(notifications)
      ensures UnreadCount(notifications) == UnreadCount(old(notifications)) + 1
      ensures RaisesToast(data.kind) ==> toasts == old(toasts) + [Toast(toastId, data.title, ToastTypeFor(data.kind), now)]
      ensures !RaisesToast(data.kind) ==> toasts == old(toasts)
      ensures achievementPopup == old(achievementPopup) && badgePopup == old(badgePopup) && levelUpPopup == old(levelUpPopup)
    {
      var n := Notification(id, data.kind, data.title, data.message, data.icon, false, createdAt, data.actionUrl);
      PrependKeepsIdsUnique(notifications, n);
      PrependUnread(notifications, n);
      notifications := [n] + notifications;
      if data.kind != System {
        ShowToast(data.title, ToastTypeFor(data.kind), toastId, now);
      }
    }

    /** `removeNotification`: exactly the notifications with that id go. */
    method RemoveNotification(id: string)
      requires Valid()
      modifies this
      ensures Valid()
      ensures notifications == RemoveById(old(notifications), id)
      ensures toasts == old(toasts)
      ensures achievementPopup == old(achievementPopup) && badgePopup == old(badgePopup) && levelUpPopup == old(levelUpPopup)
    {
      var r := RemoveById(notifications, id);
      RemoveKeepsIdsUnique(notifications, id);
      notifications := r;
    }

    /** `markAsRead`: only the notification with that id changes, and it
        becomes read. */
    method MarkAsRead(id: string)
      requires Valid()
      modifies this
      ensures Valid()
      ensures notifications == MarkRead(old(notifications), id)
      ensures UnreadCount(notifications) <= UnreadCount(old(notifications))
      ensures toasts == old(toasts)
      ensures achievementPopup == old(achievementPopup) && badgePopup == old(badgePopup) && levelUpPopup == old(levelUpPopup)
    {
      MarkReadNeverRaisesUnread(notifications, id);
      notifications := MarkRead(notifications, id);
      assert Ids(notifications) == Ids(old(notifications));
    }

    /** `clearAll`: the list is emptied; toasts stay. */
    method ClearAll()
      modifies this
      ensures Valid()
      ensures notifications == [] && UnreadCount(notifications) == 0
      ensures toasts == old(toasts)
      ensures achievementPopup == old(achievementPopup) && badgePopup == old(badgePopup) && levelUpPopup == old(levelUpPopup)
    {
      notifications := [];
    }

    /** `showAchievement`: the achievement popup opens and a success toast
        names it. */
    method ShowAchievement(achievement: GameAchievement, toastId: string, now: int)
      modifies this
      ensures achievementPopup == Some(achievement)
      ensures toasts == old(toasts) + [Toast(toastId, "🏆 업적 달성: " + achievement.name, Success, now)]
      ensures notifications == old(notifications)
      ensures badgePopup == old(badgePopup) && levelUpPopup == old(levelUpPopup)
    {
      achievementPopup := Some(achievement);
      ShowToast("🏆 업적 달성: " + achievement.name, Success, toastId, now);
    }

    /** `showBadgeUnlock`: the badge popup opens and a success toast names
        the badge. */
    method ShowBadgeUnlock(badge: Badge, toastId: string, now: int)
      modifies this
      ensures badgePopup == Some(badge)
      ensures toasts == old(toasts) + [Toast(toastId, "🎖️ 새 배지: " + badge.name, Success, now)]
      ensures notifications == old(notifications)
      ensures achievementPopup == old(achievementPopup) && levelUpPopup == old(levelUpPopup)
    {
      badgePopup := Some(badge);
      ShowToast("🎖️ 새 배지: " + badge.name, Success, toastId, now);
    }

    /** `showLevelUp`: the level-up popup opens with the level and rewards,
        and a success toast names the level. */
    method ShowLevelUp(newLevel: int, rewards: Option<LevelRewards>, toastId: string, now: int)
      modifies this
      ensures levelUpPopup == Some(LevelUp(newLevel, rewards))
      ensures toasts == old(toasts) + [Toast(toastId, "🎉 레벨 " + IntToString(newLevel) + " 달성!", Success, now)]
      ensures notifications == old(notifications)
      ensures achievementPopup == old(achievementPopup) && badgePopup == old(badgePopup)
    {
      levelUpPopup := Some(LevelUp(newLevel, rewards));
      ShowToast("🎉 레벨 " + IntToString(newLevel) + " 달성!", Success, toastId, now);
    }

    /** Closing a popup. */
    method CloseAchievementPopup()
      modifies this
      ensures achievementPopup == None
      ensures notifications == old(notifications) && toasts == old(toasts)
      ensures badgePopup == old(badgePopup) && levelUpPopup == old(levelUpPopup)
    {
      achievementPopup := None;
    }
  }
}
