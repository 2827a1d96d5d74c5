/** The list transforms both notification stores apply to their arrays:
    mark one or all as read, drop by id, and count the unread ones. */
module NotificationLists {
  import opened Util
  import opened Types

  predicate IsUnread(n: Notification) {
    !n.isRead
  }

  /** The ids of a list, in order. */
  function Ids(ns: seq<Notification>): (ids: seq<string>)
    ensures |ids| == |ns| && forall i :: 0 <= i < |ns| ==> ids[i] == ns[i].id
  {
    if ns == [] then [] else [ns[0].id] + Ids(ns[1..])
  }

  /** `unreadCount`: how many notifications are not read. */
  function UnreadCount(ns: seq<Notification>): (k: nat)
    ensures k <= |ns|
  {
    Count(ns, IsUnread)
  }

  /** `markAsRead(id)`: the notifications with that id become read; nothing
      else changes. */
  function MarkRead(ns: seq<Notification>, id: string): (r: seq<Notification>)
    ensures |r| == |ns|
    ensures forall i :: 0 <= i < |ns| && ns[i].id == id ==> r[i] == ns[i].(isRead := true)
    ensures forall i :: 0 <= i < |ns| && ns[i].id != id ==> r[i] == ns[i]
  {
    seq(|ns|, i requires 0 <= i < |ns| => if ns[i].id == id then ns[i].(isRead := true) else ns[i])
  }

  /** `markAllAsRead`: every notification becomes read, in the same order. */
  function MarkAllRead(ns: seq<Notification>): (r: seq<Notification>)
    ensures |r| == |ns|
    ensures forall i :: 0 <= i < |ns| ==> r[i] == ns[i].(isRead := true)
  {
    seq(|ns|, i requires 0 <= i < |ns| => ns[i].(isRead := true))
  }

  function NotId(id: string): Notification -> bool {
    (n: Notification) => n.id != id
  }

  /** `removeNotification` / `deleteNotification`: the notifications with that
      id go; the others stay in order. */
  function RemoveById(ns: seq<Notification>, id: string): (r: seq<Notification>)
    ensures forall n :: n in r <==> n in ns && n.id != id
    ensures |r| <= |ns|
    ensures (forall n :: n in ns ==> n.id != id) ==> r == ns
  {
    if forall n :: n in ns ==> n.id != id then
      FilterAll(ns, NotId(id));
      Filter(ns, NotId(id))
    else Filter(ns, NotId(id))
  }

  lemma {:induction false} MarkReadTail(ns: seq<Notification>, id: string)
    requires ns != []
    ensures MarkRead(ns, id) == [MarkRead(ns, id)[0]] + MarkRead(ns[1..], id)
  {
  }

  /** Marking everything read leaves nothing unread, and doing it again
      changes nothing. */
  lemma {:induction false} MarkAllReadClearsUnread(ns: seq<Notification>)
    ensures UnreadCount(MarkAllRead(ns)) == 0
    ensures MarkAllRead(MarkAllRead(ns)) == MarkAllRead(ns)
  {
    CountNone(MarkAllRead(ns), IsUnread);
  }

  /** Marking one notification read never raises the unread count. */
  lemma {:induction false} MarkReadNeverRaisesUnread(ns: seq<Notification>, id: string)
    ensures UnreadCount(MarkRead(ns, id)) <= UnreadCount(ns)
    decreases |ns|
  {
    if ns != [] {
      MarkReadTail(ns, id);
      MarkReadNeverRaisesUnread(ns[1..], id);
    }
  }

  /** With unique ids, marking an unread notification read lowers the unread
      count by exactly one. */
  lemma {:induction false} MarkReadCountsDown(ns: seq<Notification>, id: string, k: nat)
    requires NoDuplicates(Ids(ns))
    requires k < |ns| && ns[k].id == id && !ns[k].isRead
    ensures UnreadCount(MarkRead(ns, id)) == UnreadCount(ns) - 1
    decreases |ns|
  {
    var m := MarkRead(ns, id);
    var tail := ns[1..];
    MarkReadTail(ns, id);
    assert m[1..] == MarkRead(tail, id);
    var ids := Ids(ns);
    if k == 0 {
      forall i | 0 <= i < |tail|
        ensures tail[i].id != id
      {
        assert tail[i].id == ids[i + 1] && ids[0] != ids[i + 1];
      }
      MarkReadOfAbsent(tail, id);
      assert Count(m, IsUnread) == Count(tail, IsUnread);
      assert Count(ns, IsUnread) == 1 + Count(tail, IsUnread);
    } else {
      assert ns[0].id != id by {
        assert ids[0] != ids[k];
      }
      assert Ids(tail) == ids[1..];
      MarkReadCountsDown(tail, id, k - 1);
      assert m[0] == ns[0];
      assert Count(m, IsUnread) == (if IsUnread(ns[0]) then 1 else 0) + Count(MarkRead(tail, id), IsUnread);
    }
  }

  /** Marking an id that is not in the list changes nothing. */
  lemma MarkReadOfAbsent(ns: seq<Notification>, id: string)
    requires forall i :: 0 <= i < |ns| ==> ns[i].id != id
    ensures MarkRead(ns, id) == ns
  {
  }

  /** No notification of the list carries `id`. */
  predicate FreshId(ns: seq<Notification>, id: string) {
    forall i :: 0 <= i < |ns| ==> ns[i].id != id
  }

  /** Prepending a notification with a fresh id keeps the ids unique. */
  lemma PrependKeepsIdsUnique(ns: seq<Notification>, n: Notification)
    requires NoDuplicates(Ids(ns)) && FreshId(ns, n.id)
    ensures NoDuplicates(Ids([n] + ns))
  {
    var ids := Ids([n] + ns);
    forall i, j | 0 <= i < j < |ids|
      ensures ids[i] != ids[j]
    {
      if i > 0 {
        assert ids[i] == Ids(ns)[i - 1] && ids[j] == Ids(ns)[j - 1];
      }
    }
  }

  /** Removing the id of a freshly prepended notification gives back the
      list it was added to. */
  lemma RemoveUndoesPrepend(ns: seq<Notification>, n: Notification)
    requires FreshId(ns, n.id)
    ensures RemoveById([n] + ns, n.id) == ns
  {
    FilterAppend([n], ns, NotId(n.id));
    FilterAll(ns, NotId(n.id));
    assert Filter([n], NotId(n.id)) == [];
  }

  /** Marking a freshly prepended notification read touches only that one. */
  lemma MarkReadOfPrepended(ns: seq<Notification>, n: Notification)
    requires FreshId(ns, n.id)
    ensures MarkRead([n] + ns, n.id) == [n.(isRead := true)] + ns
  {
    MarkReadTail([n] + ns, n.id);
    assert ([n] + ns)[1..] == ns;
    MarkReadOfAbsent(ns, n.id);
  }

  /** A prepended unread notification adds one to the unread count. */
  lemma PrependUnread(ns: seq<Notification>, n: Notification)
    ensures UnreadCount([n] + ns) == UnreadCount(ns) + (if n.isRead then 0 else 1)
  {
    assert ([n] + ns)[1..] == ns;
  }

  /** Filtering a list with unique ids keeps them unique. */
  lemma {:induction false} FilterKeepsIdsUnique(ns: seq<Notification>, p: Notification -> bool)
    requires NoDuplicates(Ids(ns))
    ensures NoDuplicates(Ids(Filter(ns, p)))
    decreases |ns|
  {
    if ns != [] {
      var tail := ns[1..];
      assert Ids(tail) == Ids(ns)[1..];
      FilterKeepsIdsUnique(tail, p);
      var ft := Filter(tail, p);
      if p(ns[0]) {
        forall k | 0 <= k < |ft|
          ensures ft[k].id != ns[0].id
        {
          assert ft[k] in tail;
          var i :| 0 <= i < |tail| && tail[i] == ft[k];
          assert Ids(ns)[i + 1] == ft[k].id;
        }
        PrependKeepsIdsUnique(ft, ns[0]);
      }
    }
  }

  /** Removing by id keeps the remaining ids unique. */
  lemma RemoveKeepsIdsUnique(ns: seq<Notification>, id: string)
    requires NoDuplicates(Ids(ns))
    ensures NoDuplicates(Ids(RemoveById(ns, id)))
  {
    FilterKeepsIdsUnique(ns, NotId(id));
  }

  /** Appending a notification with a fresh id keeps the ids unique. */
  lemma AppendKeepsIdsUnique(ns: seq<Notification>, n: Notification)
    requires NoDuplicates(Ids(ns)) && FreshId(ns, n.id)
    ensures NoDuplicates(Ids(ns + [n]))
  {
    var ids := Ids(ns + [n]);
    forall i, j | 0 <= i < j < |ids|
      ensures ids[i] != ids[j]
    {
      assert ids[i] == Ids(ns)[i];
      if j < |ns| {
        assert ids[j] == Ids(ns)[j];
      }
    }
  }
}
