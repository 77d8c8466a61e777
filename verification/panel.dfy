/** The client's notification context: the list of notifications shown in the bell panel and
    the unread badge count, as updated by the session, the socket and the two mark actions. */
module NotificationPanel {
  import opened Wrappers
  import opened Records

  datatype Panel = Panel(items: seq<Notification>, unreadCount: int, hasFetched: bool)

  const Initial := Panel([], 0, false)

  /** The number of unread notifications in a list. */
  function Unread(s: seq<Notification>): nat {
    if |s| == 0 then 0 else (if s[0].isRead then 0 else 1) + Unread(s[1..])
  }

  /** The badge agrees with the list. */
  predicate Consistent(p: Panel) {
    p.unreadCount == Unread(p.items)
  }

  ghost predicate IdsUnique(s: seq<Notification>) {
    forall i, j :: 0 <= i < j < |s| ==> s[i].id != s[j].id
  }

  /** The session effect. Logging in on a panel not yet fetched loads the list and the count
      (`None` for a call that failed or answered without `success`, which leaves that part as
      it was) and marks the panel fetched; logging out of a fetched panel empties it; otherwise
      nothing happens. */
  function Session(p: Panel, authenticated: bool, fetchedList: Option<seq<Notification>>,
                   fetchedCount: Option<int>): (q: Panel)
    ensures authenticated && !p.hasFetched ==>
      q.hasFetched && q.items == fetchedList.GetOr(p.items) && q.unreadCount == fetchedCount.GetOr(p.unreadCount)
    ensures !authenticated && p.hasFetched ==> q == Initial
    ensures authenticated == p.hasFetched ==> q == p
  {
    if authenticated && !p.hasFetched then
      Panel(fetchedList.GetOr(p.items), fetchedCount.GetOr(p.unreadCount), true)
    else if !authenticated && p.hasFetched then Initial
    else p
  }

  /** A notification pushed over the socket goes to the front and bumps the badge. */
  function Receive(p: Panel, n: Notification): (q: Panel)
    ensures |q.items| == |p.items| + 1 && q.items[0] == n && q.items[1..] == p.items
    ensures q.unreadCount == p.unreadCount + 1 && q.hasFetched == p.hasFetched
  {
    p.(items := [n] + p.items, unreadCount := p.unreadCount + 1)
  }

  /** The list with the entries carrying `id` marked read. */
  function MarkIn(s: seq<Notification>, id: Id): (t: seq<Notification>)
    ensures |t| == |s|
    ensures forall i :: 0 <= i < |s| ==> t[i] == if s[i].id == id then s[i].(isRead := true) else s[i]
  {
    seq(|s|, i requires 0 <= i < |s| => if s[i].id == id then s[i].(isRead := true) else s[i])
  }

  function Max(a: int, b: int): int {
    if a < b then b else a
  }

  /** `markAsRead(id)`: when the server call succeeds, the entries with that id are read, all
      others are untouched, and the badge drops by one but never below zero; when it throws,
      nothing changes. */
  function MarkAsRead(p: Panel, id: Id, serverOk: bool): (q: Panel)
    ensures !serverOk ==> q == p
    ensures serverOk ==> |q.items| == |p.items| && q.hasFetched == p.hasFetched
    ensures serverOk ==> forall i :: 0 <= i < |p.items| ==>
      (p.items[i].id == id ==> q.items[i].isRead && q.items[i].(isRead := p.items[i].isRead) == p.items[i])
      && (p.items[i].id != id ==> q.items[i] == p.items[i])
    ensures serverOk ==> q.unreadCount >= 0 && q.unreadCount == (if p.unreadCount > 0 then p.unreadCount - 1 else 0)
  {
    if !serverOk then p
    else p.(items := MarkIn(p.items, id), unreadCount := Max(0, p.unreadCount - 1))
  }

  /** `markAllAsRead`: on success every entry is read and otherwise unchanged, and the badge
      is zero; when the server call throws, nothing changes. */
  function MarkAllAsRead(p: Panel, serverOk: bool): (q: Panel)
    ensures !serverOk ==> q == p
    ensures serverOk ==> |q.items| == |p.items| && q.unreadCount == 0 && q.hasFetched == p.hasFetched
    ensures serverOk ==> forall i :: 0 <= i < |p.items| ==>
      q.items[i].isRead && q.items[i].(isRead := p.items[i].isRead) == p.items[i]
  {
    if !serverOk then p
    else p.(items := seq(|p.items|, i requires 0 <= i < |p.items| => p.items[i].(isRead := true)), unreadCount := 0)
  }

  lemma {:induction false} UnreadAllRead(s: seq<Notification>)
    requires forall i :: 0 <= i < |s| ==> s[i].isRead
    ensures Unread(s) == 0
  {
    if |s| > 0 {
      UnreadAllRead(s[1..]);
    }
  }

  lemma {:induction false} MarkAbsent(s: seq<Notification>, id: Id)
    requires forall i :: 0 <= i < |s| ==> s[i].id != id
    ensures MarkIn(s, id) == s
  {
  }

  /** Marking the one unread entry with a given id lowers the unread number by exactly one. */
  lemma {:induction false} UnreadAfterMark(s: seq<Notification>, id: Id, k: nat)
    requires IdsUnique(s) && k < |s| && s[k].id == id && !s[k].isRead
    ensures Unread(MarkIn(s, id)) == Unread(s) - 1
  {
    var t := MarkIn(s, id);
    assert t[1..] == MarkIn(s[1..], id);
    if k == 0 {
      MarkAbsent(s[1..], id);
    } else {
      UnreadAfterMark(s[1..], id, k - 1);
    }
  }

  /** A pushed notification arrives unread, so the badge stays in step with the list. */
  lemma ReceiveKeepsConsistent(p: Panel, n: Notification)
    requires Consistent(p) && !n.isRead
    ensures Consistent(Receive(p, n))
  {
    assert Receive(p, n).items[1..] == p.items;
  }

  /** Clicking an unread entry (the only entries the panel lets one click through to
      `markAsRead`) keeps the badge in step with the list. */
  lemma MarkUnreadKeepsConsistent(p: Panel, k: nat, serverOk: bool)
    requires Consistent(p) && IdsUnique(p.items)
    requires k < |p.items| && !p.items[k].isRead
    ensures Consistent(MarkAsRead(p, p.items[k].id, serverOk))
  {
    if serverOk {
      UnreadAfterMark(p.items, p.items[k].id, k);
    }
  }

  /** Without that guard the badge drifts: marking an entry that is already read lowers the
      count although the unread entry is still there. */
  lemma MarkReadEntryDrifts(a: Notification, b: Notification)
    requires !a.isRead && b.isRead && a.id != b.id
    ensures var p := Panel([a, b], 1, true);
      Consistent(p) && !Consistent(MarkAsRead(p, b.id, true))
  {
    var p := Panel([a, b], 1, true);
    assert p.items[1..] == [b];
    assert [b][1..] == [];
    assert Unread([b]) == 0;
    var q := MarkAsRead(p, b.id, true);
    assert q.items == [a, b];
    assert q.items[1..] == [b];
  }

  /** After `markAllAsRead` the badge agrees with the list whatever came before. */
  lemma MarkAllConsistent(p: Panel)
    ensures Consistent(MarkAllAsRead(p, true))
  {
    UnreadAllRead(MarkAllAsRead(p, true).items);
  }

  /** `markAllAsRead` twice is `markAllAsRead` once. */
  lemma MarkAllIdempotent(p: Panel)
    ensures MarkAllAsRead(MarkAllAsRead(p, true), true) == MarkAllAsRead(p, true)
  {
    var q := MarkAllAsRead(p, true);
    assert MarkAllAsRead(q, true).items == q.items;
  }

  /** Marking the same id twice changes the list no further; the badge drops again. */
  lemma MarkAsReadTwice(p: Panel, id: Id)
    ensures MarkAsRead(MarkAsRead(p, id, true), id, true).items == MarkAsRead(p, id, true).items
  {
    var q := MarkAsRead(p, id, true);
    assert MarkAsRead(q, id, true).items == q.items;
  }

  /** Logging out leaves an empty, consistent panel ready for the next login. */
  lemma LogoutResets(p: Panel, l: Option<seq<Notification>>, c: Option<int>)
    requires p.hasFetched
    ensures var q := Session(p, false, l, c); q.items == [] && q.unreadCount == 0 && !q.hasFetched && Consistent(q)
  {
  }

  /** A login whose two fetches both succeed with agreeing answers gives a consistent panel. */
  lemma LoginConsistent(p: Panel, l: seq<Notification>)
    requires !p.hasFetched
    ensures Consistent(Session(p, true, Some(l), Some(Unread(l))))
  {
  }
}
