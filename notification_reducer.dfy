/** The client's notification store: a reducer over a list of notifications
    (newest first) and an unread counter kept beside it. The reducer is
    modelled as written (`Reduce`) and with its one miscount corrected
    (`ReduceIntended`): marking as read always decrements the counter, even
    when the target was already read or is not in the list. */
module NotificationReducer {
  import opened Common

  /** What a caller puts in a notification. */
  datatype Payload = Payload(kind: string, title: string, message: string, priority: string)

  /** A client-side notification. `id` and `timestamp` are generated when it
      is added (from the clock and a random number), so they are supplied by
      the action here. */
  datatype Entry = Entry(id: int, payload: Payload, timestamp: int, read: bool)

  datatype State = State(notifications: seq<Entry>, unreadCount: int)

  const Initial := State([], 0)

  datatype Action =
    | AddNotification(newId: int, payload: Payload, now: int)
    | MarkAsRead(id: int)
    | MarkAllAsRead
    | RemoveNotification(id: int)
    | ClearAllNotifications
    | Unknown(kind: string)

  /** The number of unread entries. */
  function UnreadIn(ns: seq<Entry>): (n: nat)
    ensures n <= |ns|
    ensures n == 0 <==> forall i :: 0 <= i < |ns| ==> ns[i].read
  {
    if ns == [] then 0 else (if ns[0].read then 0 else 1) + UnreadIn(ns[1..])
  }

  /** The counter agrees with the list. */
  predicate Consistent(s: State)
  {
    s.unreadCount == UnreadIn(s.notifications)
  }

  predicate UniqueIds(ns: seq<Entry>)
  {
    forall i, j :: 0 <= i < j < |ns| ==> ns[i].id != ns[j].id
  }

  predicate HasId(ns: seq<Entry>, id: int)
  {
    exists i :: 0 <= i < |ns| && ns[i].id == id
  }

  predicate HasUnread(ns: seq<Entry>, id: int)
  {
    exists i :: 0 <= i < |ns| && ns[i].id == id && !ns[i].read
  }

  /** `notifications.map(n => n.id === id ? {...n, read: true} : n)` */
  function MarkRead(ns: seq<Entry>, id: int): (r: seq<Entry>)
    ensures |r| == |ns|
    ensures forall i :: 0 <= i < |ns| ==> r[i] == if ns[i].id == id then ns[i].(read := true) else ns[i]
  {
    seq(|ns|, i requires 0 <= i < |ns| => if ns[i].id == id then ns[i].(read := true) else ns[i])
  }

  /** `notifications.map(n => ({...n, read: true}))` */
  function MarkAll(ns: seq<Entry>): (r: seq<Entry>)
    ensures |r| == |ns|
    ensures forall i :: 0 <= i < |ns| ==> r[i] == ns[i].(read := true)
  {
    seq(|ns|, i requires 0 <= i < |ns| => ns[i].(read := true))
  }

  /** `notifications.filter(n => n.id !== id)` */
  function WithoutId(ns: seq<Entry>, id: int): (r: seq<Entry>)
    ensures IsSubsequence(r, ns)
    ensures !HasId(r, id)
    ensures forall i :: 0 <= i < |ns| && ns[i].id != id ==> ns[i] in r
  {
    if ns == [] then []
    else if ns[0].id == id then WithoutId(ns[1..], id)
    else [ns[0]] + WithoutId(ns[1..], id)
  }

  /** `notifications.find(n => n.id === id)` */
  function FindById(ns: seq<Entry>, id: int): (r: Option<Entry>)
    ensures r.Some? ==> r.value in ns && r.value.id == id
    ensures r.None? <==> !HasId(ns, id)
  {
    if ns == [] then None
    else if ns[0].id == id then Some(ns[0])
    else
      var rest := FindById(ns[1..], id);
      assert rest.None? ==> forall i :: 1 <= i < |ns| ==> ns[i] == ns[1..][i - 1];
      rest
  }

  /** `Math.max(0, n - 1)` */
  function Decrement(n: int): (r: int)
    ensures r >= 0 && (n >= 1 ==> r == n - 1)
    ensures n <= 1 ==> r == 0
  {
    if n - 1 > 0 then n - 1 else 0
  }

  /** `notificationReducer` as written. */
  function Reduce(s: State, a: Action): (r: State)
    ensures s.unreadCount >= 0 ==> r.unreadCount >= 0
  {
    match a
    case AddNotification(newId, payload, now) =>
      State([Entry(newId, payload, now, false)] + s.notifications, s.unreadCount + 1)
    case MarkAsRead(id) =>
      State(MarkRead(s.notifications, id), Decrement(s.unreadCount))
    case MarkAllAsRead =>
      State(MarkAll(s.notifications), 0)
    case RemoveNotification(id) =>
      var target := FindById(s.notifications, id);
      State(WithoutId(s.notifications, id),
            if target.Some? && !target.value.read then Decrement(s.unreadCount) else s.unreadCount)
    case ClearAllNotifications =>
      State([], 0)
    case Unknown(_) =>
      s
  }

  /** The reducer over a run of actions from the initial state. */
  function Run(s: State, actions: seq<Action>): State
    decreases |actions|
  {
    if actions == [] then s else Run(Reduce(s, actions[0]), actions[1..])
  }

  /** Whatever the actions, the counter never goes below zero. */
  lemma {:induction false} CounterNeverNegative(s: State, actions: seq<Action>)
    requires s.unreadCount >= 0
    ensures Run(s, actions).unreadCount >= 0
    decreases |actions|
  {
    if actions != [] {
      CounterNeverNegative(Reduce(s, actions[0]), actions[1..]);
    }
  }

  /** What each action does to the list and the counter: ADD prepends one
      unread entry and counts it; MARK_AS_READ changes only the matching
      entries and always decrements; REMOVE drops the id and, over unique
      ids, decrements exactly when the entry was unread; MARK_ALL and CLEAR
      zero the counter; an unknown action changes nothing. */
  lemma ReduceEffects(s: State, a: Action)
    ensures a.AddNotification? ==>
              Reduce(s, a).notifications == [Entry(a.newId, a.payload, a.now, false)] + s.notifications
              && Reduce(s, a).unreadCount == s.unreadCount + 1
    ensures a.MarkAsRead? ==>
              forall i :: 0 <= i < |s.notifications| ==>
                Reduce(s, a).notifications[i].read == (s.notifications[i].read || s.notifications[i].id == a.id)
                && Reduce(s, a).notifications[i].(read := s.notifications[i].read) == s.notifications[i]
    ensures a.MarkAsRead? ==> Reduce(s, a).unreadCount == Decrement(s.unreadCount)
    ensures a.MarkAllAsRead? ==> UnreadIn(Reduce(s, a).notifications) == 0 == Reduce(s, a).unreadCount
    ensures a.RemoveNotification? ==> !HasId(Reduce(s, a).notifications, a.id)
    ensures a.RemoveNotification? && UniqueIds(s.notifications) ==>
              Reduce(s, a).unreadCount == if HasUnread(s.notifications, a.id) then Decrement(s.unreadCount) else s.unreadCount
    ensures a.ClearAllNotifications? ==> Reduce(s, a) == Initial
    ensures a.Unknown? ==> Reduce(s, a) == s
  {
    if a.RemoveNotification? && UniqueIds(s.notifications) {
      UnreadOfWithoutId(s.notifications, a.id);
    }
  }

  lemma {:induction false} UnreadOfMarkRead(ns: seq<Entry>, id: int)
    requires UniqueIds(ns)
    ensures UnreadIn(MarkRead(ns, id)) + (if HasUnread(ns, id) then 1 else 0) == UnreadIn(ns)
  {
    if ns != [] {
      UnreadOfMarkRead(ns[1..], id);
      assert MarkRead(ns, id)[1..] == MarkRead(ns[1..], id);
      assert HasUnread(ns, id) <==> (ns[0].id == id && !ns[0].read) || HasUnread(ns[1..], id) by {
        if HasUnread(ns, id) {
          var i :| 0 <= i < |ns| && ns[i].id == id && !ns[i].read;
          if i > 0 { assert ns[1..][i - 1] == ns[i]; }
        }
      }
      if ns[0].id == id {
        assert !HasUnread(ns[1..], id) by {
          forall i | 0 <= i < |ns[1..]| ensures ns[1..][i].id != id { assert ns[1..][i] == ns[i + 1]; }
        }
      }
    }
  }

  lemma {:induction false} UnreadOfWithoutId(ns: seq<Entry>, id: int)
    requires UniqueIds(ns)
    ensures UnreadIn(WithoutId(ns, id)) + (if HasUnread(ns, id) then 1 else 0) == UnreadIn(ns)
    ensures FindById(ns, id).Some? && !FindById(ns, id).value.read <==> HasUnread(ns, id)
  {
    if ns != [] {
      UnreadOfWithoutId(ns[1..], id);
      assert HasUnread(ns, id) <==> (ns[0].id == id && !ns[0].read) || HasUnread(ns[1..], id) by {
        if HasUnread(ns, id) {
          var i :| 0 <= i < |ns| && ns[i].id == id && !ns[i].read;
          if i > 0 { assert ns[1..][i - 1] == ns[i]; }
        }
      }
      if ns[0].id == id {
        assert !HasId(ns[1..], id) by {
          forall i | 0 <= i < |ns[1..]| ensures ns[1..][i].id != id { assert ns[1..][i] == ns[i + 1]; }
        }
        WithoutAbsentId(ns[1..], id);
      }
    }
  }

  lemma {:induction false} WithoutAbsentId(ns: seq<Entry>, id: int)
    requires !HasId(ns, id)
    ensures WithoutId(ns, id) == ns
    ensures !HasUnread(ns, id)
  {
    if ns != [] {
      assert !HasId(ns[1..], id) by {
        forall i | 0 <= i < |ns[1..]| ensures ns[1..][i].id != id { assert ns[1..][i] == ns[i + 1]; }
      }
      WithoutAbsentId(ns[1..], id);
    }
  }

  /** Adding under an unused id keeps the ids unique; marking and removing
      never break uniqueness. */
  predicate AddsFreshId(s: State, a: Action)
  {
    a.AddNotification? ==> !HasId(s.notifications, a.newId)
  }

  /** The as-written reducer keeps the counter equal to the number of unread
      entries, except when MARK_AS_READ names an entry that is not unread. */
  lemma ReduceKeepsConsistent(s: State, a: Action)
    requires Consistent(s) && UniqueIds(s.notifications) && AddsFreshId(s, a)
    requires a.MarkAsRead? ==> HasUnread(s.notifications, a.id)
    ensures Consistent(Reduce(s, a))
  {
    match a
    case AddNotification(newId, payload, now) =>
      assert Reduce(s, a).notifications[1..] == s.notifications;
    case MarkAsRead(id) =>
      UnreadOfMarkRead(s.notifications, id);
    case MarkAllAsRead =>
    case RemoveNotification(id) =>
      UnreadOfWithoutId(s.notifications, id);
    case ClearAllNotifications =>
    case Unknown(_) =>
  }

  /** The miscount: one read and one unread entry, counter 1; marking the read
      one as read again drops the counter to 0 while an unread entry remains. */
  lemma MarkAsReadMiscounts(p: Payload)
    ensures var s := State([Entry(1, p, 0, true), Entry(2, p, 0, false)], 1);
            Consistent(s) && UniqueIds(s.notifications)
            && Reduce(s, MarkAsRead(1)).unreadCount == 0
            && UnreadIn(Reduce(s, MarkAsRead(1)).notifications) == 1
  {
    var s := State([Entry(1, p, 0, true), Entry(2, p, 0, false)], 1);
    assert s.notifications[1..] == [Entry(2, p, 0, false)];
    var after := Reduce(s, MarkAsRead(1)).notifications;
    assert after == [Entry(1, p, 0, true), Entry(2, p, 0, false)];
    assert after[1..] == [Entry(2, p, 0, false)];
  }

  /** The reducer with MARK_AS_READ decrementing only when it reads an unread
      entry, the guard REMOVE already uses. */
  function ReduceIntended(s: State, a: Action): (r: State)
    ensures s.unreadCount >= 0 ==> r.unreadCount >= 0
    ensures !a.MarkAsRead? ==> r == Reduce(s, a)
    ensures a.MarkAsRead? ==> r.notifications == Reduce(s, a).notifications
  {
    match a
    case MarkAsRead(id) =>
      State(MarkRead(s.notifications, id),
            if HasUnread(s.notifications, id) then Decrement(s.unreadCount) else s.unreadCount)
    case _ => Reduce(s, a)
  }

  lemma {:induction false} MarkReadKeepsIds(ns: seq<Entry>, id: int)
    requires UniqueIds(ns)
    ensures UniqueIds(MarkRead(ns, id))
  {
    var r := MarkRead(ns, id);
    forall i, j | 0 <= i < j < |r| ensures r[i].id != r[j].id {
      assert r[i].id == ns[i].id && r[j].id == ns[j].id;
    }
  }

  lemma {:induction false} WithoutIdKeepsIds(ns: seq<Entry>, id: int)
    requires UniqueIds(ns)
    ensures UniqueIds(WithoutId(ns, id))
  {
    if ns != [] {
      assert UniqueIds(ns[1..]) by {
        forall i, j | 0 <= i < j < |ns[1..]| ensures ns[1..][i].id != ns[1..][j].id {
          assert ns[1..][i] == ns[i + 1] && ns[1..][j] == ns[j + 1];
        }
      }
      WithoutIdKeepsIds(ns[1..], id);
      if ns[0].id != id {
        var rest := WithoutId(ns[1..], id);
        forall e | e in rest ensures e.id != ns[0].id {
          SubsequenceMembers(rest, ns[1..], e);
          var k :| 0 <= k < |ns[1..]| && ns[1..][k] == e;
          assert ns[k + 1] == e;
        }
        var r := [ns[0]] + rest;
        forall i, j | 0 <= i < j < |r| ensures r[i].id != r[j].id {
          if i == 0 { assert r[j] == rest[j - 1] && rest[j - 1] in rest; }
          else { assert r[i] == rest[i - 1] && r[j] == rest[j - 1]; }
        }
      }
    }
  }

  lemma {:induction false} SubsequenceMembers(sub: seq<Entry>, s: seq<Entry>, e: Entry)
    requires IsSubsequence(sub, s) && e in sub
    ensures e in s
    decreases |s|
  {
    if sub[0] == e {
      assert s != [];
      if s[0] != sub[0] { SubsequenceMembers(sub, s[1..], e); }
    } else if s[0] == sub[0] {
      SubsequenceMembers(sub[1..], s[1..], e);
    } else {
      SubsequenceMembers(sub, s[1..], e);
    }
  }

  /** The corrected reducer keeps the counter equal to the number of unread
      entries, and the ids unique, on every action. */
  lemma IntendedKeepsConsistent(s: State, a: Action)
    requires Consistent(s) && UniqueIds(s.notifications) && AddsFreshId(s, a)
    ensures Consistent(ReduceIntended(s, a))
    ensures UniqueIds(ReduceIntended(s, a).notifications)
  {
    match a
    case AddNotification(newId, payload, now) =>
      var r := ReduceIntended(s, a).notifications;
      assert r[1..] == s.notifications;
      forall i, j | 0 <= i < j < |r| ensures r[i].id != r[j].id {
        if i == 0 { assert r[j] == s.notifications[j - 1]; }
        else { assert r[i] == s.notifications[i - 1] && r[j] == s.notifications[j - 1]; }
      }
    case MarkAsRead(id) =>
      UnreadOfMarkRead(s.notifications, id);
      MarkReadKeepsIds(s.notifications, id);
    case MarkAllAsRead =>
      var r := ReduceIntended(s, a).notifications;
      forall i, j | 0 <= i < j < |r| ensures r[i].id != r[j].id {
        assert r[i].id == s.notifications[i].id && r[j].id == s.notifications[j].id;
      }
    case RemoveNotification(id) =>
      UnreadOfWithoutId(s.notifications, id);
      WithoutIdKeepsIds(s.notifications, id);
    case ClearAllNotifications =>
    case Unknown(_) =>
  }
}
