/** The notification document: its content as built for a blood request, the
    read / click / dismiss life cycle with the two pre-save hooks, the expiry
    default, and the store-wide unread count and cleanup. */
module NotificationModel {
  import opened Common
  import opened JsText
  import Models

  datatype Kind = BloodRequestKind | DonationReminder | ProfileUpdate | SystemAlert
                | BloodBankAlert | EmergencyRequest

  datatype Priority = Low | Medium | High | Critical

  datatype Status = Pending | Sent | Read | Clicked | Dismissed | Expired

  datatype ButtonStyle = Primary | Secondary | Danger

  datatype ActionButton = ActionButton(caption: string, action: string, url: string, style: ButtonStyle)

  /** The `enabled` flag of each delivery channel. */
  datatype Channels = Channels(inApp: bool, push: bool, email: bool, sms: bool)

  /** The schema's channel defaults: in-app and push on, email and SMS off. */
  const DefaultChannels := Channels(true, true, false, false)

  /** What a notification says and to whom; fixed once it is built. */
  datatype Content = Content(
    recipient: Id,
    kind: Kind,
    title: string,
    message: string,
    priority: Priority,
    relatedRequest: Option<Id>,
    relatedUser: Option<Id>,
    requestLocation: Option<Point>,
    distance: nat,
    bloodTypeNeeded: string,
    urgencyLevel: string,
    channels: Channels,
    actionButtons: seq<ActionButton>)

  /** The validators `save()` runs on a content's strings after their
      `trim` setters: the title and the message are required, of at most 100
      and 500 characters. */
  predicate ContentSaves(c: Content)
  {
    && Trim(c.title) != "" && |Trim(c.title)| <= 100
    && Trim(c.message) != "" && |Trim(c.message)| <= 500
  }

  /** A stored notification as the queries see it. */
  datatype NotificationRow = NotificationRow(
    content: Content,
    expiresAt: int,
    status: Status,
    isRead: bool,
    readAt: Option<int>,
    sentAt: Option<int>,
    clickedAt: Option<int>,
    dismissedAt: Option<int>)

  /** The consistency the life-cycle operations keep: `readAt` is present
      exactly for read notifications, a `Read` or `Clicked` notification is
      read, a read one never goes back to `Pending` or `Sent`, and clicking
      or dismissing leaves its timestamp. */
  predicate RowValid(r: NotificationRow)
  {
    && (r.isRead <==> r.readAt.Some?)
    && (r.status == Read || r.status == Clicked ==> r.isRead)
    && (r.isRead ==> r.status != Pending && r.status != Sent)
    && (r.status == Clicked ==> r.clickedAt.Some?)
    && (r.status == Dismissed ==> r.dismissedAt.Some?)
  }

  // ---------------------------------------------------------------------------
  // Creation and expiry

  /** The `expiresAt` default: 24 hours after creation for a blood-request
      notification, 168 hours (a week) for every other kind. */
  function DefaultExpiresAt(kind: Kind, now: int): (t: int)
    ensures kind == BloodRequestKind ==> t == now + 24 * HourMs
    ensures kind != BloodRequestKind ==> t == now + 7 * 24 * HourMs
    ensures t > now
  {
    var hours := if kind == BloodRequestKind then 24 else 168;
    now + hours * 60 * 60 * 1000
  }

  /** The virtual `isExpired`: the clock is past `expiresAt`. */
  predicate IsExpired(expiresAt: int, now: int)
  {
    now > expiresAt
  }

  /** A freshly built notification: pending, unread, no timestamps. */
  function Created(content: Content, now: int): (r: NotificationRow)
    ensures RowValid(r) && !r.isRead && r.status == Pending
    ensures r.content == content && !IsExpired(r.expiresAt, now)
  {
    NotificationRow(content, DefaultExpiresAt(content.kind, now), Pending, false, None, None, None, None)
  }

  // ---------------------------------------------------------------------------
  // Life cycle, on values

  /** The two pre-save hooks, in their declaration order: a change of status
      to `Sent` stamps `sentAt` if it is not yet set; then an expired
      notification is forced to `Expired`, whatever its status. */
  function SaveHooks(r: NotificationRow, statusModified: bool, now: int): (s: NotificationRow)
    ensures s.status == Expired <==> (r.status == Expired || IsExpired(r.expiresAt, now))
    ensures !IsExpired(r.expiresAt, now) ==> s.status == r.status
    ensures r.sentAt.Some? ==> s.sentAt == r.sentAt
    ensures s.sentAt != r.sentAt ==> statusModified && r.status == Sent && s.sentAt == Some(now)
    ensures s.(status := r.status, sentAt := r.sentAt) == r
  {
    var stamped := if statusModified && r.status == Sent && r.sentAt.None? then r.(sentAt := Some(now)) else r;
    if IsExpired(stamped.expiresAt, now) && stamped.status != Expired then stamped.(status := Expired) else stamped
  }

  /** `markAsRead` followed by the save. */
  function ReadRow(r: NotificationRow, now: int): (s: NotificationRow)
    ensures s.isRead
    ensures r.isRead ==> s.readAt == r.readAt
    ensures !r.isRead ==> s.readAt == Some(now)
    ensures s.status == Expired <==> (IsExpired(r.expiresAt, now) || (r.isRead && r.status == Expired))
    ensures !IsExpired(r.expiresAt, now) && !r.isRead ==> s.status == Read
    ensures s.content == r.content && s.expiresAt == r.expiresAt
    ensures s.sentAt == r.sentAt && s.clickedAt == r.clickedAt && s.dismissedAt == r.dismissedAt
  {
    var changed := if r.isRead then r else r.(isRead := true, readAt := Some(now), status := Read);
    SaveHooks(changed, changed.status != r.status, now)
  }

  /** `markAsClicked` followed by the save. */
  function ClickRow(r: NotificationRow, now: int): (s: NotificationRow)
    ensures s.isRead && s.clickedAt == Some(now)
    ensures r.isRead ==> s.readAt == r.readAt
    ensures !r.isRead ==> s.readAt == Some(now)
    ensures s.status == (if IsExpired(r.expiresAt, now) then Expired else Clicked)
    ensures s.content == r.content && s.expiresAt == r.expiresAt
    ensures s.sentAt == r.sentAt && s.dismissedAt == r.dismissedAt
  {
    var changed := r.(clickedAt := Some(now), status := Clicked, isRead := true,
                      readAt := if r.isRead then r.readAt else Some(now));
    SaveHooks(changed, changed.status != r.status, now)
  }

  /** `dismiss` followed by the save. */
  function DismissRow(r: NotificationRow, now: int): (s: NotificationRow)
    ensures s.dismissedAt == Some(now)
    ensures s.status == (if IsExpired(r.expiresAt, now) then Expired else Dismissed)
    ensures s.isRead == r.isRead && s.readAt == r.readAt
    ensures s.content == r.content && s.expiresAt == r.expiresAt
    ensures s.sentAt == r.sentAt && s.clickedAt == r.clickedAt
  {
    var changed := r.(status := Dismissed, dismissedAt := Some(now));
    SaveHooks(changed, changed.status != r.status, now)
  }

  /** Every life-cycle step keeps a notification consistent. */
  lemma LifeCycleKeepsValid(r: NotificationRow, statusModified: bool, now: int)
    requires RowValid(r)
    ensures RowValid(SaveHooks(r, statusModified, now))
    ensures RowValid(ReadRow(r, now))
    ensures RowValid(ClickRow(r, now))
    ensures RowValid(DismissRow(r, now))
  {
  }

  /** Reading twice is reading once: the second `markAsRead` changes nothing
      that a plain save would not, and at the same instant nothing at all. */
  lemma ReadIsIdempotent(r: NotificationRow, now: int, later: int)
    ensures ReadRow(ReadRow(r, now), later) == SaveHooks(ReadRow(r, now), false, later)
    ensures ReadRow(ReadRow(r, now), now) == ReadRow(r, now)
  {
  }

  /** Clicking again restamps `clickedAt` only: the first `readAt` is kept,
      and a click after a read keeps the read's `readAt`. */
  lemma ClickKeepsFirstRead(r: NotificationRow, now: int, later: int)
    ensures ClickRow(ClickRow(r, now), later).readAt == ClickRow(r, now).readAt
    ensures ClickRow(ReadRow(r, now), later).readAt == ReadRow(r, now).readAt
    ensures ClickRow(ClickRow(r, now), now) == ClickRow(r, now)
  {
  }

  /** The expiry hook overrides a dismissal: dismissing an expired
      notification leaves it `Expired`, and any save of an expired one does too. */
  lemma ExpiryOverridesDismiss(r: NotificationRow, now: int)
    requires IsExpired(r.expiresAt, now)
    ensures DismissRow(r, now).status == Expired
    ensures SaveHooks(DismissRow(r, now - 1), false, now).status == Expired
  {
  }

  // ---------------------------------------------------------------------------
  // The document object

  /** A notification document whose methods assign its fields and save. */
  class Notification {
    const content: Content
    const expiresAt: int
    var status: Status
    var isRead: bool
    var readAt: Option<int>
    var sentAt: Option<int>
    var clickedAt: Option<int>
    var dismissedAt: Option<int>

    function Row(): NotificationRow
      reads this
    {
      NotificationRow(content, expiresAt, status, isRead, readAt, sentAt, clickedAt, dismissedAt)
    }

    ghost predicate Valid()
      reads this
    {
      RowValid(Row())
    }

    /** Just built from `c` at `now`, with the schema's defaults: the row is
        `Created(c, now)` (see `NewIsCreated`). */
    ghost predicate IsNew(c: Content, now: int)
      reads this
    {
      && content == c && expiresAt == DefaultExpiresAt(c.kind, now)
      && status == Pending && !isRead
      && readAt == None && sentAt == None && clickedAt == None && dismissedAt == None
    }

    lemma NewIsCreated(c: Content, now: int)
      requires IsNew(c, now)
      ensures Valid() && Row() == Created(c, now)
    {
    }

    /** `new Notification({...})` at time `now`. */
    constructor (content: Content, now: int)
      ensures IsNew(content, now)
    {
      this.content := content;
      expiresAt := DefaultExpiresAt(content.kind, now);
      status := Pending;
      isRead := false;
      readAt, sentAt, clickedAt, dismissedAt := None, None, None, None;
    }

    /** `save()`: runs the pre-save hooks; `statusModified` says whether the
        caller assigned a different status since the last save. */
    method Save(statusModified: bool, now: int)
      modifies this
      ensures Row() == SaveHooks(old(Row()), statusModified, now)
    {
      if statusModified && status == Sent && sentAt.None? {
        sentAt := Some(now);
      }
      if IsExpired(expiresAt, now) && status != Expired {
        status := Expired;
      }
    }

    method MarkAsRead(now: int)
      requires Valid()
      modifies this
      ensures Valid() && Row() == ReadRow(old(Row()), now)
    {
      var before := status;
      if !isRead {
        isRead := true;
        readAt := Some(now);
        status := Read;
      }
      Save(status != before, now);
      LifeCycleKeepsValid(old(Row()), false, now);
    }

    method MarkAsClicked(now: int)
      requires Valid()
      modifies this
      ensures Valid() && Row() == ClickRow(old(Row()), now)
    {
      var before := status;
      clickedAt := Some(now);
      status := Clicked;
      if !isRead {
        isRead := true;
        readAt := Some(now);
      }
      Save(status != before, now);
      LifeCycleKeepsValid(old(Row()), false, now);
    }

    method Dismiss(now: int)
      requires Valid()
      modifies this
      ensures Valid() && Row() == DismissRow(old(Row()), now)
    {
      var before := status;
      status := Dismissed;
      dismissedAt := Some(now);
      Save(status != before, now);
      LifeCycleKeepsValid(old(Row()), false, now);
    }
  }

  // ---------------------------------------------------------------------------
  // The notification built for a blood request

  /** The distance phrase of the message: `"<d>km away"`, or `"nearby"` when
      the distance is 0 (unknown). */
  function DistancePhrase(distance: nat): (p: string)
    ensures distance == 0 <==> p == "nearby"
  {
    if distance != 0 then NatToString(distance) + "km away" else "nearby"
  }

  /** A non-zero distance can be read back from its phrase by `parseInt`. */
  lemma DistancePhraseReadsBack(distance: nat)
    requires distance != 0
    ensures ParseInt(DistancePhrase(distance)) == Some(distance)
  {
    ParseIntOfNatToStringThen(distance, "km away");
  }

  /** `parseInt` reads a rendered number back even when text follows it. */
  lemma ParseIntOfNatToStringThen(n: nat, rest: string)
    requires rest != [] && !IsDecimalDigit(rest[0]) && rest[0] != 'x' && rest[0] != 'X'
    ensures ParseInt(NatToString(n) + rest) == Some(n)
  {
    var d := NatToString(n);
    var s := d + rest;
    assert s[0] == d[0];
    assert !IsJsSpace(s[0]);
    assert TrimStart(s) == s;
    assert |s| >= 2 && s[0] == '0' ==> s[1] == rest[0] by {
      if |d| > 1 { assert d[0] != '0'; }
    }
    DigitPrefixOfDigitsThen(d, rest);
    DigitsValueOfNatToString(n);
  }

  lemma {:induction false} DigitPrefixOfDigitsThen(d: string, rest: string)
    requires IsDigits(d, false)
    requires rest == [] || !IsDecimalDigit(rest[0])
    ensures DigitPrefix(d + rest, false) == d
  {
    if d != [] {
      assert (d + rest)[1..] == d[1..] + rest;
      DigitPrefixOfDigitsThen(d[1..], rest);
    }
  }

  /** The path of a request's page, which both buttons open. */
  function RequestUrl(requestId: Id): string
  {
    "/blood-requests/" + requestId
  }

  /** The message of a blood-request notification: it names how far away
      the request is and the blood type it needs. */
  function RequestMessage(phrase: string, bloodType: string): (m: string)
    ensures "Someone " <= m
    ensures HasInfix(m, phrase) && HasInfix(m, bloodType)
  {
    var m := "Someone " + phrase + " needs " + bloodType + " blood. Your donation could save a life!";
    assert m[8..8 + |phrase|] == phrase;
    InfixAt(m, phrase, 8);
    var k := |"Someone " + phrase + " needs "|;
    assert m[k..k + |bloodType|] == bloodType;
    InfixAt(m, bloodType, k);
    m
  }

  /** `createBloodRequestNotification(recipient, bloodRequest, distance)`. */
  function CreateBloodRequestNotification(recipient: Models.User, request: Models.BloodRequest, distance: nat): (c: Content)
    reads recipient, request
    ensures c.recipient == recipient.id && c.kind == BloodRequestKind
    ensures "URGENT: " <= c.title <==> request.urgencyLevel == "Critical"
    ensures HasInfix(c.title, request.bloodType)
    ensures c.priority == Critical <==> request.urgencyLevel == "Critical"
    ensures c.priority == Critical || c.priority == High
    ensures c.relatedRequest == Some(request.id) && c.relatedUser == Some(request.requester)
    ensures c.requestLocation == request.location && c.distance == distance
    ensures c.bloodTypeNeeded == request.bloodType && c.urgencyLevel == request.urgencyLevel
    ensures c.channels.inApp && c.channels.push
    ensures c.channels.email <==> recipient.notificationPreferences.Some? && recipient.notificationPreferences.value.email
    ensures c.channels.sms <==> recipient.notificationPreferences.Some? && recipient.notificationPreferences.value.sms
    ensures |c.actionButtons| == 2
    ensures c.actionButtons[0].action == "donate" && c.actionButtons[0].style == Primary
    ensures c.actionButtons[1].action == "view" && c.actionButtons[1].style == Secondary
    ensures forall b :: b in c.actionButtons ==> b.url == RequestUrl(request.id)
  {
    var critical := request.urgencyLevel == "Critical";
    var urgencyText := if critical then "URGENT: " else "";
    var prefs := recipient.notificationPreferences;
    var title := urgencyText + "Blood Needed: " + request.bloodType;
    assert HasInfix(title, request.bloodType) by {
      SuffixIsInfix(title, request.bloodType, |urgencyText + "Blood Needed: "|);
    }
    assert critical ==> title[..8] == "URGENT: ";
    assert !critical ==> title[0] == 'B';
    Content(
      recipient.id,
      BloodRequestKind,
      title,
      "Someone " + DistancePhrase(distance) + " needs " + request.bloodType
        + " blood. Your donation could save a life!",
      if critical then Critical else High,
      Some(request.id),
      Some(request.requester),
      request.location,
      distance,
      request.bloodType,
      request.urgencyLevel,
      Channels(true, true, prefs.Some? && prefs.value.email, prefs.Some? && prefs.value.sms),
      [ ActionButton("I can donate", "donate", RequestUrl(request.id), Primary),
        ActionButton("View details", "view", RequestUrl(request.id), Secondary) ])
  }

  /** The factory's message starts with `Someone ` and names the distance
      phrase and the blood type the request needs. */
  lemma RequestNotificationMessage(recipient: Models.User, request: Models.BloodRequest, distance: nat)
    ensures CreateBloodRequestNotification(recipient, request, distance).message
            == RequestMessage(DistancePhrase(distance), request.bloodType)
    ensures "Someone " <= CreateBloodRequestNotification(recipient, request, distance).message
    ensures HasInfix(CreateBloodRequestNotification(recipient, request, distance).message, DistancePhrase(distance))
    ensures HasInfix(CreateBloodRequestNotification(recipient, request, distance).message, request.bloodType)
  {
  }

  /** A string occurs in any string that ends with it. */
  lemma {:induction false} SuffixIsInfix(h: string, n: string, k: nat)
    requires k <= |h| && h[k..] == n
    ensures HasInfix(h, n)
    decreases k
  {
    if k == 0 {
      assert n <= h;
    } else {
      assert h[1..][k - 1..] == h[k..];
      SuffixIsInfix(h[1..], n, k - 1);
    }
  }

  /** A text holding `n` at position `k` has `n` as an infix. */
  lemma {:induction false} InfixAt(h: string, n: string, k: nat)
    requires k + |n| <= |h| && h[k..k + |n|] == n
    ensures HasInfix(h, n)
    decreases k
  {
    if k == 0 {
      assert n <= h;
    } else {
      assert h[1..][k - 1..k - 1 + |n|] == h[k..k + |n|];
      InfixAt(h[1..], n, k - 1);
    }
  }

  // ---------------------------------------------------------------------------
  // Store-wide queries

  /** The filter of `getUnreadCount`: addressed to `user`, unread and not yet
      past `expiresAt`. */
  predicate IsUnreadFor(r: NotificationRow, user: Id, now: int)
  {
    r.content.recipient == user && !r.isRead && r.expiresAt > now
  }

  /** `getUnreadCount(user)`: the number of notifications passing that filter. */
  function UnreadCount(rows: seq<NotificationRow>, user: Id, now: int): (n: nat)
    ensures n <= |rows|
    ensures n == 0 <==> forall i :: 0 <= i < |rows| ==> !IsUnreadFor(rows[i], user, now)
  {
    if rows == [] then 0
    else (if IsUnreadFor(rows[0], user, now) then 1 else 0) + UnreadCount(rows[1..], user, now)
  }

  /** The filter of `cleanupExpired`: expired and either dismissed or expired. */
  predicate IsDisposable(r: NotificationRow, now: int)
  {
    r.expiresAt < now && (r.status == Dismissed || r.status == Expired)
  }

  /** `cleanupExpired()`: the store without its disposable notifications, the
      rest in their order. */
  function CleanupExpired(rows: seq<NotificationRow>, now: int): (kept: seq<NotificationRow>)
    ensures IsSubsequence(kept, rows)
    ensures forall r :: r in kept <==> r in rows && !IsDisposable(r, now)
  {
    if rows == [] then []
    else if IsDisposable(rows[0], now) then CleanupExpired(rows[1..], now)
    else [rows[0]] + CleanupExpired(rows[1..], now)
  }

  /** Cleanup never removes a notification the unread count includes. */
  lemma {:induction false} CleanupKeepsUnreadCount(rows: seq<NotificationRow>, user: Id, now: int)
    ensures UnreadCount(CleanupExpired(rows, now), user, now) == UnreadCount(rows, user, now)
  {
    if rows != [] {
      CleanupKeepsUnreadCount(rows[1..], user, now);
      if !IsDisposable(rows[0], now) {
        assert ([rows[0]] + CleanupExpired(rows[1..], now))[1..] == CleanupExpired(rows[1..], now);
      }
    }
  }

  /** A blood-request notification stops counting as unread after a day,
      while any other kind still counts. */
  lemma BloodRequestNotificationLapsesAfterADay(c: Content, now: int)
    requires c.kind == BloodRequestKind
    ensures IsUnreadFor(Created(c, now), c.recipient, now + 23 * HourMs)
    ensures !IsUnreadFor(Created(c, now), c.recipient, now + 25 * HourMs)
    ensures IsUnreadFor(Created(c.(kind := SystemAlert), now), c.recipient, now + 25 * HourMs)
  {
  }
}
