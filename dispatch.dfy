/** Notification dispatch for a new blood request: the radius rule, the
    eligibility filter over the user store, the per-donor loop that builds one
    notification for each donor found, and the bulk mark-as-read update.

    Two computations of the original are parameters here: `geoWithin(center,
    p, radiusKm)` stands for the `$geoWithin`/`$centerSphere` query operator
    and `distanceKm(a, b)` for the great-circle distance already rounded to
    whole kilometres. */
module Dispatch {
  import opened Common
  import Compatibility
  import Models
  import opened NotificationModel

  /** The search radius in kilometres: 50 for a critical request, 25 otherwise. */
  function SearchRadiusKm(urgencyLevel: string): (km: nat)
    ensures urgencyLevel == "Critical" <==> km == 50
    ensures urgencyLevel != "Critical" <==> km == 25
  {
    if urgencyLevel == "Critical" then 50 else 25
  }

  /** The `$geoWithin` part of the query: when the request has coordinates,
      the donor has a location inside the search circle. */
  predicate InSearchCircle(u: Models.User, request: Models.BloodRequest, geoWithin: (Point, Point, nat) -> bool)
    reads u, request
  {
    request.location.Some? ==>
      u.location.Some? && geoWithin(request.location.value, u.location.value, SearchRadiusKm(request.urgencyLevel))
  }

  /** The user query of `notifyNearbyDonors`: a donor of a compatible type who
      is available and inside the search circle. Verification is not asked
      for. The `$in` values are upper case already, so the query's
      `uppercase` cast leaves them as they are. */
  predicate DispatchEligible(u: Models.User, request: Models.BloodRequest, geoWithin: (Point, Point, nat) -> bool)
    reads u, request
  {
    && u.isDonor
    && u.bloodType in Compatibility.DispatchCompatibleTypes(request.bloodType)
    && u.isAvailable
    && InSearchCircle(u, request, geoWithin)
  }

  /** The users the query returns, in store order. */
  function FindNearbyDonors(users: seq<Models.User>, request: Models.BloodRequest,
                            geoWithin: (Point, Point, nat) -> bool): (found: seq<Models.User>)
    reads users, request
    ensures IsSubsequence(found, users)
    ensures forall i :: 0 <= i < |found| ==> found[i] in users && DispatchEligible(found[i], request, geoWithin)
    ensures forall i :: 0 <= i < |users| && DispatchEligible(users[i], request, geoWithin) ==> users[i] in found
  {
    if users == [] then []
    else if DispatchEligible(users[0], request, geoWithin) then [users[0]] + FindNearbyDonors(users[1..], request, geoWithin)
    else FindNearbyDonors(users[1..], request, geoWithin)
  }

  /** Without coordinates on the request every available compatible donor is
      a candidate, whatever the geometry says. */
  lemma NoLocationNoGeoFilter(u: Models.User, request: Models.BloodRequest,
                              geo1: (Point, Point, nat) -> bool, geo2: (Point, Point, nat) -> bool)
    requires request.location.None?
    ensures DispatchEligible(u, request, geo1) == DispatchEligible(u, request, geo2)
    ensures DispatchEligible(u, request, geo1) <==>
              u.isDonor && u.isAvailable && u.bloodType in Compatibility.DispatchCompatibleTypes(request.bloodType)
  {
  }

  /** A request of a type outside the table reaches nobody. */
  lemma UnknownTypeNotifiesNobody(users: seq<Models.User>, request: Models.BloodRequest,
                                  geoWithin: (Point, Point, nat) -> bool)
    requires !Compatibility.IsBloodType(request.bloodType)
    ensures FindNearbyDonors(users, request, geoWithin) == []
  {
  }

  /** The distance put into a donor's notification, from the request's and
      the donor's coordinates: 0 unless both are present. */
  function DistanceFor(requestAt: Option<Point>, donorAt: Option<Point>, distanceKm: (Point, Point) -> nat): (d: nat)
    ensures requestAt.None? || donorAt.None? ==> d == 0
    ensures requestAt.Some? && donorAt.Some? ==> d == distanceKm(requestAt.value, donorAt.value)
  {
    match (requestAt, donorAt)
    case (Some(p), Some(q)) => distanceKm(p, q)
    case _ => 0
  }

  datatype DispatchResult =
    | Success(notificationsSent: nat, donorsFound: nat)
    | Failure(error: string)

  /** `n` is the notification built for `donor` from the donor and the
      request as they were when dispatch began, and saved at `now`. */
  twostate predicate BuiltFor(new n: Notification, donor: Models.User, request: Models.BloodRequest,
                              distanceKm: (Point, Point) -> nat, now: int)
    reads n
  {
    n.IsNew(old(CreateBloodRequestNotification(donor, request, DistanceFor(request.location, donor.location, distanceKm))), now)
  }

  /** `BuiltFor` read in the current state: once the call returns, donor and
      request are as they were, so the notification holds the content built
      from them now. */
  ghost predicate Notifies(n: Notification, donor: Models.User, request: Models.BloodRequest,
                           distanceKm: (Point, Point) -> nat, now: int)
    reads n, donor, request
  {
    n.IsNew(CreateBloodRequestNotification(donor, request, DistanceFor(request.location, donor.location, distanceKm)), now)
  }

  /** The loop of `notifyNearbyDonors`: one new notification per donor, in
      the donors' order, each carrying the donor's distance. */
  method BuildNotifications(request: Models.BloodRequest, nearbyDonors: seq<Models.User>,
                            distanceKm: (Point, Point) -> nat, now: int)
    returns (notifications: seq<Notification>)
    ensures |notifications| == |nearbyDonors|
    ensures forall k :: 0 <= k < |nearbyDonors| ==>
              fresh(notifications[k]) && BuiltFor(notifications[k], nearbyDonors[k], request, distanceKm, now)
  {
    notifications := [];
    for i := 0 to |nearbyDonors|
      invariant |notifications| == i
      invariant forall k :: 0 <= k < i ==>
                  fresh(notifications[k]) && BuiltFor(notifications[k], nearbyDonors[k], request, distanceKm, now)
    {
      var donor := nearbyDonors[i];
      var distance := 0;
      if request.location.Some? && donor.location.Some? {
        distance := distanceKm(request.location.value, donor.location.value);
      }
      var content := CreateBloodRequestNotification(donor, request, distance);
      assert content == old(CreateBloodRequestNotification(donor, request, DistanceFor(request.location, donor.location, distanceKm)));
      var n := new Notification(content, now);
      notifications := notifications + [n];
    }
  }

  /** `notifyNearbyDonors(bloodRequest)`. `findError` and `insertError` are
      what the user query and the bulk insert throw, if anything; a failure is
      reported in the result, never raised. `inserted` are the notifications
      that reach the store: one per donor found, in the same order. */
  method NotifyNearbyDonors(request: Models.BloodRequest, users: seq<Models.User>,
                            geoWithin: (Point, Point, nat) -> bool, distanceKm: (Point, Point) -> nat,
                            now: int, findError: Option<string>, insertError: Option<string>)
    returns (result: DispatchResult, inserted: seq<Notification>)
    ensures findError.Some? ==> result == Failure(findError.value) && inserted == []
    ensures findError.None? && FindNearbyDonors(users, request, geoWithin) != [] && insertError.Some? ==>
              result == Failure(insertError.value) && inserted == []
    ensures findError.None? && !(FindNearbyDonors(users, request, geoWithin) != [] && insertError.Some?) ==>
              var found := FindNearbyDonors(users, request, geoWithin);
              && result == Success(|found|, |found|) && |inserted| == |found|
              && forall i :: 0 <= i < |found| ==>
                   fresh(inserted[i]) && BuiltFor(inserted[i], found[i], request, distanceKm, now)
                   && Notifies(inserted[i], found[i], request, distanceKm, now)
    ensures result.Success? ==> result.notificationsSent == result.donorsFound == |inserted|
  {
    if findError.Some? {
      return Failure(findError.value), [];
    }
    var nearbyDonors := FindNearbyDonors(users, request, geoWithin);
    var notifications := BuildNotifications(request, nearbyDonors, distanceKm, now);
    assert FindNearbyDonors(users, request, geoWithin) == nearbyDonors;
    if |notifications| > 0 && insertError.Some? {
      return Failure(insertError.value), [];
    }
    return Success(|notifications|, |nearbyDonors|), notifications;
  }

  /** `markAllAsRead` for one user: the update filter is exactly the unread
      filter, and the matches become read at `now` with status `Read`. The bulk
      update bypasses the save hooks. */
  function MarkAllAsRead(rows: seq<NotificationRow>, user: Id, now: int): (updated: seq<NotificationRow>)
    ensures |updated| == |rows|
    ensures forall i :: 0 <= i < |rows| ==>
      if IsUnreadFor(rows[i], user, now) then
        updated[i] == rows[i].(isRead := true, readAt := Some(now), status := Read)
      else updated[i] == rows[i]
  {
    seq(|rows|, i requires 0 <= i < |rows| =>
      if IsUnreadFor(rows[i], user, now) then rows[i].(isRead := true, readAt := Some(now), status := Read)
      else rows[i])
  }

  /** Marking one user's notifications as read leaves every other user's
      unread count as it was. */
  lemma {:induction false} MarkAllLeavesOthers(rows: seq<NotificationRow>, user: Id, other: Id, now: int)
    requires other != user
    ensures UnreadCount(MarkAllAsRead(rows, user, now), other, now) == UnreadCount(rows, other, now)
  {
    if rows != [] {
      var updated := MarkAllAsRead(rows, user, now);
      MarkAllLeavesOthers(rows[1..], user, other, now);
      assert updated[1..] == MarkAllAsRead(rows[1..], user, now) by {
        assert forall i :: 0 <= i < |rows| - 1 ==> updated[1..][i] == updated[i + 1];
      }
      assert IsUnreadFor(updated[0], other, now) == IsUnreadFor(rows[0], other, now);
    }
  }

  /** After marking all as read the user has nothing unread, every other
      user's count is what it was, and consistent notifications stay consistent. */
  lemma MarkAllAsReadClearsUnread(rows: seq<NotificationRow>, user: Id, other: Id, now: int)
    requires other != user
    ensures UnreadCount(MarkAllAsRead(rows, user, now), user, now) == 0
    ensures UnreadCount(MarkAllAsRead(rows, user, now), other, now) == UnreadCount(rows, other, now)
    ensures (forall i :: 0 <= i < |rows| ==> RowValid(rows[i])) ==>
              forall i :: 0 <= i < |rows| ==> RowValid(MarkAllAsRead(rows, user, now)[i])
  {
    MarkAllLeavesOthers(rows, user, other, now);
  }
}
