/** The blood-request controller: creating a request, changing its status,
    the directory search for compatible donors, a donor's response (the
    upsert into the request's `matchedDonors` ledger and the two
    notifications it sends) and the requester's view of the responses. */
module BloodRequests {
  import opened Common
  import opened JsText
  import Compatibility
  import Models
  import opened NotificationModel
  import Dispatch

  /** The errors the handlers report, one per rejecting branch. */
  datatype RequestError =
    | MissingRequiredFields      // 400: a required field is falsy
    | AppointmentNotInFuture     // 400: appointment at or before now
    | ValidationError            // the schema refuses the document on save
    | RequestNotFound            // 404
    | DonorNotFound              // 404
    | NotAuthorized              // 403
    | MissingBloodGroup          // 400
    | InvalidResponseType        // 400

  // ---------------------------------------------------------------------------
  // createBloodRequest

  /** `appointmentDate` of the body: absent (or empty), a string `new Date`
      cannot read, or the time it reads. */
  datatype DateInput = NoDate | InvalidDate | Date(time: int)

  /** The request body. Empty strings stand for absent ones; the units and the
      coordinates are numbers when present. */
  datatype CreateInput = CreateInput(
    bloodGroup: string,
    bloodUnits: Option<int>,
    appointmentDate: DateInput,
    phoneNumber: string,
    district: string,
    hospitalName: string,
    description: string,
    urgencyLevel: string,
    isEmergency: bool,
    latitude: Option<int>,
    longitude: Option<int>)

  /** The first guard: every required field is truthy (a unit count of 0 is not). */
  predicate HasRequiredFields(input: CreateInput)
  {
    && input.bloodGroup != ""
    && input.bloodUnits.Some? && input.bloodUnits.value != 0
    && !input.appointmentDate.NoDate?
    && input.phoneNumber != ""
    && input.district != ""
    && input.hospitalName != ""
    && input.description != ""
  }

  const UrgencyLevels: seq<string> := ["Low", "Medium", "High", "Critical"]

  /** The coordinates put on the new request: `[longitude, latitude]` when
      both are truthy, the schema's default point otherwise. */
  function RequestLocation(latitude: Option<int>, longitude: Option<int>): (p: Point)
    ensures latitude.Some? && latitude.value != 0 && longitude.Some? && longitude.value != 0 ==>
              p == Point(longitude.value, latitude.value)
    ensures !(latitude.Some? && latitude.value != 0 && longitude.Some? && longitude.value != 0) ==>
              p == Models.DefaultPoint
  {
    if latitude.Some? && latitude.value != 0 && longitude.Some? && longitude.value != 0
    then Point(longitude.value, latitude.value)
    else Models.DefaultPoint
  }

  /** The document the handler builds, after the schema's `uppercase` and
      `trim` setters and its defaults. */
  function RequestFields(input: CreateInput, appointment: int): (f: Models.NewRequest)
    requires input.bloodUnits.Some?
    ensures f.bloodGroup == ToUpper(input.bloodGroup) && f.bloodUnits == input.bloodUnits.value
    ensures f.appointmentDate == appointment
    ensures f.phoneNumber == input.phoneNumber && f.description == input.description
    ensures f.district == Trim(input.district) && f.hospitalName == Trim(input.hospitalName)
    ensures f.urgencyLevel == (if input.urgencyLevel == "" then "Medium" else input.urgencyLevel)
    ensures f.isEmergency == input.isEmergency
    ensures f.location == Some(RequestLocation(input.latitude, input.longitude))
  {
    Models.NewRequest(
      ToUpper(input.bloodGroup),
      input.bloodUnits.value,
      appointment,
      input.phoneNumber,
      Trim(input.district),
      Trim(input.hospitalName),
      input.description,
      if input.urgencyLevel == "" then "Medium" else input.urgencyLevel,
      input.isEmergency,
      Some(RequestLocation(input.latitude, input.longitude)))
  }

  /** The request schema's validators on a built document. */
  predicate SchemaAccepts(f: Models.NewRequest)
  {
    && Compatibility.IsBloodType(f.bloodGroup)
    && 1 <= f.bloodUnits <= 10
    && Models.PhoneMatches(f.phoneNumber)
    && f.district != "" && f.hospitalName != ""
    && |f.description| <= 1000
    && f.urgencyLevel in UrgencyLevels
  }

  /** The checks of `createBloodRequest`, in their order: the required
      fields, an appointment strictly after `now`, then the schema. */
  function ValidateNewRequest(input: CreateInput, now: int): (r: Result<Models.NewRequest, RequestError>)
    ensures r == Err(MissingRequiredFields) <==> !HasRequiredFields(input)
    ensures r == Err(AppointmentNotInFuture) <==>
              HasRequiredFields(input) && input.appointmentDate.Date? && input.appointmentDate.time <= now
    ensures HasRequiredFields(input) && input.appointmentDate.InvalidDate? ==> r == Err(ValidationError)
    ensures HasRequiredFields(input) && input.appointmentDate.Date? && input.appointmentDate.time > now ==>
              (r.Ok? <==> SchemaAccepts(RequestFields(input, input.appointmentDate.time)))
    ensures r.Err? ==> r.error in {MissingRequiredFields, AppointmentNotInFuture, ValidationError}
    ensures r.Ok? ==>
      && HasRequiredFields(input)
      && input.appointmentDate == Date(r.value.appointmentDate) && r.value.appointmentDate > now
      && SchemaAccepts(r.value)
      && r.value == RequestFields(input, r.value.appointmentDate)
  {
    if !HasRequiredFields(input) then Err(MissingRequiredFields)
    else
      match input.appointmentDate
      case Date(t) =>
        if t <= now then Err(AppointmentNotInFuture)
        else
          var fields := RequestFields(input, t);
          if SchemaAccepts(fields) then Ok(fields) else Err(ValidationError)
      case _ => Err(ValidationError) // an unreadable date passes the comparison and fails the cast
  }

  /** A request missing its urgency is created at `Medium`, and one without
      coordinates sits at the schema's default point, so dispatch for it
      always applies the search circle. */
  lemma CreatedRequestDefaults(input: CreateInput, now: int)
    requires ValidateNewRequest(input, now).Ok?
    ensures input.urgencyLevel == "" ==> ValidateNewRequest(input, now).value.urgencyLevel == "Medium"
    ensures input.latitude.None? ==> ValidateNewRequest(input, now).value.location == Some(Models.DefaultPoint)
  {
  }

  /** `createBloodRequest` followed by the dispatch it schedules, run as one
      sequential call (see `Dispatch.NotifyNearbyDonors` for its parameters). */
  method CreateBloodRequest(id: Id, requester: Id, input: CreateInput, now: int,
                            users: seq<Models.User>, geoWithin: (Point, Point, nat) -> bool,
                            distanceKm: (Point, Point) -> nat, findError: Option<string>, insertError: Option<string>)
    returns (r: Result<Models.BloodRequest, RequestError>, dispatched: Dispatch.DispatchResult, inserted: seq<Notification>)
    ensures ValidateNewRequest(input, now).Err? ==>
              r == Err(ValidateNewRequest(input, now).error) && inserted == []
    ensures ValidateNewRequest(input, now).Ok? ==>
      && r.Ok? && fresh(r.value) && r.value.Valid()
      && r.value.id == id && r.value.requester == requester
      && r.value.Carries(ValidateNewRequest(input, now).value)
      && r.value.status == Models.Pending && r.value.matchedDonors == []
      && r.value.fulfilledBy == None && r.value.fulfilledAt == None && r.value.notes == None
    ensures r.Ok? && findError.Some? ==> dispatched == Dispatch.Failure(findError.value) && inserted == []
    ensures r.Ok? && findError.None? && Dispatch.FindNearbyDonors(users, r.value, geoWithin) != [] && insertError.Some? ==>
              dispatched == Dispatch.Failure(insertError.value) && inserted == []
    ensures r.Ok? && findError.None? && !(Dispatch.FindNearbyDonors(users, r.value, geoWithin) != [] && insertError.Some?) ==>
              var found := Dispatch.FindNearbyDonors(users, r.value, geoWithin);
              && dispatched == Dispatch.Success(|found|, |found|) && |inserted| == |found|
              && forall i :: 0 <= i < |found| ==>
                   fresh(inserted[i]) && Dispatch.Notifies(inserted[i], found[i], r.value, distanceKm, now)
  {
    var v := ValidateNewRequest(input, now);
    if v.Err? {
      return Err(v.error), Dispatch.Failure(""), [];
    }
    var request := new Models.BloodRequest(id, requester, v.value);
    r := Ok(request);
    assert r.value == request;
    dispatched, inserted := Dispatch.NotifyNearbyDonors(request, users, geoWithin, distanceKm, now, findError, insertError);
  }

  // ---------------------------------------------------------------------------
  // updateBloodRequestStatus

  /** `updateBloodRequestStatus`: only the requester or an admin may change
      the status; `notes` are replaced when given; a change to `Fulfilled`
      records who fulfilled it and when. A status outside the schema's enum
      makes the save fail, so nothing is stored. */
  method UpdateBloodRequestStatus(request: Models.BloodRequest?, userId: Id, isAdmin: bool,
                                  status: string, notes: string, now: int)
    returns (r: Result<Models.RequestStatus, RequestError>)
    modifies request
    ensures request == null ==> r == Err(RequestNotFound)
    ensures request != null && request.requester != userId && !isAdmin ==> r == Err(NotAuthorized)
    ensures request != null && (request.requester == userId || isAdmin) ==>
              r == (match Models.ParseRequestStatus(status) case Some(s) => Ok(s) case None => Err(ValidationError))
    ensures r.Err? && request != null ==> unchanged(request)
    ensures r.Ok? ==>
      && request != null
      && request.status == r.value
      && request.notes == (if notes != "" then Some(notes) else old(request.notes))
      && request.fulfilledBy == (if r.value == Models.Fulfilled then Some(userId) else old(request.fulfilledBy))
      && request.fulfilledAt == (if r.value == Models.Fulfilled then Some(now) else old(request.fulfilledAt))
      && request.matchedDonors == old(request.matchedDonors)
  {
    if request == null {
      return Err(RequestNotFound);
    }
    if request.requester != userId && !isAdmin {
      return Err(NotAuthorized);
    }
    var parsed := Models.ParseRequestStatus(status);
    if parsed.None? {
      return Err(ValidationError);
    }
    request.status := parsed.value;
    if notes != "" {
      request.notes := Some(notes);
    }
    if status == "Fulfilled" {
      request.fulfilledBy := Some(userId);
      request.fulfilledAt := Some(now);
    }
    r := Ok(parsed.value);
  }

  // ---------------------------------------------------------------------------
  // searchCompatibleDonors

  /** The query of `searchCompatibleDonors`: a verified, available donor of a
      type the directory table lists (each value cast through the `uppercase`
      setter), in a district matching the given one case-insensitively when
      one is given. */
  predicate DirectoryEligible(u: Models.User, bloodGroup: string, district: string)
    reads u
  {
    && u.bloodType in Models.UpperEach(Compatibility.DirectoryCompatibleTypes(bloodGroup))
    && u.isDonor
    && u.isVerified
    && u.isAvailable
    && (district != "" ==> MatchesIgnoreCase(u.district, district))
  }

  function DirectoryMatches(users: seq<Models.User>, bloodGroup: string, district: string): (found: seq<Models.User>)
    reads users
    ensures IsSubsequence(found, users)
    ensures forall i :: 0 <= i < |found| ==> found[i] in users && DirectoryEligible(found[i], bloodGroup, district)
    ensures forall i :: 0 <= i < |users| && DirectoryEligible(users[i], bloodGroup, district) ==> users[i] in found
  {
    if users == [] then []
    else if DirectoryEligible(users[0], bloodGroup, district) then [users[0]] + DirectoryMatches(users[1..], bloodGroup, district)
    else DirectoryMatches(users[1..], bloodGroup, district)
  }

  /** `searchCompatibleDonors(bloodGroup, district)`: a blood group is required. */
  function SearchCompatibleDonors(users: seq<Models.User>, bloodGroup: string, district: string): (r: Result<seq<Models.User>, RequestError>)
    reads users
    ensures bloodGroup == "" <==> r == Err(MissingBloodGroup)
    ensures bloodGroup != "" ==> r == Ok(DirectoryMatches(users, bloodGroup, district))
  {
    if bloodGroup == "" then Err(MissingBloodGroup) else Ok(DirectoryMatches(users, bloodGroup, district))
  }

  /** The directory and dispatch, for a known type and no district: a donor
      the directory lists is notified exactly when inside the search circle,
      and an unverified donor inside it is notified but never listed. */
  lemma DirectoryAndDispatch(u: Models.User, request: Models.BloodRequest, geoWithin: (Point, Point, nat) -> bool)
    requires Compatibility.IsBloodType(request.bloodType)
    ensures DirectoryEligible(u, request.bloodType, "") ==>
              (Dispatch.DispatchEligible(u, request, geoWithin) <==> Dispatch.InSearchCircle(u, request, geoWithin))
    ensures !u.isVerified && u.isDonor && u.isAvailable && u.bloodType == request.bloodType
            && Dispatch.InSearchCircle(u, request, geoWithin) ==>
              Dispatch.DispatchEligible(u, request, geoWithin) && !DirectoryEligible(u, request.bloodType, "")
  {
    var types := Compatibility.DirectoryCompatibleTypes(request.bloodType);
    assert forall i :: 0 <= i < |types| ==> Compatibility.IsBloodType(types[i]) by {
      assert types == Compatibility.DispatchCompatibleTypes(request.bloodType);
      assert forall i :: 0 <= i < |types| ==> types[i] in types;
    }
    Models.UpperEachOfKnownTypes(types);
  }

  /** The map is keyed by upper-case names, but the query casts its values:
      a lower-case group such as `a+` misses the table, falls back to itself,
      and so lists exactly the `A+` donors and none of the other types an
      `A+` recipient can receive. */
  lemma LowerCaseGroupListsOnlyItsOwnType(u: Models.User, district: string)
    ensures DirectoryEligible(u, "a+", district) <==>
              && u.bloodType == "A+" && u.isDonor && u.isVerified && u.isAvailable
              && (district != "" ==> MatchesIgnoreCase(u.district, district))
  {
    assert !Compatibility.IsBloodType("a+");
    assert UpperChar('a') == 'A' && UpperChar('+') == '+';
    assert ToUpper("a+") == "A+";
    assert Models.UpperEach(["a+"]) == ["A+"];
  }

  // ---------------------------------------------------------------------------
  // respondToBloodRequest: the reaction and the ledger

  /** A donor's reaction to a request. */
  datatype Reaction = Interested | Confirm | Decline

  function ReactionName(r: Reaction): string
  {
    match r
    case Interested => "interested"
    case Confirm => "confirmed"
    case Decline => "declined"
  }

  /** The `responseType` check: exactly the three lower-case names. */
  function ParseReaction(s: string): (r: Option<Reaction>)
    ensures r.Some? <==> s in {"interested", "confirmed", "declined"}
    ensures r.Some? ==> ReactionName(r.value) == s
  {
    if s == "interested" then Some(Interested)
    else if s == "confirmed" then Some(Confirm)
    else if s == "declined" then Some(Decline)
    else None
  }

  lemma ParseReactionName(r: Reaction)
    ensures ParseReaction(ReactionName(r)) == Some(r)
  {
  }

  /** The ledger status a reaction records. */
  function LedgerStatusFor(r: Reaction): Models.LedgerStatus
  {
    match r
    case Interested => Models.Contacted
    case Confirm => Models.Confirmed
    case Decline => Models.Declined
  }

  /** The requester's notification priority for a reaction. */
  function RequesterPriority(r: Reaction): Priority
  {
    match r
    case Interested => High
    case Confirm => Critical
    case Decline => Medium
  }

  /** Each ledger status is recorded by exactly one reaction, and only a
      confirmation is critical for the requester. */
  lemma ReactionMappings(a: Reaction, b: Reaction)
    ensures LedgerStatusFor(a) == LedgerStatusFor(b) ==> a == b
    ensures RequesterPriority(a) == Critical <==> LedgerStatusFor(a) == Models.Confirmed
    ensures RequesterPriority(a) == Medium <==> LedgerStatusFor(a) == Models.Declined
  {
  }

  /** The donor has an entry in the ledger. */
  predicate HasEntry(ledger: seq<Models.MatchedDonor>, donor: Id)
  {
    exists i :: 0 <= i < |ledger| && ledger[i].donor == donor
  }

  /** `matchedDonors.find(match => match.donor === donorId)`, as an index. */
  function FindEntry(ledger: seq<Models.MatchedDonor>, donor: Id): (r: Option<nat>)
    ensures r.Some? ==> r.value < |ledger| && ledger[r.value].donor == donor
    ensures r.Some? ==> forall j :: 0 <= j < r.value ==> ledger[j].donor != donor
    ensures r.None? <==> !HasEntry(ledger, donor)
  {
    if ledger == [] then None
    else if ledger[0].donor == donor then Some(0)
    else
      match FindEntry(ledger[1..], donor)
      case None =>
        assert forall i :: 0 < i < |ledger| ==> ledger[i] == ledger[1..][i - 1];
        None
      case Some(i) => Some(i + 1)
  }

  /** The ledger update of `respondToBloodRequest`: the donor's entry is
      overwritten in place when there is one, otherwise one entry is
      appended. */
  function Upsert(ledger: seq<Models.MatchedDonor>, donor: Id, status: Models.LedgerStatus, now: int): (r: seq<Models.MatchedDonor>)
    ensures |r| == if HasEntry(ledger, donor) then |ledger| else |ledger| + 1
    ensures forall i :: 0 <= i < |ledger| && ledger[i].donor != donor ==> r[i] == ledger[i]
    ensures HasEntry(r, donor)
    ensures Models.NoDuplicateDonors(ledger) ==> Models.NoDuplicateDonors(r)
    ensures Models.NoDuplicateDonors(ledger) ==>
              forall i :: 0 <= i < |r| && r[i].donor == donor ==> r[i] == Models.MatchedDonor(donor, status, now)
  {
    var entry := Models.MatchedDonor(donor, status, now);
    match FindEntry(ledger, donor)
    case Some(i) =>
      var r := ledger[i := entry];
      assert r[i].donor == donor;
      r
    case None =>
      var r := ledger + [entry];
      assert r[|ledger|].donor == donor;
      r
  }

  /** A second response from the same donor replaces the first: only the
      last reaction and its time are kept. */
  lemma UpsertLastWins(ledger: seq<Models.MatchedDonor>, donor: Id,
                       s1: Models.LedgerStatus, t1: int, s2: Models.LedgerStatus, t2: int)
    ensures Upsert(Upsert(ledger, donor, s1, t1), donor, s2, t2) == Upsert(ledger, donor, s2, t2)
  {
    var once := Upsert(ledger, donor, s1, t1);
    match FindEntry(ledger, donor)
    case Some(i) =>
      assert forall j :: 0 <= j < i ==> once[j] == ledger[j];
      assert FindEntry(once, donor) == Some(i) by { FirstEntryAt(once, donor, i); }
    case None =>
      assert forall j :: 0 <= j < |ledger| ==> once[j] == ledger[j];
      assert FindEntry(once, donor) == Some(|ledger|) by { FirstEntryAt(once, donor, |ledger|); }
  }

  /** An entry for the donor at `i` with none before it is the one `find` returns. */
  lemma {:induction false} FirstEntryAt(ledger: seq<Models.MatchedDonor>, donor: Id, i: nat)
    requires i < |ledger| && ledger[i].donor == donor
    requires forall j :: 0 <= j < i ==> ledger[j].donor != donor
    ensures FindEntry(ledger, donor) == Some(i)
  {
    if i > 0 {
      FirstEntryAt(ledger[1..], donor, i - 1);
    }
  }

  /** `bloodRequest.save()` after the upsert: a request whose ledger has no
      duplicate donor keeps that property. */
  method RecordResponse(request: Models.BloodRequest, donor: Id, status: Models.LedgerStatus, now: int)
    requires request.Valid()
    modifies request
    ensures request.Valid()
    ensures request.matchedDonors == Upsert(old(request.matchedDonors), donor, status, now)
    ensures request.status == old(request.status) && request.notes == old(request.notes)
    ensures request.fulfilledBy == old(request.fulfilledBy) && request.fulfilledAt == old(request.fulfilledAt)
  {
    var existing := FindEntry(request.matchedDonors, donor);
    if existing.Some? {
      request.matchedDonors := request.matchedDonors[existing.value := Models.MatchedDonor(donor, status, now)];
    } else {
      request.matchedDonors := request.matchedDonors + [Models.MatchedDonor(donor, status, now)];
    }
  }

  // ---------------------------------------------------------------------------
  // respondToBloodRequest: the two notifications

  /** The title prefixes of the requester's notification, character for
      character as the source spells them (UTF-8 emoji read back as
      Windows-1252). */
  const InterestedTitle := "\U{F0}\U{178}\U{A9}\U{B8} Donor Interested in Your Request"
  const ConfirmedTitle := "\U{E2}\U{153}\U{2026} Donor Confirmed for Your Request"
  const DeclinedTitle := "\U{E2}\U{152} Donor Declined Your Request"

  /** The optional tail quoting the donor's message. */
  function MessageTail(message: string): (t: string)
    ensures message == "" <==> t == ""
  {
    if message != "" then " Message: \"" + message + "\"" else ""
  }

  /** The notification the requester receives about a donor's reaction. */
  function RequesterNotice(request: Models.BloodRequest, donorName: string, donorId: Id, r: Reaction, message: string): (c: Content)
    ensures c.recipient == request.requester && c.kind == BloodRequestKind
    ensures c.priority == RequesterPriority(r)
    ensures c.relatedRequest == Some(request.id) && c.relatedUser == Some(donorId)
    ensures c.bloodTypeNeeded == request.bloodGroup && c.urgencyLevel == request.urgencyLevel
    ensures c.requestLocation == Some(Models.DefaultPoint) && c.distance == 0
    ensures c.channels == Channels(true, true, true, false)
    ensures |c.actionButtons| == (if r == Confirm then 2 else 1)
    ensures r == Confirm ==> c.actionButtons[0].action == "contact" && c.actionButtons[0].url == "/donors/" + donorId + "/contact"
    ensures c.actionButtons[|c.actionButtons| - 1].action == "view"
    ensures c.actionButtons[|c.actionButtons| - 1].url == RequestUrl(request.id)
    ensures message != "" ==> |MessageTail(message)| <= |c.message| && c.message[|c.message| - |MessageTail(message)|..] == MessageTail(message)
  {
    var pair := match r
      case Interested =>
        (InterestedTitle, donorName + " is interested in donating " + request.bloodGroup
                          + " blood for your request at " + request.hospitalName + ".")
      case Confirm =>
        (ConfirmedTitle, "Great news! " + donorName + " has confirmed to donate " + request.bloodGroup
                         + " blood for your request at " + request.hospitalName + ".")
      case Decline =>
        (DeclinedTitle, donorName + " is unable to donate for your " + request.bloodGroup
                        + " blood request at this time.");
    var (title, text) := pair;
    var view := ActionButton("View Request", "view", RequestUrl(request.id), if r == Confirm then Secondary else Primary);
    Content(
      request.requester,
      BloodRequestKind,
      title,
      text + MessageTail(message),
      RequesterPriority(r),
      Some(request.id),
      Some(donorId),
      Some(Models.DefaultPoint),
      0,
      request.bloodGroup,
      request.urgencyLevel,
      Channels(true, true, true, false),
      if r == Confirm then [ActionButton("Contact Donor", "contact", "/donors/" + donorId + "/contact", Primary), view]
      else [view])
  }

  /** The acknowledgment the donor receives. The urgency is left to the
      schema default `Medium`. */
  function DonorAcknowledgment(request: Models.BloodRequest, donorId: Id, r: Reaction): (c: Content)
    ensures c.recipient == donorId && c.kind == BloodRequestKind && c.priority == Medium
    ensures c.relatedRequest == Some(request.id) && c.relatedUser == Some(request.requester)
    ensures c.title == "Response Recorded: " + Capitalize(ReactionName(r))
    ensures c.channels == DefaultChannels && c.urgencyLevel == "Medium"
    ensures c.requestLocation == Some(Models.DefaultPoint) && c.distance == 0
    ensures |c.actionButtons| == 1 && c.actionButtons[0] == ActionButton("View Request", "view", RequestUrl(request.id), Primary)
  {
    Content(
      donorId,
      BloodRequestKind,
      "Response Recorded: " + Capitalize(ReactionName(r)),
      "Your response to the " + request.bloodGroup + " blood request at " + request.hospitalName + " has been recorded.",
      Medium,
      Some(request.id),
      Some(request.requester),
      Some(Models.DefaultPoint),
      0,
      request.bloodGroup,
      "Medium",
      DefaultChannels,
      [ActionButton("View Request", "view", RequestUrl(request.id), Primary)])
  }

  /** The acknowledgment titles read "Interested", "Confirmed" and "Declined". */
  lemma AcknowledgmentTitles(request: Models.BloodRequest, donorId: Id)
    ensures DonorAcknowledgment(request, donorId, Interested).title == "Response Recorded: Interested"
    ensures DonorAcknowledgment(request, donorId, Confirm).title == "Response Recorded: Confirmed"
    ensures DonorAcknowledgment(request, donorId, Decline).title == "Response Recorded: Declined"
  {
    CapitalizedReactionNames();
  }

  lemma CapitalizedReactionNames()
    ensures Capitalize(ReactionName(Interested)) == "Interested"
    ensures Capitalize(ReactionName(Confirm)) == "Confirmed"
    ensures Capitalize(ReactionName(Decline)) == "Declined"
  {
    assert UpperChar('i') == 'I' && UpperChar('c') == 'C' && UpperChar('d') == 'D';
    assert Capitalize("interested") == ['I'] + "interested"[1..];
    assert Capitalize("confirmed") == ['C'] + "confirmed"[1..];
    assert Capitalize("declined") == ['D'] + "declined"[1..];
  }

  /** A donor's message of 490 characters or more takes the requester's
      notice past the 500 characters the schema allows: the quoted tail alone
      spans `Message: "` and the closing quote around it. */
  lemma LongDonorMessageIsRefused(request: Models.BloodRequest, donorName: string, donorId: Id, r: Reaction, message: string)
    requires |message| >= 490
    ensures !ContentSaves(RequesterNotice(request, donorName, donorId, r, message))
  {
    QuotedTailIsKept(RequesterNotice(request, donorName, donorId, r, message).message, message);
  }

  /** A text ending in the quoted tail of `message` keeps, once trimmed, the
      tail from its `M` on. */
  lemma QuotedTailIsKept(m: string, message: string)
    requires message != "" && |MessageTail(message)| <= |m|
    requires m[|m| - |MessageTail(message)|..] == MessageTail(message)
    ensures |Trim(m)| >= |message| + 11
  {
    var tail := MessageTail(message);
    var k := |m| - |tail|;
    assert |tail| == |message| + 12;
    assert m[k + 1] == tail[1] == 'M';
    assert m[|m| - 1] == tail[|tail| - 1] == '"';
    TrimKeepsSpan(m, k + 1, |m| - 1);
  }

  /** The acknowledgment saves whenever the request's group and hospital
      leave room in the 500 characters of its message. */
  lemma ShortAcknowledgmentSaves(request: Models.BloodRequest, donorId: Id, r: Reaction)
    requires |request.bloodGroup| + |request.hospitalName| <= 442
    ensures ContentSaves(DonorAcknowledgment(request, donorId, r))
  {
    var c := DonorAcknowledgment(request, donorId, r);
    CapitalizedReactionNames();
    assert c.title[0] == 'R' && !IsBlank(c.title);
    assert c.message[0] == 'Y' && !IsBlank(c.message);
  }

  /** `respondToBloodRequest`. `request` and `donor` are the results of the
      two lookups (`null` when not found). The response type is checked before
      anything is looked up or changed. Once both are found the ledger is
      saved with the reaction; then the requester's notice and the donor's
      acknowledgment are saved in turn, and the first one the schema refuses
      ends the call with a validation error, the ledger already changed. */
  method RespondToBloodRequest(request: Models.BloodRequest?, donor: Models.User?, donorId: Id,
                               responseType: string, message: string, now: int)
    returns (r: Result<Reaction, RequestError>, notices: seq<Notification>)
    requires request != null ==> request.Valid()
    requires donor != null ==> donor.id == donorId
    modifies request
    ensures ParseReaction(responseType).None? ==> r == Err(InvalidResponseType)
    ensures ParseReaction(responseType).Some? && request == null ==> r == Err(RequestNotFound)
    ensures ParseReaction(responseType).Some? && request != null && donor == null ==> r == Err(DonorNotFound)
    ensures (ParseReaction(responseType).None? || request == null || donor == null) ==>
              notices == [] && (request != null ==> unchanged(request))
    ensures (ParseReaction(responseType).Some? && request != null && donor != null) ==>
      && request.Valid()
      && request.matchedDonors == Upsert(old(request.matchedDonors), donorId, LedgerStatusFor(ParseReaction(responseType).value), now)
      && request.status == old(request.status) && request.notes == old(request.notes)
      && request.fulfilledBy == old(request.fulfilledBy) && request.fulfilledAt == old(request.fulfilledAt)
    ensures (ParseReaction(responseType).Some? && request != null && donor != null
             && !ContentSaves(RequesterNotice(request, donor.fullName, donorId, ParseReaction(responseType).value, message))) ==>
              r == Err(ValidationError) && notices == []
    ensures (ParseReaction(responseType).Some? && request != null && donor != null
             && ContentSaves(RequesterNotice(request, donor.fullName, donorId, ParseReaction(responseType).value, message))
             && !ContentSaves(DonorAcknowledgment(request, donorId, ParseReaction(responseType).value))) ==>
              && r == Err(ValidationError) && |notices| == 1 && fresh(notices[0])
              && notices[0].IsNew(RequesterNotice(request, donor.fullName, donorId, ParseReaction(responseType).value, message), now)
    ensures r.Ok? ==>
      && ParseReaction(responseType) == Some(r.value) && request != null && donor != null
      && ContentSaves(RequesterNotice(request, donor.fullName, donorId, r.value, message))
      && ContentSaves(DonorAcknowledgment(request, donorId, r.value))
      && |notices| == 2 && fresh(notices[0]) && fresh(notices[1])
      && notices[0].IsNew(RequesterNotice(request, donor.fullName, donorId, r.value, message), now)
      && notices[1].IsNew(DonorAcknowledgment(request, donorId, r.value), now)
  {
    var reaction := ParseReaction(responseType);
    if reaction.None? {
      return Err(InvalidResponseType), [];
    }
    if request == null {
      return Err(RequestNotFound), [];
    }
    if donor == null {
      return Err(DonorNotFound), [];
    }
    RecordResponse(request, donorId, LedgerStatusFor(reaction.value), now);
    var notice := RequesterNotice(request, donor.fullName, donorId, reaction.value, message);
    if !ContentSaves(notice) {
      return Err(ValidationError), [];
    }
    var toRequester := new Notification(notice, now);
    var acknowledgment := DonorAcknowledgment(request, donorId, reaction.value);
    if !ContentSaves(acknowledgment) {
      return Err(ValidationError), [toRequester];
    }
    var toDonor := new Notification(acknowledgment, now);
    return Ok(reaction.value), [toRequester, toDonor];
  }

  // ---------------------------------------------------------------------------
  // getBloodRequestResponses

  datatype Summary = Summary(total: nat, confirmed: nat, interested: nat, declined: nat)

  /** The number of ledger entries with the given status. */
  function CountStatus(ledger: seq<Models.MatchedDonor>, s: Models.LedgerStatus): (n: nat)
    ensures n <= |ledger|
  {
    if ledger == [] then 0
    else (if ledger[0].status == s then 1 else 0) + CountStatus(ledger[1..], s)
  }

  /** Every entry has exactly one of the three statuses. */
  lemma {:induction false} CountsPartition(ledger: seq<Models.MatchedDonor>)
    ensures CountStatus(ledger, Models.Confirmed) + CountStatus(ledger, Models.Contacted)
            + CountStatus(ledger, Models.Declined) == |ledger|
  {
    if ledger != [] {
      CountsPartition(ledger[1..]);
    }
  }

  /** The `summary` of `getBloodRequestResponses`; `interested` counts the
      `Contacted` entries. */
  function ResponseSummary(ledger: seq<Models.MatchedDonor>): (s: Summary)
    ensures s.total == |ledger|
    ensures s.confirmed + s.interested + s.declined == s.total
    ensures s.confirmed == CountStatus(ledger, Models.Confirmed)
    ensures s.interested == CountStatus(ledger, Models.Contacted)
    ensures s.declined == CountStatus(ledger, Models.Declined)
  {
    CountsPartition(ledger);
    Summary(|ledger|, CountStatus(ledger, Models.Confirmed), CountStatus(ledger, Models.Contacted),
            CountStatus(ledger, Models.Declined))
  }

  lemma {:induction false} CountAppend(ledger: seq<Models.MatchedDonor>, e: Models.MatchedDonor, s: Models.LedgerStatus)
    ensures CountStatus(ledger + [e], s) == CountStatus(ledger, s) + (if e.status == s then 1 else 0)
  {
    if ledger != [] {
      assert (ledger + [e])[1..] == ledger[1..] + [e];
      CountAppend(ledger[1..], e, s);
    }
  }

  lemma {:induction false} CountUpdate(ledger: seq<Models.MatchedDonor>, i: nat, e: Models.MatchedDonor, s: Models.LedgerStatus)
    requires i < |ledger|
    ensures CountStatus(ledger[i := e], s) + (if ledger[i].status == s then 1 else 0)
            == CountStatus(ledger, s) + (if e.status == s then 1 else 0)
  {
    if i > 0 {
      assert ledger[i := e][1..] == ledger[1..][i - 1 := e];
      CountUpdate(ledger[1..], i - 1, e, s);
    }
  }

  /** A first response adds one to the total and to its own status; a
      repeated response moves one entry from its old status to the new one,
      leaving the total alone. */
  lemma UpsertMovesSummary(ledger: seq<Models.MatchedDonor>, donor: Id, status: Models.LedgerStatus, now: int, s: Models.LedgerStatus)
    ensures !HasEntry(ledger, donor) ==>
              CountStatus(Upsert(ledger, donor, status, now), s) == CountStatus(ledger, s) + (if status == s then 1 else 0)
    ensures HasEntry(ledger, donor) ==>
              |Upsert(ledger, donor, status, now)| == |ledger|
              && CountStatus(Upsert(ledger, donor, status, now), s)
                 + (if ledger[FindEntry(ledger, donor).value].status == s then 1 else 0)
                 == CountStatus(ledger, s) + (if status == s then 1 else 0)
  {
    var entry := Models.MatchedDonor(donor, status, now);
    match FindEntry(ledger, donor)
    case Some(i) => CountUpdate(ledger, i, entry, s);
    case None => CountAppend(ledger, entry, s);
  }

  /** `getBloodRequestResponses`: only the requester sees the responses (an
      admin is not let through). */
  function GetBloodRequestResponses(request: Models.BloodRequest?, userId: Id): (r: Result<(seq<Models.MatchedDonor>, Summary), RequestError>)
    reads request
    ensures request == null <==> r == Err(RequestNotFound)
    ensures request != null && request.requester != userId <==> r == Err(NotAuthorized)
    ensures r.Ok? ==> request != null && r.value.0 == request.matchedDonors
    ensures r.Ok? ==> r.value.1 == ResponseSummary(request.matchedDonors) && r.value.1.total == |request.matchedDonors|
    ensures request != null && request.requester == userId ==> r.Ok?
  {
    if request == null then Err(RequestNotFound)
    else if request.requester != userId then Err(NotAuthorized)
    else Ok((request.matchedDonors, ResponseSummary(request.matchedDonors)))
  }
}
