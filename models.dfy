/** The stored documents the controllers load, change and save: users,
    blood requests with their matched-donor ledger, and blood banks with their
    inventory. Only the fields the modelled controllers read or write are kept;
    the enumerations of the schemas become datatypes. */
module Models {
  import opened Common
  import Compatibility
  import JsText

  // ---------------------------------------------------------------------------
  // Users

  /** `notificationPreferences`, read by notification dispatch. */
  datatype Preferences = Preferences(email: bool, sms: bool)

  /** A user document. Absent string fields are held as `""`, which is how
      the source's truthiness tests treat them. */
  class User {
    const id: Id
    var fullName: string
    var email: string
    var phone: string
    var address: string
    var district: string
    var bloodType: string
    var dateOfBirth: Option<int>
    var isDonor: bool
    var isVerified: bool
    var description: string
    var socialMedia: map<string, string>
    /** `availability.isAvailable`, `availability.availableDate`, `availability.notes` */
    var isAvailable: bool
    var availableDate: Option<int>
    var availabilityNotes: Option<string>
    /** `location.coordinates`, when the document has them */
    var location: Option<Point>
    var notificationPreferences: Option<Preferences>

    /** A freshly registered user with the schema's defaults: not a donor,
        not verified, available, at the default coordinates, with every
        social-media link empty. The caller passes the name and the email
        as their setters leave them. */
    constructor (id: Id, fullName: string, email: string)
      ensures this.id == id && this.fullName == fullName && this.email == email
      ensures !isDonor && !isVerified && isAvailable
      ensures location == Some(DefaultPoint) && socialMedia == DefaultSocialMedia
      ensures notificationPreferences == None
      ensures phone == "" && address == "" && district == "" && bloodType == "" && description == ""
    {
      this.id := id;
      this.fullName := fullName;
      this.email := email;
      phone, address, district, bloodType, description := "", "", "", "", "";
      dateOfBirth := None;
      isDonor, isVerified, isAvailable := false, false, true;
      socialMedia := DefaultSocialMedia;
      availableDate, availabilityNotes := None, None;
      location := Some(DefaultPoint);
      notificationPreferences := None;
    }
  }

  /** The setters of the user schema. Mongoose runs them on a value assigned
      to the field and on a value a query compares with it: `trim` on the
      name, phone, address and district, `lowercase` then `trim` on the email,
      `uppercase` on the blood type. */
  function EmailSetter(s: string): string
  {
    JsText.Trim(JsText.ToLower(s))
  }

  /** The values of a `bloodType: {$in: ...}` query after the `uppercase` setter. */
  function UpperEach(ts: seq<string>): (r: seq<string>)
    ensures |r| == |ts| && forall i :: 0 <= i < |ts| ==> r[i] == JsText.ToUpper(ts[i])
  {
    seq(|ts|, i requires 0 <= i < |ts| => JsText.ToUpper(ts[i]))
  }

  /** The eight type names are already upper case, so the setter leaves a
      list of them unchanged. */
  lemma UpperEachOfKnownTypes(ts: seq<string>)
    requires forall i :: 0 <= i < |ts| ==> Compatibility.IsBloodType(ts[i])
    ensures UpperEach(ts) == ts
  {
    assert JsText.UpperChar('A') == 'A' && JsText.UpperChar('B') == 'B' && JsText.UpperChar('O') == 'O';
    assert JsText.UpperChar('+') == '+' && JsText.UpperChar('-') == '-';
    forall i | 0 <= i < |ts| ensures JsText.ToUpper(ts[i]) == ts[i] {
      assert ts[i] in Compatibility.BloodTypes;
    }
  }

  // ---------------------------------------------------------------------------
  // User schema validators

  /** `\w`: an ASCII letter, digit or underscore. */
  predicate IsWordChar(c: char)
  {
    ('a' <= c <= 'z') || ('A' <= c <= 'Z') || ('0' <= c <= '9') || c == '_'
  }

  /** `\w+([.-]?\w+)*`: word characters with single dots or hyphens between
      them, starting and ending with a word character. */
  predicate DottedWord(s: string)
  {
    && |s| >= 1 && IsWordChar(s[0]) && IsWordChar(s[|s| - 1])
    && (forall i :: 0 <= i < |s| ==> IsWordChar(s[i]) || s[i] == '.' || s[i] == '-')
    && (forall i :: 0 <= i < |s| - 1 ==> IsWordChar(s[i]) || IsWordChar(s[i + 1]))
  }

  /** `\w+([.-]?\w+)*(\.\w{2,3})+` on the part after the `@`: earlier groups
      of the repeated suffix can be read as part of the dotted word, so the
      domain is a dotted word followed by one `.` and two or three word
      characters. */
  predicate DomainMatches(d: string)
  {
    || (|d| >= 4 && d[|d| - 3] == '.' && IsWordChar(d[|d| - 2]) && IsWordChar(d[|d| - 1]) && DottedWord(d[..|d| - 3]))
    || (|d| >= 5 && d[|d| - 4] == '.' && IsWordChar(d[|d| - 3]) && IsWordChar(d[|d| - 2]) && IsWordChar(d[|d| - 1])
        && DottedWord(d[..|d| - 4]))
  }

  /** The email pattern `^\w+([.-]?\w+)*@\w+([.-]?\w+)*(\.\w{2,3})+$`. No
      other character matches `@`, so the address splits at its only `@`. */
  predicate EmailMatches(s: string)
  {
    exists i :: 0 <= i < |s| && s[i] == '@' && DottedWord(s[..i]) && DomainMatches(s[i + 1..])
  }

  /** The validators of the user schema on the fields the model keeps, applied
      to the values as their setters left them: a name that is present and at
      most 100 characters, an email that is present and matches the pattern,
      a phone that is absent or matches the phone pattern, an address of at
      most 200 characters, a blood type that is absent (`""`) or one of the
      eight names, and a description of at most 1000 characters. */
  predicate UserSchemaAccepts(fullName: string, email: string, phone: string, address: string,
                              bloodType: string, description: string)
  {
    && fullName != "" && |fullName| <= 100
    && email != "" && EmailMatches(email)
    && (phone == "" || PhoneMatches(phone))
    && |address| <= 200
    && (bloodType == "" || Compatibility.IsBloodType(bloodType))
    && |description| <= 1000
  }

  /** The pattern on three addresses: `a@x.io` matches, `foo` (no `@`) and
      `a@x` (no final group) do not. */
  lemma EmailPatternExamples()
    ensures EmailMatches("a@x.io")
    ensures !EmailMatches("foo")
    ensures !EmailMatches("a@x")
  {
    var s := "a@x.io";
    assert s[..1] == "a" && s[2..] == "x.io";
    assert "x.io"[..1] == "x";
    assert DottedWord("a") && DottedWord("x");
    assert DomainMatches("x.io");
    assert forall i :: 0 <= i < |"a@x"| && "a@x"[i] == '@' ==> i == 1;
    assert !DomainMatches("x");
  }

  /** The `coordinates` default `[0, 0]` of the user and request schemas:
      every document created through them has a location. */
  const DefaultPoint := Point(0, 0)

  /** The social-media links a user document has. */
  const SocialMediaKeys: set<string> := {"facebook", "instagram", "twitter", "linkedin", "youtube", "whatsapp"}

  const DefaultSocialMedia: map<string, string> := map k | k in SocialMediaKeys :: ""

  /** The phone pattern `^[+]?[1-9]\d{0,15}$` of the request schema, which the
      request form repeats: an optional `+`, then one to sixteen ASCII digits
      of which the first is not 0. */
  predicate PhoneMatches(s: string)
  {
    var t := if |s| > 0 && s[0] == '+' then s[1..] else s;
    && 1 <= |t| <= 16
    && '1' <= t[0] <= '9'
    && forall i :: 1 <= i < |t| ==> JsText.IsDecimalDigit(t[i])
  }

  // ---------------------------------------------------------------------------
  // Blood requests

  datatype RequestStatus = Pending | Approved | Fulfilled | Cancelled | Expired

  /** The schema's spelling of each status. */
  function RequestStatusName(s: RequestStatus): string
  {
    match s
    case Pending => "Pending"
    case Approved => "Approved"
    case Fulfilled => "Fulfilled"
    case Cancelled => "Cancelled"
    case Expired => "Expired"
  }

  /** The schema's enum check on a status string. */
  function ParseRequestStatus(s: string): (r: Option<RequestStatus>)
    ensures r.Some? ==> RequestStatusName(r.value) == s
  {
    if s == "Pending" then Some(Pending)
    else if s == "Approved" then Some(Approved)
    else if s == "Fulfilled" then Some(Fulfilled)
    else if s == "Cancelled" then Some(Cancelled)
    else if s == "Expired" then Some(Expired)
    else None
  }

  /** Every status is accepted under its own name, so the enum check
      rejects exactly the strings that name no status. */
  lemma ParseRequestStatusName(s: RequestStatus)
    ensures ParseRequestStatus(RequestStatusName(s)) == Some(s)
  {
  }

  /** The status of a donor in a request's `matchedDonors` ledger. */
  datatype LedgerStatus = Contacted | Confirmed | Declined

  /** One ledger entry: `{donor, status, contactedAt}`. */
  datatype MatchedDonor = MatchedDonor(donor: Id, status: LedgerStatus, contactedAt: int)

  /** The ledger holds at most one entry per donor. */
  predicate NoDuplicateDonors(ledger: seq<MatchedDonor>)
  {
    forall i, j :: 0 <= i < j < |ledger| ==> ledger[i].donor != ledger[j].donor
  }

  /** The fields `createBloodRequest` puts into a new request. */
  datatype NewRequest = NewRequest(
    bloodGroup: string,
    bloodUnits: int,
    appointmentDate: int,
    phoneNumber: string,
    district: string,
    hospitalName: string,
    description: string,
    urgencyLevel: string,
    isEmergency: bool,
    location: Option<Point>)

  /** A blood-request document. What the creator supplied is fixed; the
      status, the ledger and the fulfilment fields change later. */
  class BloodRequest {
    const id: Id
    const requester: Id
    const bloodGroup: string
    /** copy of `bloodGroup` kept for the notification system */
    const bloodType: string
    const bloodUnits: int
    const appointmentDate: int
    const phoneNumber: string
    const district: string
    const hospitalName: string
    const description: string
    const urgencyLevel: string
    const isEmergency: bool
    const location: Option<Point>
    var status: RequestStatus
    var matchedDonors: seq<MatchedDonor>
    var fulfilledBy: Option<Id>
    var fulfilledAt: Option<int>
    var notes: Option<string>

    ghost predicate Valid()
      reads this
    {
      NoDuplicateDonors(matchedDonors)
    }

    /** The request holds exactly the fields its creator supplied, with the
        blood group copied into `bloodType`. */
    predicate Carries(fields: NewRequest)
      reads this
    {
      && bloodGroup == fields.bloodGroup && bloodType == fields.bloodGroup
      && bloodUnits == fields.bloodUnits && appointmentDate == fields.appointmentDate
      && phoneNumber == fields.phoneNumber && district == fields.district
      && hospitalName == fields.hospitalName && description == fields.description
      && urgencyLevel == fields.urgencyLevel && isEmergency == fields.isEmergency
      && location == fields.location
    }

    /** `new BloodRequest({...})`: the supplied fields, status `Pending`, an
        empty ledger. */
    constructor (id: Id, requester: Id, fields: NewRequest)
      ensures Valid()
      ensures this.id == id && this.requester == requester
      ensures bloodGroup == fields.bloodGroup && bloodType == fields.bloodGroup
      ensures bloodUnits == fields.bloodUnits && appointmentDate == fields.appointmentDate
      ensures phoneNumber == fields.phoneNumber && district == fields.district
      ensures hospitalName == fields.hospitalName && description == fields.description
      ensures urgencyLevel == fields.urgencyLevel && isEmergency == fields.isEmergency
      ensures location == fields.location
      ensures Carries(fields)
      ensures status == Pending && matchedDonors == []
      ensures fulfilledBy == None && fulfilledAt == None && notes == None
    {
      this.id := id;
      this.requester := requester;
      bloodGroup := fields.bloodGroup;
      bloodType := fields.bloodGroup;
      bloodUnits := fields.bloodUnits;
      appointmentDate := fields.appointmentDate;
      phoneNumber := fields.phoneNumber;
      district := fields.district;
      hospitalName := fields.hospitalName;
      description := fields.description;
      urgencyLevel := fields.urgencyLevel;
      isEmergency := fields.isEmergency;
      location := fields.location;
      status := Pending;
      matchedDonors := [];
      fulfilledBy, fulfilledAt, notes := None, None, None;
    }
  }

  // ---------------------------------------------------------------------------
  // Blood banks

  /** A blood-bank document. The schema declares one inventory counter per
      blood type, each defaulting to 0 and never negative. */
  class BloodBank {
    const id: Id
    const name: string
    const district: string
    const isActive: bool
    var inventory: map<string, int>
    var lastInventoryUpdate: Option<int>

    ghost predicate Valid()
      reads this
    {
      && inventory.Keys == set t | t in Compatibility.BloodTypes
      && forall t :: t in inventory ==> inventory[t] >= 0
    }
  }
}
