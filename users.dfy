/** The user controller: registration's guards, the partial profile update,
    the donor-search criteria and the location line shown for a donor. The
    user store is a sequence of user documents. */
module Users {
  import opened Common
  import Models
  import JsText

  /** The controller's refusals; `ValidationFailed` is the 400 answer to a
      `ValidationError` thrown by `save()`. */
  datatype UserError = MissingFields | PasswordTooShort | EmailTaken | UserNotFound | EmailInUse | ValidationFailed

  /** `findOne({email})` finds a user: the query value goes through the
      email setter before it is compared with the stored emails. */
  predicate EmailRegistered(users: seq<Models.User>, email: string)
    reads users
  {
    exists i :: 0 <= i < |users| && users[i].email == Models.EmailSetter(email)
  }

  // ---------------------------------------------------------------------------
  // registerUser

  /** The guards of `registerUser`, in their order: all three fields given, a
      password of at least six characters, an email nobody has. */
  function CheckRegistration(users: seq<Models.User>, fullName: string, email: string, password: string): (r: Option<UserError>)
    reads users
    ensures r == Some(MissingFields) <==> fullName == "" || email == "" || password == ""
    ensures r == Some(PasswordTooShort) <==> fullName != "" && email != "" && password != "" && |password| < 6
    ensures r == Some(EmailTaken) <==> fullName != "" && email != "" && |password| >= 6 && EmailRegistered(users, email)
    ensures r.None? <==> fullName != "" && email != "" && |password| >= 6 && !EmailRegistered(users, email)
  {
    if fullName == "" || email == "" || password == "" then Some(MissingFields)
    else if |password| < 6 then Some(PasswordTooShort)
    else if EmailRegistered(users, email) then Some(EmailTaken)
    else None
  }

  /** The stored document passes the schema's validators. */
  predicate StoredValid(u: Models.User)
    reads u
  {
    Models.UserSchemaAccepts(u.fullName, u.email, u.phone, u.address, u.bloodType, u.description)
  }

  /** `newUser.save()` validates the name and the email as their setters
      leave them; every other validated field is still absent. */
  predicate RegistrationSaves(fullName: string, email: string)
  {
    Models.UserSchemaAccepts(JsText.Trim(fullName), Models.EmailSetter(email), "", "", "", "")
  }

  /** `registerUser`: a new user document with the schema's defaults, the
      name and the email as their setters store them. The save refuses a
      name that trims to nothing and an email that fails the pattern. */
  method RegisterUser(users: seq<Models.User>, id: Id, fullName: string, email: string, password: string)
    returns (r: Result<Models.User, UserError>)
    ensures CheckRegistration(users, fullName, email, password).Some? ==>
              r == Err(CheckRegistration(users, fullName, email, password).value)
    ensures CheckRegistration(users, fullName, email, password).None? && !RegistrationSaves(fullName, email) ==>
              r == Err(ValidationFailed)
    ensures r.Ok? <==> CheckRegistration(users, fullName, email, password).None? && RegistrationSaves(fullName, email)
    ensures r.Ok? ==>
              fresh(r.value) && r.value.id == id
              && r.value.fullName == JsText.Trim(fullName) && r.value.email == Models.EmailSetter(email)
              && !r.value.isDonor && !r.value.isVerified && r.value.isAvailable
              && StoredValid(r.value)
  {
    var problem := CheckRegistration(users, fullName, email, password);
    if problem.Some? {
      return Err(problem.value);
    }
    if !RegistrationSaves(fullName, email) {
      return Err(ValidationFailed);
    }
    var u := new Models.User(id, JsText.Trim(fullName), Models.EmailSetter(email));
    r := Ok(u);
  }

  /** Passing the guards is not enough: a name of spaces passes `!fullName`
      but is refused by the save, and so is the email `foo`. */
  lemma SaveRefusesWhatTheGuardsLetThrough()
    ensures !RegistrationSaves("   ", "a@x.io")
    ensures !RegistrationSaves("Ann", "foo")
  {
    assert JsText.IsBlank("   ");
    assert forall e :: Models.EmailSetter("foo") == e ==> !Models.EmailMatches(e) by {
      assert !JsText.IsJsSpace('f') && !JsText.IsJsSpace('o');
      assert JsText.LowerChar('f') == 'f' && JsText.LowerChar('o') == 'o';
      assert JsText.ToLower("foo") == "foo";
      assert JsText.TrimStart("foo") == "foo" && JsText.TrimEnd("foo") == "foo";
      Models.EmailPatternExamples();
    }
  }

  // ---------------------------------------------------------------------------
  // updateProfile

  /** The `availability` object of the body; each sub-key may be absent. */
  datatype AvailabilityUpdate = AvailabilityUpdate(isAvailable: Option<bool>, availableDate: Option<int>, notes: Option<string>)

  /** The body of `updateProfile`. `None` is an absent (`undefined`) field;
      `socialMedia` lists the object's keys in order, with `None` for a key
      whose value is `undefined`. */
  datatype ProfileUpdate = ProfileUpdate(
    fullName: Option<string>,
    email: Option<string>,
    phone: Option<string>,
    address: Option<string>,
    district: Option<string>,
    bloodType: Option<string>,
    dateOfBirth: Option<int>,
    isDonor: Option<bool>,
    description: Option<string>,
    socialMedia: Option<seq<(string, Option<string>)>>,
    availability: Option<AvailabilityUpdate>,
    latitude: Option<int>,
    longitude: Option<int>)

  /** A supplied value replaces the stored one; an absent one keeps it. */
  function Overwrite<T>(supplied: Option<T>, stored: T): (v: T)
    ensures supplied.None? ==> v == stored
    ensures supplied.Some? ==> v == supplied.value
  {
    if supplied.Some? then supplied.value else stored
  }

  /** A supplied string as the field's setter stores it. */
  function SetBy(supplied: Option<string>, setter: string -> string): (v: Option<string>)
    ensures v.Some? <==> supplied.Some?
    ensures supplied.Some? ==> v.value == setter(supplied.value)
  {
    if supplied.Some? then Some(setter(supplied.value)) else None
  }

  /** The last defined value supplied for a platform, if any. */
  function LastLink(supplied: seq<(string, Option<string>)>, platform: string): (v: Option<string>)
    ensures v.Some? ==> exists i :: 0 <= i < |supplied| && supplied[i] == (platform, v)
    ensures v.None? <==> forall i :: 0 <= i < |supplied| && supplied[i].0 == platform ==> supplied[i].1.None?
    decreases |supplied|
  {
    if supplied == [] then None
    else
      var init := supplied[..|supplied| - 1];
      var (p, value) := supplied[|supplied| - 1];
      assert forall i :: 0 <= i < |init| ==> init[i] == supplied[i];
      if p == platform && value.Some? then value else LastLink(init, platform)
  }

  /** The social-media links after the merge of the supplied pairs, in order. */
  function MergeLinks(links: map<string, string>, supplied: seq<(string, Option<string>)>): map<string, string>
    decreases |supplied|
  {
    if supplied == [] then links
    else
      var before := MergeLinks(links, supplied[..|supplied| - 1]);
      var (p, value) := supplied[|supplied| - 1];
      if value.Some? then before[p := value.value] else before
  }

  /** The merge keeps the stored links and adds the supplied platforms; each
      platform supplied with a defined value takes the last such value, and
      every other one keeps its link. */
  lemma {:induction false} MergeLinksMeaning(links: map<string, string>, supplied: seq<(string, Option<string>)>)
    ensures forall p :: p in MergeLinks(links, supplied) <==> p in links || LastLink(supplied, p).Some?
    ensures forall p :: p in MergeLinks(links, supplied) ==>
              MergeLinks(links, supplied)[p] == match LastLink(supplied, p) case Some(v) => v case None => links[p]
    decreases |supplied|
  {
    if supplied != [] {
      MergeLinksMeaning(links, supplied[..|supplied| - 1]);
    }
  }

  /** Sending one's own email in another case is refused: it differs from
      the stored string, and the query, cast to lower case, finds the user. */
  lemma OwnEmailInOtherCaseIsInUse(users: seq<Models.User>, k: int, upd: ProfileUpdate)
    requires 0 <= k < |users|
    requires upd.email.Some? && upd.email.value != "" && upd.email.value != users[k].email
    requires Models.EmailSetter(upd.email.value) == users[k].email
    ensures EmailConflict(users, users[k].email, upd)
  {
  }

  /** An email that the cast turns into a different string: `A@x.io` is
      stored as `a@x.io`. */
  lemma MixedCaseEmailIsCast()
    ensures Models.EmailSetter("A@x.io") == "a@x.io" != "A@x.io"
  {
    var lower := JsText.ToLower("A@x.io");
    assert JsText.LowerChar('A') == 'a' && JsText.LowerChar('@') == '@' && JsText.LowerChar('x') == 'x';
    assert JsText.LowerChar('.') == '.' && JsText.LowerChar('i') == 'i' && JsText.LowerChar('o') == 'o';
    assert lower == "a@x.io";
    assert !JsText.IsJsSpace('a') && !JsText.IsJsSpace('o');
    assert JsText.TrimStart(lower) == lower;
    assert JsText.TrimEnd(lower) == lower;
  }

  /** The email check as intended: the cast email is compared with the
      stored one, so only an address held by someone else is refused. */
  predicate EmailConflictIntended(users: seq<Models.User>, stored: string, upd: ProfileUpdate)
    reads users
  {
    upd.email.Some? && upd.email.value != "" && Models.EmailSetter(upd.email.value) != stored
    && EmailRegistered(users, upd.email.value)
  }

  /** Under the intended check one's own email, in any case, is never
      refused, and a refused email belongs to a user whose stored email is
      not the caller's. */
  lemma IntendedConflictIsAnotherUser(users: seq<Models.User>, stored: string, upd: ProfileUpdate)
    ensures upd.email.Some? && Models.EmailSetter(upd.email.value) == stored ==> !EmailConflictIntended(users, stored, upd)
    ensures EmailConflictIntended(users, stored, upd) ==>
              exists j :: 0 <= j < |users| && users[j].email == Models.EmailSetter(upd.email.value) && users[j].email != stored
  {
  }

  /** The new `[longitude, latitude]` when both are supplied. */
  function NewLocation(upd: ProfileUpdate, stored: Option<Point>): (p: Option<Point>)
    ensures upd.latitude.Some? && upd.longitude.Some? ==> p == Some(Point(upd.longitude.value, upd.latitude.value))
    ensures !(upd.latitude.Some? && upd.longitude.Some?) ==> p == stored
  {
    if upd.latitude.Some? && upd.longitude.Some? then Some(Point(upd.longitude.value, upd.latitude.value)) else stored
  }

  /** The email check: a truthy email, different from the stored string,
      whose cast form some user (the caller included) already has. */
  predicate EmailConflict(users: seq<Models.User>, stored: string, upd: ProfileUpdate)
    reads users
  {
    upd.email.Some? && upd.email.value != "" && upd.email.value != stored && EmailRegistered(users, upd.email.value)
  }

  /** `user` holds the update of its previous state by `upd`: each supplied
      field written through its setter, every other field as it was, the social-media links and
      the availability merged key by key, the location replaced only when
      both coordinates are supplied. */
  twostate predicate Applied(user: Models.User, upd: ProfileUpdate)
    reads user
  {
    && user.fullName == Overwrite(SetBy(upd.fullName, JsText.Trim), old(user.fullName))
    && user.email == Overwrite(SetBy(upd.email, Models.EmailSetter), old(user.email))
    && user.phone == Overwrite(SetBy(upd.phone, JsText.Trim), old(user.phone))
    && user.address == Overwrite(SetBy(upd.address, JsText.Trim), old(user.address))
    && user.district == Overwrite(SetBy(upd.district, JsText.Trim), old(user.district))
    && user.bloodType == Overwrite(SetBy(upd.bloodType, JsText.ToUpper), old(user.bloodType))
    && user.dateOfBirth == (if upd.dateOfBirth.Some? then upd.dateOfBirth else old(user.dateOfBirth))
    && user.isDonor == Overwrite(upd.isDonor, old(user.isDonor))
    && user.description == Overwrite(upd.description, old(user.description))
    && user.socialMedia == SocialMediaAfter(old(user.socialMedia), upd.socialMedia)
    && user.isAvailable == (if upd.availability.Some? then Overwrite(upd.availability.value.isAvailable, old(user.isAvailable))
                            else old(user.isAvailable))
    && user.availableDate == (if upd.availability.Some? && upd.availability.value.availableDate.Some?
                              then upd.availability.value.availableDate else old(user.availableDate))
    && user.availabilityNotes == (if upd.availability.Some? && upd.availability.value.notes.Some?
                                  then upd.availability.value.notes else old(user.availabilityNotes))
    && user.location == NewLocation(upd, old(user.location))
    && user.isVerified == old(user.isVerified)
    && user.notificationPreferences == old(user.notificationPreferences)
  }

  /** The assignments of `updateProfile`, in the source's order. */
  method ApplyProfileUpdate(user: Models.User, upd: ProfileUpdate)
    modifies user
    ensures Applied(user, upd)
  {
    ApplyContact(user, upd);
    ApplyDonorDetails(user, upd);
    ApplyAvailability(user, upd);
  }

  /** The contact and identity fields, each through its setter; one not
      supplied is written back unchanged. */
  method ApplyContact(user: Models.User, upd: ProfileUpdate)
    modifies user`fullName, user`email, user`phone, user`address, user`district, user`bloodType
    ensures user.fullName == Overwrite(SetBy(upd.fullName, JsText.Trim), old(user.fullName))
    ensures user.email == Overwrite(SetBy(upd.email, Models.EmailSetter), old(user.email))
    ensures user.phone == Overwrite(SetBy(upd.phone, JsText.Trim), old(user.phone))
    ensures user.address == Overwrite(SetBy(upd.address, JsText.Trim), old(user.address))
    ensures user.district == Overwrite(SetBy(upd.district, JsText.Trim), old(user.district))
    ensures user.bloodType == Overwrite(SetBy(upd.bloodType, JsText.ToUpper), old(user.bloodType))
  {
    var fullName := Overwrite(SetBy(upd.fullName, JsText.Trim), user.fullName);
    var email := Overwrite(SetBy(upd.email, Models.EmailSetter), user.email);
    var phone := Overwrite(SetBy(upd.phone, JsText.Trim), user.phone);
    var address := Overwrite(SetBy(upd.address, JsText.Trim), user.address);
    var district := Overwrite(SetBy(upd.district, JsText.Trim), user.district);
    var bloodType := Overwrite(SetBy(upd.bloodType, JsText.ToUpper), user.bloodType);
    user.fullName, user.email, user.phone := fullName, email, phone;
    user.address, user.district, user.bloodType := address, district, bloodType;
  }

  /** The date of birth, the donor flag, the description and the links. */
  method ApplyDonorDetails(user: Models.User, upd: ProfileUpdate)
    modifies user`dateOfBirth, user`isDonor, user`description, user`socialMedia
    ensures user.dateOfBirth == (if upd.dateOfBirth.Some? then upd.dateOfBirth else old(user.dateOfBirth))
    ensures user.isDonor == Overwrite(upd.isDonor, old(user.isDonor))
    ensures user.description == Overwrite(upd.description, old(user.description))
    ensures user.socialMedia == SocialMediaAfter(old(user.socialMedia), upd.socialMedia)
  {
    var links := MergeSocialMedia(user.socialMedia, upd.socialMedia);
    user.dateOfBirth := if upd.dateOfBirth.Some? then upd.dateOfBirth else user.dateOfBirth;
    user.isDonor := Overwrite(upd.isDonor, user.isDonor);
    user.description := Overwrite(upd.description, user.description);
    user.socialMedia := links;
  }

  /** The availability, merged key by key, and the location. */
  method ApplyAvailability(user: Models.User, upd: ProfileUpdate)
    modifies user`isAvailable, user`availableDate, user`availabilityNotes, user`location
    ensures user.isAvailable == (if upd.availability.Some? then Overwrite(upd.availability.value.isAvailable, old(user.isAvailable))
                                 else old(user.isAvailable))
    ensures user.availableDate == (if upd.availability.Some? && upd.availability.value.availableDate.Some?
                                   then upd.availability.value.availableDate else old(user.availableDate))
    ensures user.availabilityNotes == (if upd.availability.Some? && upd.availability.value.notes.Some?
                                       then upd.availability.value.notes else old(user.availabilityNotes))
    ensures user.location == NewLocation(upd, old(user.location))
  {
    var a := if upd.availability.Some? then upd.availability.value else AvailabilityUpdate(None, None, None);
    user.isAvailable := Overwrite(a.isAvailable, user.isAvailable);
    user.availableDate := if a.availableDate.Some? then a.availableDate else user.availableDate;
    user.availabilityNotes := if a.notes.Some? then a.notes else user.availabilityNotes;
    user.location := NewLocation(upd, user.location);
  }

  /** `user.save()` after the assignments: the validators on the fields as
      updated, where an empty `bloodType` is refused by the enum although an
      absent one is not. */
  predicate ProfileSaves(user: Models.User, upd: ProfileUpdate)
    reads user
  {
    && Models.UserSchemaAccepts(
         Overwrite(SetBy(upd.fullName, JsText.Trim), user.fullName),
         Overwrite(SetBy(upd.email, Models.EmailSetter), user.email),
         Overwrite(SetBy(upd.phone, JsText.Trim), user.phone),
         Overwrite(SetBy(upd.address, JsText.Trim), user.address),
         Overwrite(SetBy(upd.bloodType, JsText.ToUpper), user.bloodType),
         Overwrite(upd.description, user.description))
    && upd.bloodType != Some("")
  }

  /** Updates the save refuses: an empty name, the blood type `X`, and an
      email that fails the pattern once cast. */
  lemma ProfileSaveRefusals(user: Models.User, upd: ProfileUpdate)
    ensures upd.fullName == Some("") ==> !ProfileSaves(user, upd)
    ensures upd.bloodType == Some("X") ==> !ProfileSaves(user, upd)
    ensures upd.email.Some? && !Models.EmailMatches(Models.EmailSetter(upd.email.value)) ==> !ProfileSaves(user, upd)
  {
    assert JsText.UpperChar('X') == 'X';
    assert JsText.ToUpper("X") == "X";
  }

  /** `updateProfile` on the looked-up `user` (`null` when not found). A
      clash of emails changes nothing; an update the save refuses is not
      stored; otherwise the update is applied and the document stays valid.
      The source assigns the fields before the save fails; that in-memory
      copy is discarded, so the stored document is unchanged. */
  method UpdateProfile(user: Models.User?, users: seq<Models.User>, upd: ProfileUpdate) returns (r: Result<Models.User, UserError>)
    modifies user
    ensures user == null ==> r == Err(UserNotFound)
    ensures user != null && old(EmailConflict(users, user.email, upd)) ==> r == Err(EmailInUse) && unchanged(user)
    ensures user != null && !old(EmailConflict(users, user.email, upd)) && !old(ProfileSaves(user, upd)) ==>
              r == Err(ValidationFailed) && unchanged(user)
    ensures user != null && !old(EmailConflict(users, user.email, upd)) && old(ProfileSaves(user, upd)) ==>
              r == Ok(user) && Applied(user, upd) && StoredValid(user)
  {
    if user == null {
      return Err(UserNotFound);
    }
    ghost var conflict := EmailConflict(users, user.email, upd);
    if upd.email.Some? && upd.email.value != "" && upd.email.value != user.email {
      if EmailRegistered(users, upd.email.value) {
        return Err(EmailInUse);
      }
    }
    assert !conflict;
    var saves := ProfileSaves(user, upd);
    if !saves {
      return Err(ValidationFailed);
    }
    SaveProfile(user, upd);
    r := Ok(user);
  }

  /** The assignments followed by a `save()` the validators accept: the
      stored document is valid. */
  method SaveProfile(user: Models.User, upd: ProfileUpdate)
    requires ProfileSaves(user, upd)
    modifies user
    ensures Applied(user, upd) && StoredValid(user)
  {
    ghost var name, mail := Overwrite(SetBy(upd.fullName, JsText.Trim), user.fullName), Overwrite(SetBy(upd.email, Models.EmailSetter), user.email);
    ghost var phone, address := Overwrite(SetBy(upd.phone, JsText.Trim), user.phone), Overwrite(SetBy(upd.address, JsText.Trim), user.address);
    ghost var group, about := Overwrite(SetBy(upd.bloodType, JsText.ToUpper), user.bloodType), Overwrite(upd.description, user.description);
    assert Models.UserSchemaAccepts(name, mail, phone, address, group, about);
    ApplyProfileUpdate(user, upd);
    assert user.fullName == name && user.email == mail && user.phone == phone;
    assert user.address == address && user.bloodType == group && user.description == about;
  }

  /** The links after the body's `socialMedia` object, if any, is merged in. */
  function SocialMediaAfter(links: map<string, string>, supplied: Option<seq<(string, Option<string>)>>): map<string, string>
  {
    if supplied.Some? then MergeLinks(links, supplied.value) else links
  }

  /** The `forEach` over the supplied platforms. */
  method MergeSocialMedia(links: map<string, string>, supplied: Option<seq<(string, Option<string>)>>)
    returns (merged: map<string, string>)
    ensures merged == SocialMediaAfter(links, supplied)
  {
    merged := links;
    if supplied.None? {
      return;
    }
    var pairs := supplied.value;
    for i := 0 to |pairs|
      invariant merged == MergeLinks(links, pairs[..i])
    {
      assert pairs[..i + 1][..i] == pairs[..i];
      var (platform, value) := pairs[i];
      if value.Some? {
        merged := merged[platform := value.value];
      }
    }
    assert pairs[..|pairs|] == pairs;
  }

  /** The merge leaves every platform not supplied with a defined value as
      it was, and an empty body changes no link. */
  lemma MergeLinksKeepsOthers(links: map<string, string>, supplied: seq<(string, Option<string>)>, p: string)
    requires forall i :: 0 <= i < |supplied| && supplied[i].0 == p ==> supplied[i].1.None?
    ensures p in MergeLinks(links, supplied) <==> p in links
    ensures p in links ==> MergeLinks(links, supplied)[p] == links[p]
  {
    MergeLinksMeaning(links, supplied);
  }

  // ---------------------------------------------------------------------------
  // searchDonors

  /** A value in a query document. */
  datatype QueryValue = Text(s: string) | Flag(b: bool)

  const IsDonorKey := "isDonor"
  const BloodTypeKey := "bloodType"
  const DistrictKey := "district"
  const AvailableKey := "availability.isAvailable"

  /** The criteria `searchDonors` builds from its query parameters (absent
      ones are `""`): always `isDonor`, the type and the district unless
      absent or `all`, availability only for the string `true`. */
  function SearchCriteria(bloodType: string, district: string, isAvailable: string): (c: map<string, QueryValue>)
    ensures IsDonorKey in c && c[IsDonorKey] == Flag(true)
    ensures BloodTypeKey in c <==> bloodType != "" && bloodType != "all"
    ensures BloodTypeKey in c ==> c[BloodTypeKey] == Text(bloodType)
    ensures DistrictKey in c <==> district != "" && district != "all"
    ensures DistrictKey in c ==> c[DistrictKey] == Text(district)
    ensures AvailableKey in c <==> isAvailable == "true"
    ensures AvailableKey in c ==> c[AvailableKey] == Flag(true)
    ensures c.Keys <= {IsDonorKey, BloodTypeKey, DistrictKey, AvailableKey}
  {
    var c0 := map[IsDonorKey := Flag(true)];
    var c1 := if bloodType != "" && bloodType != "all" then c0[BloodTypeKey := Text(bloodType)] else c0;
    var c2 := if district != "" && district != "all" then c1[DistrictKey := Text(district)] else c1;
    if isAvailable == "true" then c2[AvailableKey := Flag(true)] else c2
  }

  /** The step-by-step construction of the criteria object. */
  method BuildSearchCriteria(bloodType: string, district: string, isAvailable: string) returns (c: map<string, QueryValue>)
    ensures c == SearchCriteria(bloodType, district, isAvailable)
  {
    c := map[IsDonorKey := Flag(true)];
    if bloodType != "" && bloodType != "all" {
      c := c[BloodTypeKey := Text(bloodType)];
    }
    if district != "" && district != "all" {
      c := c[DistrictKey := Text(district)];
    }
    if isAvailable == "true" {
      c := c[AvailableKey := Flag(true)];
    }
  }

  /** A user document satisfies a query made of exact-match criteria. The
      query casts a blood type through the `uppercase` setter and a district
      through `trim` before comparing. */
  predicate Matches(u: Models.User, c: map<string, QueryValue>)
    reads u
  {
    && (IsDonorKey in c ==> c[IsDonorKey] == Flag(u.isDonor))
    && (BloodTypeKey in c ==> c[BloodTypeKey].Text? && JsText.ToUpper(c[BloodTypeKey].s) == u.bloodType)
    && (DistrictKey in c ==> c[DistrictKey].Text? && JsText.Trim(c[DistrictKey].s) == u.district)
    && (AvailableKey in c ==> c[AvailableKey] == Flag(u.isAvailable))
  }

  /** Every user `searchDonors` returns is a donor with the requested type
      (in any case) and district (surrounding spaces ignored) and the
      requested availability; `all` and an absent parameter filter nothing. */
  lemma SearchFindsDonors(u: Models.User, bloodType: string, district: string, isAvailable: string)
    ensures Matches(u, SearchCriteria(bloodType, district, isAvailable)) <==>
              && u.isDonor
              && (bloodType != "" && bloodType != "all" ==> u.bloodType == JsText.ToUpper(bloodType))
              && (district != "" && district != "all" ==> u.district == JsText.Trim(district))
              && (isAvailable == "true" ==> u.isAvailable)
  {
  }

  // ---------------------------------------------------------------------------
  // The donor listing

  /** The `location` line of a listed donor: `"address, district"` when both
      are present, whichever one is present otherwise, and a placeholder
      when neither is. */
  function DonorLocation(address: string, district: string): (line: string)
    ensures address != "" && district != "" ==> line == address + ", " + district
    ensures address != "" && district == "" ==> line == address
    ensures address == "" && district != "" ==> line == district
    ensures address == "" && district == "" ==> line == "Location not specified"
    ensures line != ""
  {
    if address != "" && district != "" then address + ", " + district
    else if address != "" then address
    else if district != "" then district
    else "Location not specified"
  }
}
