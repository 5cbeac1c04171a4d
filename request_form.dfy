/** The client's blood-request form: the submit-time validation chain, the
    list of missing required fields it reports, and the mapping of the form's
    urgency choice onto the server's urgency levels. */
module RequestForm {
  import opened Common
  import opened JsText
  import Models
  import BloodRequests
  import Dispatch

  /** The form's fields, all held as the strings the inputs produce. */
  datatype FormData = FormData(
    bloodGroup: string,
    appointmentDate: string,
    phoneNumber: string,
    bloodUnits: string,
    district: string,
    hospitalName: string,
    description: string,
    urgency: string)

  /** The form's field names. */
  datatype Field = BloodGroup | BloodUnits | AppointmentDate | PhoneNumber | District | HospitalName | Description

  function FieldValue(form: FormData, f: Field): string
  {
    match f
    case BloodGroup => form.bloodGroup
    case BloodUnits => form.bloodUnits
    case AppointmentDate => form.appointmentDate
    case PhoneNumber => form.phoneNumber
    case District => form.district
    case HospitalName => form.hospitalName
    case Description => form.description
  }

  /** The `requiredFields` object, in its declaration order, with the label
      shown for each field. */
  const RequiredFields: seq<(Field, string)> := [
    (BloodGroup, "Blood Group"),
    (BloodUnits, "Blood Units"),
    (AppointmentDate, "Appointment Date"),
    (PhoneNumber, "Phone Number"),
    (District, "District"),
    (HospitalName, "Hospital Name"),
    (Description, "Description")]

  /** A field counts as missing when it is empty or only whitespace, that
      is, when trimming leaves nothing. */
  predicate IsMissing(form: FormData, f: Field)
  {
    IsBlank(FieldValue(form, f))
  }

  /** The labels of the missing fields among `fields`, in their order. */
  function MissingIn(form: FormData, fields: seq<(Field, string)>): (labels: seq<string>)
    ensures |labels| <= |fields|
    decreases |fields|
  {
    if fields == [] then []
    else
      var last := fields[|fields| - 1];
      MissingIn(form, fields[..|fields| - 1]) + (if IsMissing(form, last.0) then [last.1] else [])
  }

  /** A label is reported exactly when one of the listed fields carrying it
      is missing. */
  lemma {:induction false} MissingInLabels(form: FormData, fields: seq<(Field, string)>)
    ensures forall l :: l in MissingIn(form, fields) ==>
              exists k :: 0 <= k < |fields| && fields[k].1 == l && IsMissing(form, fields[k].0)
    ensures forall k :: 0 <= k < |fields| && IsMissing(form, fields[k].0) ==> fields[k].1 in MissingIn(form, fields)
    decreases |fields|
  {
    if fields != [] {
      var init := fields[..|fields| - 1];
      MissingInLabels(form, init);
      assert forall k :: 0 <= k < |init| ==> init[k] == fields[k];
    }
  }

  /** One more field of the list adds its label exactly when it is missing. */
  lemma MissingInStep(form: FormData, fields: seq<(Field, string)>, i: int)
    requires 0 <= i < |fields|
    ensures MissingIn(form, fields[..i + 1]) ==
              MissingIn(form, fields[..i]) + (if IsMissing(form, fields[i].0) then [fields[i].1] else [])
  {
    assert fields[..i + 1][..i] == fields[..i];
  }

  /** The `forEach` over the required fields that pushes each missing label. */
  method MissingFields(form: FormData) returns (missing: seq<string>)
    ensures missing == MissingIn(form, RequiredFields)
  {
    missing := [];
    for i := 0 to |RequiredFields|
      invariant missing == MissingIn(form, RequiredFields[..i])
    {
      var (field, shown) := RequiredFields[i];
      var blank := Trim(FieldValue(form, field)) == "";
      MissingInStep(form, RequiredFields, i);
      if blank {
        missing := missing + [shown];
      }
    }
    assert RequiredFields[..|RequiredFields|] == RequiredFields;
  }

  /** The form may be sent only when no required field is missing. */
  lemma NothingMissing(form: FormData)
    ensures MissingIn(form, RequiredFields) == [] <==>
              forall k :: 0 <= k < |RequiredFields| ==> !IsMissing(form, RequiredFields[k].0)
  {
    MissingInLabels(form, RequiredFields);
    var labels := MissingIn(form, RequiredFields);
    assert labels != [] ==> labels[0] in labels;
  }

  /** Once the early checks have passed, only the blood group, the date
      (present but blank) and the description can still be reported. */
  lemma MissingAfterEarlyChecks(form: FormData)
    requires form.bloodGroup != "" && form.appointmentDate != ""
    requires !IsBlank(form.phoneNumber) && !IsBlank(form.bloodUnits)
    requires !IsBlank(form.district) && !IsBlank(form.hospitalName)
    ensures forall l :: l in MissingIn(form, RequiredFields) ==> l in {"Blood Group", "Appointment Date", "Description"}
  {
    var labels := MissingIn(form, RequiredFields);
    MissingInLabels(form, RequiredFields);
    forall l | l in labels ensures l in {"Blood Group", "Appointment Date", "Description"} {
      var k :| 0 <= k < |RequiredFields| && RequiredFields[k].1 == l && IsMissing(form, RequiredFields[k].0);
      assert k !in {1, 3, 4, 5} by {
        assert !IsMissing(form, BloodUnits) && !IsMissing(form, PhoneNumber);
        assert !IsMissing(form, District) && !IsMissing(form, HospitalName);
      }
    }
  }

  // ---------------------------------------------------------------------------
  // Urgency

  /** `getUrgencyLevel`: the form's choice as a server urgency level. */
  function GetUrgencyLevel(urgency: string): (level: string)
    ensures level in BloodRequests.UrgencyLevels
    ensures level == "Low" <==> urgency == "normal"
    ensures level == "High" <==> urgency == "urgent"
    ensures level == "Critical" <==> urgency == "critical"
    ensures level == "Medium" <==> urgency !in {"normal", "urgent", "critical"}
  {
    if urgency == "normal" then "Low"
    else if urgency == "urgent" then "High"
    else if urgency == "critical" then "Critical"
    else "Medium"
  }

  /** Only the `critical` choice marks the request as an emergency. */
  predicate IsEmergency(urgency: string)
  {
    urgency == "critical"
  }

  /** The emergency flag and the urgency sent agree, and exactly the
      emergencies are dispatched over the wider radius. */
  lemma EmergencyIsCritical(urgency: string)
    ensures IsEmergency(urgency) <==> GetUrgencyLevel(urgency) == "Critical"
    ensures IsEmergency(urgency) <==> Dispatch.SearchRadiusKm(GetUrgencyLevel(urgency)) == 50
  {
  }

  // ---------------------------------------------------------------------------
  // handleSubmit

  /** Why the form refused to send, one per message it shows. */
  datatype FormError =
    | NotAuthenticated
    | NoBloodGroup
    | NoAppointmentDate
    | NoPhoneNumber
    | NoBloodUnits
    | NoDistrict
    | NoHospitalName
    | MissingRequired(labels: seq<string>)
    | UnitsOutOfRange
    | InvalidPhoneNumber
    | AppointmentInPast

  /** The body the form posts. */
  datatype RequestData = RequestData(
    bloodGroup: string,
    bloodUnits: int,
    appointmentDate: string,
    phoneNumber: string,
    district: string,
    hospitalName: string,
    description: string,
    urgencyLevel: string,
    isEmergency: bool)

  /** The single-field checks that come before the missing-field list, in
      their order: blood group and date present, then phone, units, district
      and hospital not blank. */
  predicate EarlyChecksPass(form: FormData)
  {
    && form.bloodGroup != "" && form.appointmentDate != ""
    && !IsBlank(form.phoneNumber) && !IsBlank(form.bloodUnits)
    && !IsBlank(form.district) && !IsBlank(form.hospitalName)
  }

  /** `parseInt(bloodUnits)` is a number from 1 to 10. */
  predicate UnitsInRange(form: FormData)
  {
    ParseInt(form.bloodUnits).Some? && 1 <= ParseInt(form.bloodUnits).value <= 10
  }

  /** The date compares below the current time. */
  predicate InPast(appointmentAt: Option<int>, now: int)
  {
    appointmentAt.Some? && appointmentAt.value < now
  }

  /** `handleSubmit` up to the request. `appointmentAt` is what `new Date`
      makes of the date string (`None` for an invalid date, which compares
      false and so passes), `now` the current time. */
  method HandleSubmit(form: FormData, authenticated: bool, appointmentAt: Option<int>, now: int)
    returns (r: Result<RequestData, FormError>)
    ensures !authenticated ==> r == Err(NotAuthenticated)
    ensures authenticated && form.bloodGroup == "" ==> r == Err(NoBloodGroup)
    ensures authenticated && form.bloodGroup != "" && form.appointmentDate == "" ==> r == Err(NoAppointmentDate)
    ensures (authenticated && form.bloodGroup != "" && form.appointmentDate != ""
            && IsBlank(form.phoneNumber)) ==> r == Err(NoPhoneNumber)
    ensures (authenticated && form.bloodGroup != "" && form.appointmentDate != ""
            && !IsBlank(form.phoneNumber) && IsBlank(form.bloodUnits)) ==> r == Err(NoBloodUnits)
    ensures (authenticated && form.bloodGroup != "" && form.appointmentDate != ""
            && !IsBlank(form.phoneNumber) && !IsBlank(form.bloodUnits)
            && IsBlank(form.district)) ==> r == Err(NoDistrict)
    ensures (authenticated && form.bloodGroup != "" && form.appointmentDate != ""
            && !IsBlank(form.phoneNumber) && !IsBlank(form.bloodUnits) && !IsBlank(form.district)
            && IsBlank(form.hospitalName)) ==> r == Err(NoHospitalName)
    ensures authenticated && EarlyChecksPass(form) && MissingIn(form, RequiredFields) != [] ==>
              r == Err(MissingRequired(MissingIn(form, RequiredFields)))
    ensures (authenticated && EarlyChecksPass(form) && MissingIn(form, RequiredFields) == []
            && !UnitsInRange(form)) ==> r == Err(UnitsOutOfRange)
    ensures (authenticated && EarlyChecksPass(form) && MissingIn(form, RequiredFields) == []
            && UnitsInRange(form) && !Models.PhoneMatches(form.phoneNumber)) ==> r == Err(InvalidPhoneNumber)
    ensures (authenticated && EarlyChecksPass(form) && MissingIn(form, RequiredFields) == []
            && UnitsInRange(form) && Models.PhoneMatches(form.phoneNumber)
            && InPast(appointmentAt, now)) ==> r == Err(AppointmentInPast)
    ensures r.Ok? <==>
              && authenticated && EarlyChecksPass(form) && MissingIn(form, RequiredFields) == []
              && UnitsInRange(form) && Models.PhoneMatches(form.phoneNumber) && !InPast(appointmentAt, now)
    ensures r.Err? && r.error.MissingRequired? ==>
              r.error.labels == MissingIn(form, RequiredFields) && r.error.labels != []
    ensures r.Err? && r.error == UnitsOutOfRange ==>
              MissingIn(form, RequiredFields) == []
              && !(ParseInt(form.bloodUnits).Some? && 1 <= ParseInt(form.bloodUnits).value <= 10)
    ensures r.Err? && r.error == InvalidPhoneNumber ==> !Models.PhoneMatches(form.phoneNumber)
    ensures r.Err? && r.error == AppointmentInPast ==> appointmentAt.Some? && appointmentAt.value < now
    ensures r.Ok? ==>
      && authenticated
      && MissingIn(form, RequiredFields) == []
      && ParseInt(form.bloodUnits) == Some(r.value.bloodUnits) && 1 <= r.value.bloodUnits <= 10
      && Models.PhoneMatches(form.phoneNumber) && r.value.phoneNumber == form.phoneNumber
      && !(appointmentAt.Some? && appointmentAt.value < now)
      && r.value.urgencyLevel == GetUrgencyLevel(form.urgency)
      && r.value.isEmergency == IsEmergency(form.urgency)
      && r.value.bloodGroup == form.bloodGroup && r.value.appointmentDate == form.appointmentDate
      && r.value.district == form.district && r.value.hospitalName == form.hospitalName
      && r.value.description == form.description
  {
    if !authenticated {
      return Err(NotAuthenticated);
    }
    if form.bloodGroup == "" {
      return Err(NoBloodGroup);
    }
    if form.appointmentDate == "" {
      return Err(NoAppointmentDate);
    }
    if Trim(form.phoneNumber) == "" {
      return Err(NoPhoneNumber);
    }
    if Trim(form.bloodUnits) == "" {
      return Err(NoBloodUnits);
    }
    if Trim(form.district) == "" {
      return Err(NoDistrict);
    }
    if Trim(form.hospitalName) == "" {
      return Err(NoHospitalName);
    }
    var missing := MissingFields(form);
    if |missing| > 0 {
      return Err(MissingRequired(missing));
    }
    var units := ParseInt(form.bloodUnits);
    if units.None? || units.value < 1 || units.value > 10 {
      return Err(UnitsOutOfRange);
    }
    if !Models.PhoneMatches(form.phoneNumber) {
      return Err(InvalidPhoneNumber);
    }
    if appointmentAt.Some? && appointmentAt.value < now {
      return Err(AppointmentInPast);
    }
    var level := GetUrgencyLevel(form.urgency);
    r := Ok(RequestData(form.bloodGroup, units.value, form.appointmentDate, form.phoneNumber,
                        form.district, form.hospitalName, form.description, level, form.urgency == "critical"));
  }
}
