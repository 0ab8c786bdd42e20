/**
 * The Mongoose `Hospital` model: the request body as the handlers receive it, the
 * record `hospital.create` stores (defaults filled in, validators applied), and the
 * update `findByIdAndUpdate` performs, which runs no validators.
 */
module HospitalModel {
  import opened Wrappers
  import opened UserModel

  /** A document's `_id`. */
  type HospitalId = nat

  /** A request body: the paths the schema declares, each possibly absent. Keys the
      schema does not declare are dropped by it. The paths Mongoose adds itself (`_id`,
      and `createdAt`/`updatedAt` from `timestamps`) are not carried: the server always
      draws the id. */
  datatype HospitalBody = HospitalBody(
    hospitalName: Option<string>,
    phoneNumber: Option<string>,
    address: Option<string>,
    city: Option<string>,
    pincode: Option<string>,
    state: Option<string>,
    registrationFees: Option<int>,
    hospitalType: Option<string>,
    description: Option<string>,
    establishedYear: Option<int>,
    emergencyAvailable: Option<bool>,
    ambulanceAvailable: Option<bool>,
    specialities: Option<seq<string>>,
    doctor: Option<UserId>)

  /** A stored hospital. `hospitalType` stays a string: an update can store any string there. */
  datatype Hospital = Hospital(
    hospitalName: string,
    phoneNumber: string,
    address: string,
    city: string,
    pincode: string,
    state: string,
    registrationFees: int,
    hospitalType: string,
    description: Option<string>,
    establishedYear: Option<int>,
    emergencyAvailable: bool,
    ambulanceAvailable: bool,
    specialities: seq<string>,
    doctor: UserId)

  /** The `hospitalType` enum. */
  predicate IsHospitalType(s: string)
  {
    s == "Government" || s == "Private" || s == "Clinic"
  }

  /** The schema's validators, applied to a request body. `description` and
      `establishedYear` are optional; the two flags and `specialities` have defaults, and
      the empty list a missing `specialities` defaults to satisfies `required`. */
  predicate AdmitsBody(body: HospitalBody)
  {
    && Present(body.hospitalName)
    && Present(body.phoneNumber)
    && Present(body.address)
    && Present(body.city)
    && Present(body.pincode)
    && Present(body.state)
    && body.registrationFees.Some?
    && body.hospitalType.Some? && IsHospitalType(body.hospitalType.value)
  }

  /** The schema's constraints on a stored record. */
  predicate ValidHospital(h: Hospital)
  {
    && h.hospitalName != "" && h.phoneNumber != "" && h.address != ""
    && h.city != "" && h.pincode != "" && h.state != ""
    && IsHospitalType(h.hospitalType)
  }

  /** `hospital.create({ ...body, doctor })`: defaults filled in, then validated; None is
      the validation error `create` throws. The `doctor` the caller passes replaces any in
      the body. */
  function CreateHospital(body: HospitalBody, doctor: UserId): (r: Option<Hospital>)
    ensures r.Some? <==> AdmitsBody(body)
    ensures r.Some? ==> ValidHospital(r.value) && r.value.doctor == doctor
    ensures r.Some? ==> r.value.hospitalName == body.hospitalName.value && r.value.hospitalType == body.hospitalType.value
  {
    if !AdmitsBody(body) then None
    else Some(Hospital(
      body.hospitalName.value,
      body.phoneNumber.value,
      body.address.value,
      body.city.value,
      body.pincode.value,
      body.state.value,
      body.registrationFees.value,
      body.hospitalType.value,
      body.description,
      body.establishedYear,
      if body.emergencyAvailable.Some? then body.emergencyAvailable.value else false,
      if body.ambulanceAvailable.Some? then body.ambulanceAvailable.value else false,
      if body.specialities.Some? then body.specialities.value else [],
      doctor))
  }

  /** Whatever `doctor` the body names, the stored record names the caller. */
  lemma BodyDoctorIsIgnored(body: HospitalBody, claimed: UserId, caller: UserId)
    ensures CreateHospital(body.(doctor := Some(claimed)), caller) == CreateHospital(body, caller)
  {
  }

  /** The two availability flags default to false and the specialities to the empty list. */
  lemma OmittedFieldsTakeDefaults(body: HospitalBody, doctor: UserId)
    requires AdmitsBody(body)
    requires body.emergencyAvailable.None? && body.ambulanceAvailable.None? && body.specialities.None?
    ensures var h := CreateHospital(body, doctor).value;
      !h.emergencyAvailable && !h.ambulanceAvailable && h.specialities == []
  {
  }

  /** Leaving out `description` or `establishedYear` never makes a body invalid. */
  lemma OptionalFieldsAreOptional(body: HospitalBody, doctor: UserId)
    ensures CreateHospital(body.(description := None, establishedYear := None), doctor).Some?
        <==> CreateHospital(body, doctor).Some?
  {
  }

  /** `findByIdAndUpdate(id, body)`: each path the body names is overwritten and the rest
      kept. No validator runs. */
  function ApplyUpdate(h: Hospital, body: HospitalBody): Hospital
  {
    Hospital(
      if body.hospitalName.Some? then body.hospitalName.value else h.hospitalName,
      if body.phoneNumber.Some? then body.phoneNumber.value else h.phoneNumber,
      if body.address.Some? then body.address.value else h.address,
      if body.city.Some? then body.city.value else h.city,
      if body.pincode.Some? then body.pincode.value else h.pincode,
      if body.state.Some? then body.state.value else h.state,
      if body.registrationFees.Some? then body.registrationFees.value else h.registrationFees,
      if body.hospitalType.Some? then body.hospitalType.value else h.hospitalType,
      if body.description.Some? then body.description else h.description,
      if body.establishedYear.Some? then body.establishedYear else h.establishedYear,
      if body.emergencyAvailable.Some? then body.emergencyAvailable.value else h.emergencyAvailable,
      if body.ambulanceAvailable.Some? then body.ambulanceAvailable.value else h.ambulanceAvailable,
      if body.specialities.Some? then body.specialities.value else h.specialities,
      if body.doctor.Some? then body.doctor.value else h.doctor)
  }

  /** The body that names no path. */
  const EmptyBody := HospitalBody(None, None, None, None, None, None, None, None, None, None, None, None, None, None)

  lemma EmptyUpdateChangesNothing(h: Hospital)
    ensures ApplyUpdate(h, EmptyBody) == h
  {
  }

  /** An update of a valid record by a body the schema would admit keeps it valid. */
  lemma AdmittedUpdateKeepsValidity(h: Hospital, body: HospitalBody)
    requires ValidHospital(h) && AdmitsBody(body)
    ensures ValidHospital(ApplyUpdate(h, body))
  {
  }

  /** Because the update runs no validator, it can store a record the schema forbids. */
  lemma UpdateCanBreakSchema(h: Hospital)
    requires ValidHospital(h)
    ensures !ValidHospital(ApplyUpdate(h, EmptyBody.(hospitalType := Some("Hotel"))))
  {
  }

  /** Because the update has no ownership check, it can move a hospital to another doctor. */
  lemma UpdateCanReassignDoctor(h: Hospital, other: UserId)
    ensures ApplyUpdate(h, EmptyBody.(doctor := Some(other))).doctor == other
  {
  }
}
