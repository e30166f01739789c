/** The client-side appointment list (frontend/src/hooks/useAppointments.ts):
    the fetch effect filters the seed list by role, `createAppointment`
    appends a stamped record and `updateAppointment` merges changes into the
    records with a given id. The seed list, the generated id and the clock
    are parameters; dates are kept as their text. */
module UseAppointments {
  import opened Support

  /** An appointment as the client types declare it. */
  datatype ClientAppointment = ClientAppointment(
    id: string, patientId: string, patientName: string, patientEmail: string, patientPhone: string,
    doctorId: string, doctorName: string, date: string, startTime: string, endTime: string,
    status: string, reason: string, notes: Option<string>, symptoms: Option<string>,
    diagnosis: Option<string>, prescription: Option<string>, createdAt: int, updatedAt: int)

  /** A `Partial<Appointment>`: the fields present in the update object. */
  datatype Changes = Changes(
    id: Option<string>, patientId: Option<string>, patientName: Option<string>,
    patientEmail: Option<string>, patientPhone: Option<string>, doctorId: Option<string>,
    doctorName: Option<string>, date: Option<string>, startTime: Option<string>,
    endTime: Option<string>, status: Option<string>, reason: Option<string>,
    notes: Option<string>, symptoms: Option<string>, diagnosis: Option<string>,
    prescription: Option<string>, createdAt: Option<int>, updatedAt: Option<int>)

  function Or<T>(top: Option<T>, base: T): T
  {
    if top.Some? then top.value else base
  }

  function OrOpt<T>(top: Option<T>, base: Option<T>): Option<T>
  {
    if top.Some? then top else base
  }

  /** `{ ...apt, ...updates, updatedAt: now }`. */
  function Merge(a: ClientAppointment, c: Changes, now: int): ClientAppointment
  {
    ClientAppointment(
      Or(c.id, a.id), Or(c.patientId, a.patientId), Or(c.patientName, a.patientName),
      Or(c.patientEmail, a.patientEmail), Or(c.patientPhone, a.patientPhone),
      Or(c.doctorId, a.doctorId), Or(c.doctorName, a.doctorName), Or(c.date, a.date),
      Or(c.startTime, a.startTime), Or(c.endTime, a.endTime), Or(c.status, a.status),
      Or(c.reason, a.reason), OrOpt(c.notes, a.notes), OrOpt(c.symptoms, a.symptoms),
      OrOpt(c.diagnosis, a.diagnosis), OrOpt(c.prescription, a.prescription),
      Or(c.createdAt, a.createdAt), now)
  }

  /** A merge takes each field the changes carry, keeps every other field,
      and always refreshes `updatedAt`. */
  lemma MergeFields(a: ClientAppointment, c: Changes, now: int)
    ensures var b := Merge(a, c, now);
      (c.id.Some? ==> b.id == c.id.value) && (c.id.None? ==> b.id == a.id) &&
      (c.patientId.Some? ==> b.patientId == c.patientId.value) && (c.patientId.None? ==> b.patientId == a.patientId) &&
      (c.patientName.Some? ==> b.patientName == c.patientName.value) &&
      (c.patientName.None? ==> b.patientName == a.patientName) &&
      (c.patientEmail.Some? ==> b.patientEmail == c.patientEmail.value) &&
      (c.patientEmail.None? ==> b.patientEmail == a.patientEmail) &&
      (c.patientPhone.Some? ==> b.patientPhone == c.patientPhone.value) &&
      (c.patientPhone.None? ==> b.patientPhone == a.patientPhone)
    ensures var b := Merge(a, c, now);
      (c.doctorId.Some? ==> b.doctorId == c.doctorId.value) && (c.doctorId.None? ==> b.doctorId == a.doctorId) &&
      (c.doctorName.Some? ==> b.doctorName == c.doctorName.value) &&
      (c.doctorName.None? ==> b.doctorName == a.doctorName) &&
      (c.date.Some? ==> b.date == c.date.value) && (c.date.None? ==> b.date == a.date) &&
      (c.startTime.Some? ==> b.startTime == c.startTime.value) && (c.startTime.None? ==> b.startTime == a.startTime) &&
      (c.endTime.Some? ==> b.endTime == c.endTime.value) && (c.endTime.None? ==> b.endTime == a.endTime)
    ensures var b := Merge(a, c, now);
      (c.status.Some? ==> b.status == c.status.value) && (c.status.None? ==> b.status == a.status) &&
      (c.reason.Some? ==> b.reason == c.reason.value) && (c.reason.None? ==> b.reason == a.reason) &&
      (c.notes.Some? ==> b.notes == c.notes) && (c.notes.None? ==> b.notes == a.notes) &&
      (c.symptoms.Some? ==> b.symptoms == c.symptoms) && (c.symptoms.None? ==> b.symptoms == a.symptoms) &&
      (c.diagnosis.Some? ==> b.diagnosis == c.diagnosis) && (c.diagnosis.None? ==> b.diagnosis == a.diagnosis) &&
      (c.prescription.Some? ==> b.prescription == c.prescription) &&
      (c.prescription.None? ==> b.prescription == a.prescription)
    ensures var b := Merge(a, c, now);
      (c.createdAt.Some? ==> b.createdAt == c.createdAt.value) && (c.createdAt.None? ==> b.createdAt == a.createdAt) &&
      b.updatedAt == now &&
      (c == NoChanges ==> b == a.(updatedAt := now))
  {
  }

  const NoChanges := Changes(None, None, None, None, None, None, None, None, None,
                             None, None, None, None, None, None, None, None, None)

  /** Merging twice with the same changes is merging once. */
  lemma MergeIdempotent(a: ClientAppointment, c: Changes, now: int)
    ensures Merge(Merge(a, c, now), c, now) == Merge(a, c, now)
  {
  }

  /** The records a role sees: a patient its own, a doctor its own, and
      without a role or an id every record. */
  predicate Visible(a: ClientAppointment, userId: Option<string>, role: Option<string>)
  {
    if role == Some("patient") && userId.Some? && userId.value != "" then a.patientId == userId.value
    else if role == Some("doctor") && userId.Some? && userId.value != "" then a.doctorId == userId.value
    else true
  }

  /** `filter` with a field test: the records whose field equals `id`, in order. */
  function KeepOwned(s: seq<ClientAppointment>, byPatient: bool, id: string): (r: seq<ClientAppointment>)
    ensures forall a :: a in r <==> a in s && (if byPatient then a.patientId else a.doctorId) == id
    ensures forall a :: multiset(r)[a] == (if (if byPatient then a.patientId else a.doctorId) == id
                                           then multiset(s)[a] else 0)
  {
    if s == [] then []
    else
      var rest := KeepOwned(s[1..], byPatient, id);
      assert s == [s[0]] + s[1..];
      if (if byPatient then s[0].patientId else s[0].doctorId) == id then [s[0]] + rest else rest
  }

  class AppointmentsHook {
    var appointments: seq<ClientAppointment>
    var isLoading: bool

    constructor ()
      ensures appointments == [] && isLoading
    {
      appointments := [];
      isLoading := true;
    }

    /** The fetch effect over the seed list `source`. */
    method Fetch(source: seq<ClientAppointment>, userId: Option<string>, role: Option<string>)
      modifies this
      ensures !isLoading
      ensures forall a :: a in appointments <==> a in source && Visible(a, userId, role)
      ensures forall a :: multiset(appointments)[a] == if Visible(a, userId, role) then multiset(source)[a] else 0
      ensures role == Some("patient") && userId.Some? && userId.value != "" ==>
        appointments == KeepOwned(source, true, userId.value)
      ensures role == Some("doctor") && userId.Some? && userId.value != "" ==>
        appointments == KeepOwned(source, false, userId.value)
      ensures (role != Some("patient") && role != Some("doctor")) || userId.None? || userId.value == "" ==>
        appointments == source
    {
      isLoading := true;
      var filtered := source;
      if role == Some("patient") && userId.Some? && userId.value != "" {
        filtered := KeepOwned(filtered, true, userId.value);
      } else if role == Some("doctor") && userId.Some? && userId.value != "" {
        filtered := KeepOwned(filtered, false, userId.value);
      }
      appointments := filtered;
      isLoading := false;
    }

    /** `createAppointment`: the draft with a new id and both timestamps set,
        appended after every existing record. */
    method CreateAppointment(draft: ClientAppointment, newId: string, now: int) returns (a: ClientAppointment)
      modifies this
      ensures a == draft.(id := newId, createdAt := now, updatedAt := now)
      ensures appointments == old(appointments) + [a]
      ensures isLoading == old(isLoading)
    {
      a := draft.(id := newId, createdAt := now, updatedAt := now);
      appointments := appointments + [a];
    }

    /** `updateAppointment`: every record with the id is merged with the
        changes; every other record stays as it was. */
    method UpdateAppointment(id: string, updates: Changes, now: int)
      modifies this
      ensures |appointments| == |old(appointments)|
      ensures forall i :: 0 <= i < |appointments| ==>
        appointments[i] == if old(appointments)[i].id == id then Merge(old(appointments)[i], updates, now)
                           else old(appointments)[i]
      ensures appointments == UpdatedList(old(appointments), id, updates, now)
      ensures isLoading == old(isLoading)
    {
      appointments := UpdatedList(appointments, id, updates, now);
    }
  }

  /** `prev.map(apt => apt._id === id ? merged : apt)`. */
  function UpdatedList(s: seq<ClientAppointment>, id: string, updates: Changes, now: int): seq<ClientAppointment>
  {
    seq(|s|, i requires 0 <= i < |s| => if s[i].id == id then Merge(s[i], updates, now) else s[i])
  }

  /** An update with an id no record has leaves the list unchanged. */
  lemma UnknownIdChangesNothing(s: seq<ClientAppointment>, id: string, updates: Changes, now: int)
    requires forall a :: a in s ==> a.id != id
    ensures UpdatedList(s, id, updates, now) == s
  {
  }

  /** Only the records with the id change, and each becomes its merge. */
  lemma UpdatedListChanges(s: seq<ClientAppointment>, id: string, updates: Changes, now: int)
    ensures var r := UpdatedList(s, id, updates, now);
      |r| == |s| &&
      (forall i :: 0 <= i < |s| && r[i] != s[i] ==> s[i].id == id) &&
      (forall i :: 0 <= i < |s| && s[i].id == id ==> r[i] == Merge(s[i], updates, now) && r[i].updatedAt == now)
  {
  }
}
