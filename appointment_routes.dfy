/** The appointment routes (frontend/server/src/routes/appointments.js) over
    the appointment collection. The authenticated requester and the user
    collection the handlers read (`User.findById`, `populate`) are
    parameters; a fresh document id and the clock are parameters too. */
module AppointmentRoutes {
  import opened Support
  import opened Validation
  import opened AppointmentModel
  import AuthRoutes

  type User = AuthRoutes.User

  datatype Response =
    | Listed(appointments: seq<Appointment>)     // 200
    | Shown(appointment: Appointment)            // 200
    | Created(appointment: Appointment)          // 201
    | Updated(appointment: Appointment)          // 200
    | Deleted                                    // 200, 'Appointment deleted successfully'
    | Refused(status: int, message: string)
    | RoleRequired                               // 403 from `requireRole(['patient'])`

  const ViewOwnOnly := "Access denied. You can only view your own appointments."
  const UpdateOwnOnly := "Access denied. You can only update your own appointments."
  const DeleteOwnOnly := "Access denied. You can only delete your own appointments."
  const InvalidRole := "Invalid user role"
  const InvalidDoctor := "Invalid doctor selected"
  const SlotTaken := "Time slot is already booked"
  const NotFound := "Appointment not found"
  const ListFailed := "Server error while fetching appointments"
  const CreateFailed := "Server error while creating appointment"
  const UpdateFailed := "Server error while updating appointment"
  const GetFailed := "Server error while fetching appointment"

  // ---------------------------------------------------------------------------
  // Queries

  /** `Appointment.findById(id)`: the index of the document with that id, or -1. */
  function IndexOf(records: seq<Appointment>, id: Id): (i: int)
    ensures -1 <= i < |records|
    ensures i >= 0 ==> records[i].id == id
    ensures i == -1 <==> forall j :: 0 <= j < |records| ==> records[j].id != id
  {
    if records == [] then -1
    else if records[0].id == id then 0
    else
      var k := IndexOf(records[1..], id);
      if k == -1 then -1 else k + 1
  }

  /** The conflict query of a booking: a scheduled appointment of the same
      doctor on the same date whose interval overlaps the requested one, both
      compared in the store's string order. */
  predicate Conflicts(r: Appointment, doctorId: Id, date: Date, start: string, end: string)
  {
    r.doctorId == doctorId && r.date == date && r.status == Scheduled &&
    StrLess(r.startTime, end) && StrLess(start, r.endTime)
  }

  /** `Appointment.findOne(conflict query)`: the first conflicting document, or -1. */
  function FindConflict(records: seq<Appointment>, doctorId: Id, date: Date, start: string, end: string): (k: int)
    ensures -1 <= k < |records|
    ensures k >= 0 ==> Conflicts(records[k], doctorId, date, start, end)
    ensures k >= 0 ==> forall j :: 0 <= j < k ==> !Conflicts(records[j], doctorId, date, start, end)
    ensures k == -1 <==> forall j :: 0 <= j < |records| ==> !Conflicts(records[j], doctorId, date, start, end)
  {
    if records == [] then -1
    else if Conflicts(records[0], doctorId, date, start, end) then 0
    else
      var k := FindConflict(records[1..], doctorId, date, start, end);
      if k == -1 then -1 else k + 1
  }

  /** Two scheduled appointments of one doctor on one date whose intervals overlap. */
  predicate Clash(a: Appointment, b: Appointment)
  {
    a.status == Scheduled && Conflicts(b, a.doctorId, a.date, a.startTime, a.endTime)
  }

  /** The booking invariant: no two stored appointments clash. */
  predicate NoDoubleBooking(rs: seq<Appointment>)
  {
    forall i, j :: 0 <= i < |rs| && 0 <= j < |rs| && i != j ==> !Clash(rs[i], rs[j])
  }

  /** Both references of a document resolve to users, as `populate` needs:
      the handlers read `patientId._id` and `doctorId._id` of the result. */
  predicate Populated(users: seq<User>, a: Appointment)
  {
    AuthRoutes.FindById(users, Some(a.patientId)).Some? && AuthRoutes.FindById(users, Some(a.doctorId)).Some?
  }

  /** The response mapping reads both references of every listed document. */
  predicate AllPopulated(users: seq<User>, s: seq<Appointment>)
    ensures AllPopulated(users, s) <==> forall k :: 0 <= k < |s| ==> Populated(users, s[k])
  {
    s == [] || (Populated(users, s[0]) && AllPopulated(users, s[1..]))
  }

  /** The rule shared by update and delete (and, for patients, viewing):
      any doctor, or the patient the appointment belongs to. */
  predicate MayModify(req: User, a: Appointment)
  {
    req.role == "doctor" || (req.role == "patient" && a.patientId == req.id)
  }

  // ---------------------------------------------------------------------------
  // Listing

  /** The optional query parameters of `GET /`; an absent or empty one does
      not filter. */
  datatype ListQuery = ListQuery(userId: Option<Id>, status: Option<string>,
                                 startDate: Option<Date>, endDate: Option<Date>)

  predicate Given(o: Option<string>) { o.Some? && o.value != "" }

  /** The filter the handler builds. The role decides the owner path; the
      status filter compares the stored name; the date range is inclusive. */
  predicate Selected(req: User, q: ListQuery, a: Appointment)
  {
    (if req.role == "patient" then a.patientId == req.id else a.doctorId == req.id) &&
    (Given(q.status) ==> StatusName(a.status) == q.status.value) &&
    (q.startDate.Some? ==> q.startDate.value <= a.date) &&
    (q.endDate.Some? ==> a.date <= q.endDate.value)
  }

  function Select(rs: seq<Appointment>, req: User, q: ListQuery): (r: seq<Appointment>)
    ensures forall a :: a in r <==> a in rs && Selected(req, q, a)
    ensures forall a :: multiset(r)[a] == if Selected(req, q, a) then multiset(rs)[a] else 0
  {
    if rs == [] then []
    else
      var rest := Select(rs[1..], req, q);
      assert rs == [rs[0]] + rs[1..];
      if Selected(req, q, rs[0]) then [rs[0]] + rest else rest
  }

  /** `sort({ date: -1, startTime: 1 })`: later dates first, and on one
      date the earlier start time (in string order) first. */
  predicate ListBefore(a: Appointment, b: Appointment)
  {
    a.date > b.date || (a.date == b.date && !StrLess(b.startTime, a.startTime))
  }

  predicate ListSorted(s: seq<Appointment>)
  {
    forall i, j :: 0 <= i < j < |s| ==> ListBefore(s[i], s[j])
  }

  lemma ListBeforeTotal(a: Appointment, b: Appointment)
    ensures ListBefore(a, b) || ListBefore(b, a)
  {
    if a.date == b.date && StrLess(b.startTime, a.startTime) {
      StrLessAsymmetric(b.startTime, a.startTime);
    }
  }

  lemma ListBeforeTransitive(a: Appointment, b: Appointment, c: Appointment)
    requires ListBefore(a, b) && ListBefore(b, c)
    ensures ListBefore(a, c)
  {
    if a.date == b.date && b.date == c.date {
      if a.startTime != b.startTime { StrLessTotal(a.startTime, b.startTime); }
      if b.startTime != c.startTime { StrLessTotal(b.startTime, c.startTime); }
      if a.startTime != b.startTime && b.startTime != c.startTime {
        StrLessTransitive(a.startTime, b.startTime, c.startTime);
      }
      if StrLess(c.startTime, a.startTime) {
        if a.startTime == c.startTime {
          StrLessIrreflexive(a.startTime);
        } else {
          StrLessAsymmetric(c.startTime, a.startTime);
        }
      }
    }
  }

  /** A document ordered before every member of a sorted listing can head it. */
  lemma SortedCons(y: Appointment, s: seq<Appointment>)
    requires ListSorted(s) && forall z :: z in s ==> ListBefore(y, z)
    ensures ListSorted([y] + s)
  {
    var r := [y] + s;
    forall i, j | 0 <= i < j < |r|
      ensures ListBefore(r[i], r[j])
    {
      assert r[j] == s[j - 1];
      if i == 0 {
        assert s[j - 1] in s;
      } else {
        assert r[i] == s[i - 1];
      }
    }
  }

  /** A document ordered before the head of a sorted listing can head it. */
  lemma InsertFirst(x: Appointment, s: seq<Appointment>)
    requires ListSorted(s) && s != [] && ListBefore(x, s[0])
    ensures ListSorted([x] + s)
  {
    forall z | z in s
      ensures ListBefore(x, z)
    {
      var j :| 0 <= j < |s| && s[j] == z;
      if j > 0 {
        ListBeforeTransitive(x, s[0], s[j]);
      }
    }
    SortedCons(x, s);
  }

  /** A document not ordered before the head goes into the tail. */
  lemma InsertLater(x: Appointment, s: seq<Appointment>, rest: seq<Appointment>)
    requires ListSorted(s) && s != [] && !ListBefore(x, s[0])
    requires ListSorted(rest) && multiset(rest) == multiset(s[1..]) + multiset{x}
    ensures ListSorted([s[0]] + rest)
    ensures multiset([s[0]] + rest) == multiset(s) + multiset{x}
  {
    var t := s[1..];
    ListBeforeTotal(x, s[0]);
    assert s == [s[0]] + t;
    forall y | y in rest
      ensures ListBefore(s[0], y)
    {
      assert y in multiset(rest);
      if y != x {
        var j :| 0 <= j < |t| && t[j] == y;
        assert s[j + 1] == y;
      }
    }
    SortedCons(s[0], rest);
  }

  function Insert(x: Appointment, s: seq<Appointment>): (r: seq<Appointment>)
    requires ListSorted(s)
    ensures ListSorted(r)
    ensures multiset(r) == multiset(s) + multiset{x}
  {
    if s == [] then [x]
    else if ListBefore(x, s[0]) then
      InsertFirst(x, s);
      [x] + s
    else
      var rest := Insert(x, s[1..]);
      InsertLater(x, s, rest);
      [s[0]] + rest
  }

  /** The listing order, as an insertion sort. */
  function SortForList(s: seq<Appointment>): (r: seq<Appointment>)
    ensures ListSorted(r)
    ensures multiset(r) == multiset(s)
  {
    if s == [] then []
    else
      assert s == [s[0]] + s[1..];
      Insert(s[0], SortForList(s[1..]))
  }

  // ---------------------------------------------------------------------------
  // The booking fields

  /** The document data of a booking: the body, with the patient paths
      forced to the requester and the doctor's name taken from the doctor's
      user record. */
  function BookingFields(req: User, body: Fields, doctor: User): (f: Fields)
    ensures f.patientId == Some(req.id) && f.patientName == Some(req.name)
    ensures f.patientEmail == Some(req.email) && f.doctorName == Some(doctor.name)
    ensures f.doctorId == body.doctorId && f.date == body.date
    ensures f.startTime == body.startTime && f.endTime == body.endTime && f.status == body.status
  {
    body.(patientId := Some(req.id), patientName := Some(req.name),
          patientEmail := Some(req.email), doctorName := Some(doctor.name))
  }

  predicate DoctorOk(users: seq<User>, body: Fields)
  {
    var d := AuthRoutes.FindById(users, body.doctorId);
    d.Some? && d.value.role == "doctor"
  }

  predicate SlotGiven(body: Fields)
  {
    body.doctorId.Some? && body.date.Some? && body.startTime.Some? && body.endTime.Some?
  }

  predicate SlotFree(records: seq<Appointment>, body: Fields)
    requires SlotGiven(body)
  {
    FindConflict(records, body.doctorId.value, body.date.value, body.startTime.value, body.endTime.value) == -1
  }

  predicate UniqueIds(rs: seq<Appointment>)
  {
    forall i, j :: 0 <= i < j < |rs| ==> rs[i].id != rs[j].id
  }

  lemma AppendKeepsUniqueIds(rs: seq<Appointment>, x: Appointment)
    requires UniqueIds(rs) && forall a :: a in rs ==> a.id != x.id
    ensures UniqueIds(rs + [x])
  {
    var t := rs + [x];
    forall i, j | 0 <= i < j < |t| ensures t[i].id != t[j].id {
      assert t[i] == rs[i];
      if j < |rs| { assert t[j] == rs[j]; } else { assert rs[i] in rs; }
    }
  }

  lemma ReplaceKeepsUniqueIds(rs: seq<Appointment>, i: nat, x: Appointment)
    requires i < |rs| && UniqueIds(rs) && x.id == rs[i].id
    ensures UniqueIds(rs[i := x])
  {
    var t := rs[i := x];
    forall p, q | 0 <= p < q < |t| ensures t[p].id != t[q].id {
      assert t[p].id == rs[p].id && t[q].id == rs[q].id;
    }
  }

  /** Every document in `rs` passed the schema. */
  predicate AllValid(rs: seq<Appointment>)
  {
    forall a :: a in rs ==> AppointmentModel.Valid(a)
  }

  lemma AllValidAppend(rs: seq<Appointment>, x: Appointment)
    requires AllValid(rs) && AppointmentModel.Valid(x)
    ensures AllValid(rs + [x])
  {
  }

  lemma AllValidRemove(rs: seq<Appointment>, i: nat)
    requires i < |rs| && AllValid(rs)
    ensures AllValid(rs[..i] + rs[i + 1..])
  {
    var t := rs[..i] + rs[i + 1..];
    forall a | a in t ensures a in rs {
      var p :| 0 <= p < |t| && t[p] == a;
      if p < i { assert t[p] == rs[p]; } else { assert t[p] == rs[p + 1]; }
    }
  }

  lemma AllValidReplace(rs: seq<Appointment>, i: nat, x: Appointment)
    requires i < |rs| && AllValid(rs) && AppointmentModel.Valid(x)
    ensures AllValid(rs[i := x])
  {
    var t := rs[i := x];
    forall a | a in t ensures AppointmentModel.Valid(a) {
      var p :| 0 <= p < |t| && t[p] == a;
      if p != i { assert rs[p] == a; assert a in rs; } else { assert a == x; }
    }
  }

  /** The documents `GET /` answers with, in the order it answers. */
  function Listing(records: seq<Appointment>, req: User, q: ListQuery): seq<Appointment>
  {
    SortForList(Select(records, req, q))
  }

  /** The listing holds exactly the selected documents, each as often as
      stored, in the listing order. */
  lemma ListingContents(records: seq<Appointment>, req: User, q: ListQuery)
    ensures forall a :: a in Listing(records, req, q) <==> a in records && Selected(req, q, a)
    ensures multiset(Listing(records, req, q)) == multiset(Select(records, req, q))
    ensures forall a :: multiset(Listing(records, req, q))[a] ==
                        (if Selected(req, q, a) then multiset(records)[a] else 0)
    ensures ListSorted(Listing(records, req, q))
  {
    var l := Listing(records, req, q);
    forall a ensures a in l <==> a in Select(records, req, q) {
      assert a in l <==> a in multiset(l);
    }
  }

  /** A patient sees only their own appointments, a doctor only theirs. */
  lemma ListingIsOwn(records: seq<Appointment>, req: User, q: ListQuery, a: Appointment)
    requires a in Listing(records, req, q)
    ensures req.role == "patient" ==> a.patientId == req.id
    ensures req.role != "patient" ==> a.doctorId == req.id
  {
    ListingContents(records, req, q);
  }

  /** The appointment collection. */
  class AppointmentStore {
    var records: seq<Appointment>

    /** Every stored document passed the schema and ids are unique. The
        booking invariant `NoDoubleBooking` is kept apart: create and delete
        preserve it, an update can break it (`UpdateMayDoubleBook`). */
    predicate Valid()
      reads this
    {
      AllValid(records) &&
      UniqueIds(records)
    }

    constructor ()
      ensures Valid() && records == []
    {
      records := [];
    }

    /** `GET /`: the requester's appointments, filtered and sorted; see
        `ListingContents` for what the listing holds. */
    method List(req: User, q: ListQuery, users: seq<User>) returns (r: Response)
      ensures Given(q.userId) && q.userId.value != req.id ==> r == Refused(403, ViewOwnOnly)
      ensures !(Given(q.userId) && q.userId.value != req.id) && req.role != "patient" && req.role != "doctor" ==>
        r == Refused(403, InvalidRole)
      ensures r.Listed? ==>
        !(Given(q.userId) && q.userId.value != req.id) && (req.role == "patient" || req.role == "doctor") &&
        r.appointments == Listing(records, req, q)
      ensures !(Given(q.userId) && q.userId.value != req.id) && (req.role == "patient" || req.role == "doctor") &&
              AllPopulated(users, Listing(records, req, q)) ==>
        r == Listed(Listing(records, req, q))
      ensures r.Listed? || r.Refused?
      ensures r.Refused? && r.status == 500 <==>
        !(Given(q.userId) && q.userId.value != req.id) && (req.role == "patient" || req.role == "doctor") &&
        !AllPopulated(users, Listing(records, req, q))
      ensures r.Refused? && r.status == 500 ==> r.message == ListFailed
    {
      if Given(q.userId) && q.userId.value != req.id {
        return Refused(403, ViewOwnOnly);
      }
      if req.role != "patient" && req.role != "doctor" {
        return Refused(403, InvalidRole);
      }
      var found := Listing(records, req, q);
      if !AllPopulated(users, found) {
        return Refused(500, ListFailed);
      }
      r := Listed(found);
    }

    /** `GET /:id`. A patient's ownership is read through the populated
        patient reference, so a dangling one fails before the check. */
    method Get(id: Id, req: User, users: seq<User>) returns (r: Response)
      ensures IndexOf(records, id) == -1 ==> r == Refused(404, NotFound)
      ensures r.Shown? ==>
        IndexOf(records, id) >= 0 && r.appointment == records[IndexOf(records, id)] &&
        MayModify(req, r.appointment) && Populated(users, r.appointment)
      ensures r == Refused(403, ViewOwnOnly) ==>
        IndexOf(records, id) >= 0 && !MayModify(req, records[IndexOf(records, id)])
      ensures (IndexOf(records, id) >= 0 && MayModify(req, records[IndexOf(records, id)]) &&
               Populated(users, records[IndexOf(records, id)])) ==> r.Shown?
      ensures IndexOf(records, id) >= 0 ==> r != Refused(404, NotFound)
      ensures IndexOf(records, id) >= 0 && !MayModify(req, records[IndexOf(records, id)]) &&
              !(req.role == "patient" && AuthRoutes.FindById(users, Some(records[IndexOf(records, id)].patientId)).None?) ==>
        r == Refused(403, ViewOwnOnly)
      ensures r == Refused(500, GetFailed) <==>
        IndexOf(records, id) >= 0 &&
        ((req.role == "patient" && AuthRoutes.FindById(users, Some(records[IndexOf(records, id)].patientId)).None?) ||
         (MayModify(req, records[IndexOf(records, id)]) && !Populated(users, records[IndexOf(records, id)])))
      ensures r.Shown? || r == Refused(404, NotFound) || r == Refused(403, ViewOwnOnly) || r == Refused(500, GetFailed)
    {
      var i := IndexOf(records, id);
      if i == -1 {
        return Refused(404, NotFound);
      }
      var a := records[i];
      var patient := AuthRoutes.FindById(users, Some(a.patientId));
      if req.role == "patient" && patient.None? {
        return Refused(500, GetFailed);
      }
      if !MayModify(req, a) {
        return Refused(403, ViewOwnOnly);
      }
      if !Populated(users, a) {
        return Refused(500, GetFailed);
      }
      r := Shown(a);
    }

    /** `POST /` (patients only): book an appointment for the requester. */
    method Create(req: User, body: Fields, users: seq<User>, newId: Id, now: int) returns (r: Response)
      requires Valid()
      requires forall a :: a in records ==> a.id != newId
      modifies this
      ensures Valid() && (NoDoubleBooking(old(records)) ==> NoDoubleBooking(records))
      ensures req.role != "patient" ==> r == RoleRequired && records == old(records)
      ensures req.role == "patient" && !DoctorOk(users, body) ==>
        r == Refused(400, InvalidDoctor) && records == old(records)
      ensures req.role == "patient" && DoctorOk(users, body) && !SlotGiven(body) ==>
        r == Refused(500, CreateFailed) && records == old(records)
      ensures req.role == "patient" && DoctorOk(users, body) && SlotGiven(body) && !SlotFree(old(records), body) ==>
        r == Refused(400, SlotTaken) && records == old(records)
      ensures r.Created? ==>
        req.role == "patient" && DoctorOk(users, body) && SlotGiven(body) && SlotFree(old(records), body) &&
        records == old(records) + [r.appointment] && Populated(users, r.appointment)
      ensures req.role == "patient" && DoctorOk(users, body) && SlotGiven(body) && SlotFree(old(records), body) ==>
        var f := BookingFields(req, body, AuthRoutes.FindById(users, body.doctorId).value);
        var c := Cast(newId, f, now, now);
        (c.None? ==> r == Refused(500, CreateFailed) && records == old(records)) &&
        (c.Some? ==> records == old(records) + [c.value] &&
                     r == (if Populated(users, c.value) then Created(c.value) else Refused(500, CreateFailed)))
    {
      if req.role != "patient" {
        return RoleRequired;
      }
      var doctor := AuthRoutes.FindById(users, body.doctorId);
      if doctor.None? || doctor.value.role != "doctor" {
        return Refused(400, InvalidDoctor);
      }
      if !SlotGiven(body) {
        // the conflict query cannot cast the date, or the document lacks a
        // required path: either way the handler answers 500
        return Refused(500, CreateFailed);
      }
      var k := FindConflict(records, body.doctorId.value, body.date.value, body.startTime.value, body.endTime.value);
      if k >= 0 {
        return Refused(400, SlotTaken);
      }
      var c := Cast(newId, BookingFields(req, body, doctor.value), now, now);
      if c.None? {
        return Refused(500, CreateFailed);
      }
      if NoDoubleBooking(records) {
        BookingKeepsNoDoubleBooking(records, c.value);
      }
      AllValidAppend(records, c.value);
      AppendKeepsUniqueIds(records, c.value);
      records := records + [c.value];
      if Populated(users, c.value) {
        r := Created(c.value);
      } else {
        r := Refused(500, CreateFailed);
      }
    }

    /** `PUT /:id`: merge the body into the document and validate the
        result; no conflict check is made. */
    method Update(id: Id, req: User, body: Fields, users: seq<User>, now: int) returns (r: Response)
      requires Valid()
      modifies this
      ensures Valid()
      ensures IndexOf(old(records), id) == -1 ==> r == Refused(404, NotFound) && records == old(records)
      ensures IndexOf(old(records), id) >= 0 && !MayModify(req, old(records)[IndexOf(old(records), id)]) ==>
        r == Refused(403, UpdateOwnOnly) && records == old(records)
      ensures IndexOf(old(records), id) >= 0 && MayModify(req, old(records)[IndexOf(old(records), id)]) ==>
        var i := IndexOf(old(records), id);
        var a := old(records)[i];
        var c := Cast(a.id, Overlay(ToFields(a), body), a.createdAt, now);
        (c.None? ==> r == Refused(500, UpdateFailed) && records == old(records)) &&
        (c.Some? ==> records == old(records)[i := c.value] &&
                     r == (if Populated(users, c.value) then Updated(c.value) else Refused(500, UpdateFailed)))
      ensures |records| == |old(records)|
    {
      var i := IndexOf(records, id);
      if i == -1 {
        return Refused(404, NotFound);
      }
      var a := records[i];
      if !MayModify(req, a) {
        return Refused(403, UpdateOwnOnly);
      }
      var c := Cast(a.id, Overlay(ToFields(a), body), a.createdAt, now);
      if c.None? {
        return Refused(500, UpdateFailed);
      }
      AllValidReplace(records, i, c.value);
      ReplaceKeepsUniqueIds(records, i, c.value);
      records := records[i := c.value];
      if Populated(users, c.value) {
        r := Updated(c.value);
      } else {
        r := Refused(500, UpdateFailed);
      }
    }

    /** `DELETE /:id`. */
    method Delete(id: Id, req: User) returns (r: Response)
      requires Valid()
      modifies this
      ensures Valid() && (NoDoubleBooking(old(records)) ==> NoDoubleBooking(records))
      ensures IndexOf(old(records), id) == -1 ==> r == Refused(404, NotFound) && records == old(records)
      ensures IndexOf(old(records), id) >= 0 && !MayModify(req, old(records)[IndexOf(old(records), id)]) ==>
        r == Refused(403, DeleteOwnOnly) && records == old(records)
      ensures IndexOf(old(records), id) >= 0 && MayModify(req, old(records)[IndexOf(old(records), id)]) ==>
        var i := IndexOf(old(records), id);
        r == Deleted && records == old(records)[..i] + old(records)[i + 1..]
      ensures forall a :: a in records ==> a.id != id || r.Refused?
    {
      var i := IndexOf(records, id);
      if i == -1 {
        return Refused(404, NotFound);
      }
      if !MayModify(req, records[i]) {
        return Refused(403, DeleteOwnOnly);
      }
      if NoDoubleBooking(records) {
        RemovalKeepsNoDoubleBooking(records, i);
      }
      RemovalKeepsUniqueIds(records, i);
      AllValidRemove(records, i);
      records := records[..i] + records[i + 1..];
      r := Deleted;
    }
  }

  // ---------------------------------------------------------------------------
  // Properties of the booking invariant

  /** Appending a booking the conflict query let through keeps the invariant. */
  lemma BookingKeepsNoDoubleBooking(rs: seq<Appointment>, x: Appointment)
    requires NoDoubleBooking(rs)
    requires FindConflict(rs, x.doctorId, x.date, x.startTime, x.endTime) == -1
    ensures NoDoubleBooking(rs + [x])
  {
    var t := rs + [x];
    forall i, j | 0 <= i < |t| && 0 <= j < |t| && i != j ensures !Clash(t[i], t[j]) {
      if i == |rs| {
        assert !Conflicts(rs[j], x.doctorId, x.date, x.startTime, x.endTime);
      } else if j == |rs| {
        assert !Conflicts(rs[i], x.doctorId, x.date, x.startTime, x.endTime);
      } else {
        assert t[i] == rs[i] && t[j] == rs[j];
      }
    }
  }

  lemma RemovalKeepsNoDoubleBooking(rs: seq<Appointment>, i: nat)
    requires i < |rs| && NoDoubleBooking(rs)
    ensures NoDoubleBooking(rs[..i] + rs[i + 1..])
  {
    var t := rs[..i] + rs[i + 1..];
    forall p, q | 0 <= p < |t| && 0 <= q < |t| && p != q ensures !Clash(t[p], t[q]) {
      var p' := if p < i then p else p + 1;
      var q' := if q < i then q else q + 1;
      assert t[p] == rs[p'] && t[q] == rs[q'];
    }
  }

  lemma RemovalKeepsUniqueIds(rs: seq<Appointment>, i: nat)
    requires i < |rs|
    requires UniqueIds(rs)
    ensures UniqueIds(rs[..i] + rs[i + 1..])
    ensures forall a :: a in rs[..i] + rs[i + 1..] ==> a.id != rs[i].id
  {
    var t := rs[..i] + rs[i + 1..];
    forall p, q | 0 <= p < q < |t| ensures t[p].id != t[q].id {
      var p' := if p < i then p else p + 1;
      var q' := if q < i then q else q + 1;
      assert t[p] == rs[p'] && t[q] == rs[q'];
    }
    forall a | a in t ensures a.id != rs[i].id {
      var p :| 0 <= p < |t| && t[p] == a;
      var p' := if p < i then p else p + 1;
      assert t[p] == rs[p'];
    }
  }

  /** A cancelled, completed or no-show appointment never blocks a booking. */
  lemma {:induction false} OnlyScheduledBlocks(rs: seq<Appointment>, x: Appointment,
                                               doctorId: Id, date: Date, start: string, end: string)
    requires x.status != Scheduled
    ensures (FindConflict(rs + [x], doctorId, date, start, end) == -1) ==
            (FindConflict(rs, doctorId, date, start, end) == -1)
  {
    var t := rs + [x];
    assert forall j :: 0 <= j < |rs| ==> t[j] == rs[j];
    assert !Conflicts(t[|rs|], doctorId, date, start, end);
  }

  /** Back-to-back bookings do not conflict; overlapping ones do. */
  lemma SlotExamples(a: Appointment)
    requires a.status == Scheduled && a.startTime == "09:00" && a.endTime == "09:30"
    ensures !Conflicts(a, a.doctorId, a.date, "09:30", "10:00")
    ensures !Conflicts(a, a.doctorId, a.date, "08:30", "09:00")
    ensures Conflicts(a, a.doctorId, a.date, "09:15", "09:45")
    ensures Conflicts(a, a.doctorId, a.date, "08:00", "11:00")
  {
    assert StrLess("09:00", "09:45") by { assert "09:00"[1..] == "9:00"; assert "09:45"[1..] == "9:45"; }
  }

  /** With an unpadded hour, which the time pattern admits, string order is
      not clock order: a booking 9:30–10:00 is let through although it
      overlaps 9:00–9:45 on the clock. */
  lemma UnpaddedOverlapMissed(a: Appointment)
    requires a.status == Scheduled && a.startTime == "9:00" && a.endTime == "9:45"
    ensures !Conflicts(a, a.doctorId, a.date, "9:30", "10:00")
    ensures TimePattern("9:30") && TimePattern("10:00")
    ensures ClockMinutes("9:30") < ClockMinutes(a.endTime) && ClockMinutes(a.startTime) < ClockMinutes("10:00")
  {
    assert !StrLess("9:00", "10:00");
  }

  /** An update is not checked for conflicts: reopening a cancelled
      appointment can double-book its doctor. */
  lemma UpdateMayDoubleBook(a: Appointment, b: Appointment)
    requires a.status == Scheduled && a.startTime == "09:00" && a.endTime == "09:30"
    requires b == a.(id := b.id, status := Cancelled)
    ensures NoDoubleBooking([a, b])
    ensures !NoDoubleBooking([a, b.(status := Scheduled)])
  {
    var c := b.(status := Scheduled);
    assert Clash([a, c][0], [a, c][1]) by {
      assert StrLess("09:00", "09:30") by { assert "09:00"[1..] == "9:00"; assert "09:30"[1..] == "9:30"; }
    }
  }

  /** The setters act path by path, so they commute with the spread. */
  lemma NormalizeOverlay(base: Fields, top: Fields)
    ensures Normalize(Overlay(base, top)) == Overlay(Normalize(base), Normalize(top))
  {
  }

  /** On update each path the body sets takes the body's set-up value and
      every other path keeps its stored value; the id and creation time stay. */
  lemma UpdateMerge(a: Appointment, body: Fields, now: int, b: Appointment)
    requires AppointmentModel.Valid(a)
    requires Cast(a.id, Overlay(ToFields(a), body), a.createdAt, now) == Some(b)
    ensures ToFields(b) == Overlay(ToFields(a), Normalize(body))
    ensures b.id == a.id && b.createdAt == a.createdAt && b.updatedAt == now
  {
    var m := Overlay(ToFields(a), body);
    var n := Normalize(m);
    assert ToFields(b) == n.(status := Some(StatusName(b.status)), isActive := Some(b.isActive));
    assert n == Overlay(ToFields(a), Normalize(body)) by {
      NormalizeOverlay(ToFields(a), body);
    }
    assert Some(StatusName(b.status)) == n.status by {
      if body.status.Some? {
        StatusNamesRoundTrip(b.status, body.status.value);
      } else {
        StatusNamesRoundTrip(a.status, StatusName(a.status));
      }
    }
  }

  /** A booking stores the requester as the patient (after the schema's
      setters), the selected doctor with the name from the doctor's user
      record, and the requested slot as given. */
  lemma BookingRecord(req: User, body: Fields, doctor: User, newId: Id, now: int)
    requires Cast(newId, BookingFields(req, body, doctor), now, now).Some?
    ensures var b := Cast(newId, BookingFields(req, body, doctor), now, now).value;
      b.id == newId && b.patientId == req.id && b.patientName == Trim(req.name) &&
      b.patientEmail == Trim(Lower(req.email)) && b.doctorName == Trim(doctor.name) &&
      Some(b.doctorId) == body.doctorId && Some(b.date) == body.date &&
      Some(b.startTime) == body.startTime && Some(b.endTime) == body.endTime &&
      b.status == (if body.status.None? then Scheduled else ParseStatus(body.status.value).value) &&
      b.createdAt == now && b.updatedAt == now
  {
    var f := BookingFields(req, body, doctor);
    var b := Cast(newId, f, now, now).value;
    assert ToFields(b).patientName == Normalize(f).patientName;
  }
}
