/** The appointment document and its schema
    (frontend/server/src/models/Appointment.js): which paths are required,
    the status enumeration and its default, the length limits, the time,
    phone and email patterns, the trim/lowercase setters and the `duration`
    virtual. */
module AppointmentModel {
  import opened Support
  import opened Validation

  type Id = string

  /** A calendar date as the store holds it (the value of `new Date(...)`). */
  type Date = int

  datatype Status = Scheduled | Completed | Cancelled | NoShow

  function StatusName(s: Status): string
  {
    match s
    case Scheduled => "scheduled"
    case Completed => "completed"
    case Cancelled => "cancelled"
    case NoShow => "no-show"
  }

  /** The schema's enum check: only the four names are admitted. */
  function ParseStatus(t: string): (r: Option<Status>)
    ensures r.Some? <==> t in ["scheduled", "completed", "cancelled", "no-show"]
  {
    if t == "scheduled" then Some(Scheduled)
    else if t == "completed" then Some(Completed)
    else if t == "cancelled" then Some(Cancelled)
    else if t == "no-show" then Some(NoShow)
    else None
  }

  lemma StatusNamesRoundTrip(s: Status, t: string)
    ensures ParseStatus(StatusName(s)) == Some(s)
    ensures ParseStatus(t) == Some(s) ==> t == StatusName(s)
  {
  }

  /** A stored appointment document. */
  datatype Appointment = Appointment(
    id: Id,
    patientId: Id, patientName: string, patientEmail: string, patientPhone: string,
    doctorId: Id, doctorName: string,
    date: Date, startTime: string, endTime: string,
    status: Status, reason: string,
    symptoms: Option<string>, notes: Option<string>, diagnosis: Option<string>, prescription: Option<string>,
    isActive: bool, createdAt: int, updatedAt: int)

  /** The paths of a document before the schema casts it; a request body
      spread into a document has this shape too. Each path may be unset. */
  datatype Fields = Fields(
    patientId: Option<Id>, patientName: Option<string>, patientEmail: Option<string>,
    patientPhone: Option<string>, doctorId: Option<Id>, doctorName: Option<string>,
    date: Option<Date>, startTime: Option<string>, endTime: Option<string>,
    status: Option<string>, reason: Option<string>, symptoms: Option<string>,
    notes: Option<string>, diagnosis: Option<string>, prescription: Option<string>,
    isActive: Option<bool>)

  const NoFields := Fields(None, None, None, None, None, None, None, None, None,
                           None, None, None, None, None, None, None)

  function Pick<T>(top: Option<T>, base: Option<T>): Option<T>
  {
    if top.Some? then top else base
  }

  /** Object spread `{ ...base, ...top }`: every path set in `top` wins. */
  function Overlay(base: Fields, top: Fields): (r: Fields)
    ensures r.patientId == Pick(top.patientId, base.patientId)
    ensures r.status == Pick(top.status, base.status)
    ensures r.date == Pick(top.date, base.date)
    ensures r.startTime == Pick(top.startTime, base.startTime)
    ensures r.endTime == Pick(top.endTime, base.endTime)
  {
    Fields(Pick(top.patientId, base.patientId), Pick(top.patientName, base.patientName),
           Pick(top.patientEmail, base.patientEmail), Pick(top.patientPhone, base.patientPhone),
           Pick(top.doctorId, base.doctorId), Pick(top.doctorName, base.doctorName),
           Pick(top.date, base.date), Pick(top.startTime, base.startTime),
           Pick(top.endTime, base.endTime), Pick(top.status, base.status),
           Pick(top.reason, base.reason), Pick(top.symptoms, base.symptoms),
           Pick(top.notes, base.notes), Pick(top.diagnosis, base.diagnosis),
           Pick(top.prescription, base.prescription), Pick(top.isActive, base.isActive))
  }

  /** The paths of a stored document. */
  function ToFields(a: Appointment): Fields
  {
    Fields(Some(a.patientId), Some(a.patientName), Some(a.patientEmail), Some(a.patientPhone),
           Some(a.doctorId), Some(a.doctorName), Some(a.date), Some(a.startTime), Some(a.endTime),
           Some(StatusName(a.status)), Some(a.reason), a.symptoms, a.notes, a.diagnosis,
           a.prescription, Some(a.isActive))
  }

  function TrimOpt(o: Option<string>): Option<string>
  {
    if o.Some? then Some(Trim(o.value)) else None
  }

  /** The schema's setters: `trim` on the text paths that declare it, and on
      `patientEmail` `lowercase` followed by `trim`. */
  function Normalize(f: Fields): Fields
  {
    f.(patientName := TrimOpt(f.patientName),
       patientEmail := if f.patientEmail.Some? then Some(Trim(Lower(f.patientEmail.value))) else None,
       patientPhone := TrimOpt(f.patientPhone), doctorName := TrimOpt(f.doctorName),
       reason := TrimOpt(f.reason), symptoms := TrimOpt(f.symptoms), notes := TrimOpt(f.notes),
       diagnosis := TrimOpt(f.diagnosis), prescription := TrimOpt(f.prescription))
  }

  // ---------------------------------------------------------------------------
  // The email pattern /^\w+([.-]?\w+)*@\w+([.-]?\w+)*(\.\w{2,3})+$/

  /** `\w+([.-]?\w+)*`: word characters, with single `.` or `-` between runs of them. */
  predicate SepWord(s: string)
  {
    && |s| > 0 && IsWordChar(s[0]) && IsWordChar(s[|s| - 1])
    && (forall i :: 0 <= i < |s| ==> IsWordChar(s[i]) || s[i] == '.' || s[i] == '-')
    && (forall i :: 0 <= i < |s| - 1 ==> IsWordChar(s[i]) || IsWordChar(s[i + 1]))
  }

  predicate WordChars(s: string) { forall i :: 0 <= i < |s| ==> IsWordChar(s[i]) }

  /** `\w+([.-]?\w+)*(\.\w{2,3})+`. Any repetition of the last group can be
      absorbed by the part before it, so one final `.` and two or three word
      characters suffice. */
  predicate DomainPart(d: string)
  {
    exists j :: |d| - 4 <= j <= |d| - 3 && 0 <= j && d[j] == '.' && SepWord(d[..j]) && WordChars(d[j + 1..])
  }

  predicate EmailPattern(s: string)
  {
    exists k :: 0 <= k < |s| && s[k] == '@' && SepWord(s[..k]) && DomainPart(s[k + 1..])
  }

  lemma WordIsSepWord(s: string)
    requires |s| > 0 && WordChars(s)
    ensures SepWord(s)
  {
  }

  /** A word, '@', a word, '.', and a two- or three-character word form an address. */
  lemma EmailFromParts(user: string, host: string, tld: string)
    requires |user| > 0 && WordChars(user) && |host| > 0 && WordChars(host)
    requires 2 <= |tld| <= 3 && WordChars(tld)
    ensures EmailPattern(user + "@" + host + "." + tld)
  {
    var s := user + "@" + host + "." + tld;
    var d := host + "." + tld;
    var k := |user|;
    WordIsSepWord(user);
    WordIsSepWord(host);
    assert s[..k] == user && s[k + 1..] == d;
    assert d[..|host|] == host && d[|host| + 1..] == tld;
    assert d[|host|] == '.';
    assert s[k] == '@';
  }

  lemma EmailPatternAccepts()
    ensures EmailPattern("john@example.com")
  {
    assert "john" + "@" + "example" + "." + "com" == "john@example.com";
    EmailFromParts("john", "example", "com");
  }

  /** The domain needs a final dot group, so a text without any dot is never an address. */
  lemma NoDotRejected(s: string)
    requires forall i :: 0 <= i < |s| ==> s[i] != '.'
    ensures !EmailPattern(s)
  {
    forall k | 0 <= k < |s| && s[k] == '@'
      ensures !DomainPart(s[k + 1..])
    {
      var d := s[k + 1..];
      forall j | 0 <= j < |d|
        ensures d[j] != '.'
      {
        assert d[j] == s[k + 1 + j];
      }
    }
  }

  lemma EmailPatternRejects()
    ensures !EmailPattern("john@example")
  {
    NoDotRejected("john@example");
  }

  // ---------------------------------------------------------------------------
  // Validation of a cast document

  /** Mongoose's `required` on a string: set and not empty. */
  predicate RequiredText(o: Option<string>) { o.Some? && o.value != "" }

  /** `maxlength`: unset passes. */
  predicate AtMost(o: Option<string>, n: nat) { o.None? || |o.value| <= n }

  /** `match`: unset passes (and `required` decides about it). */
  predicate Matches(o: Option<string>, p: string -> bool) { o.None? || o.value == "" || p(o.value) }

  /** Every validator the schema declares, on a document after its setters ran. */
  predicate Admissible(f: Fields)
  {
    && f.patientId.Some?
    && RequiredText(f.patientName) && AtMost(f.patientName, 100)
    && RequiredText(f.patientEmail) && Matches(f.patientEmail, EmailPattern)
    && RequiredText(f.patientPhone) && Matches(f.patientPhone, PhonePattern)
    && f.doctorId.Some?
    && RequiredText(f.doctorName) && AtMost(f.doctorName, 100)
    && f.date.Some?
    && RequiredText(f.startTime) && Matches(f.startTime, TimePattern)
    && RequiredText(f.endTime) && Matches(f.endTime, TimePattern)
    && (f.status.Some? ==> ParseStatus(f.status.value).Some?)
    && RequiredText(f.reason) && AtMost(f.reason, 500)
    && AtMost(f.symptoms, 1000) && AtMost(f.notes, 2000)
    && AtMost(f.diagnosis, 1000) && AtMost(f.prescription, 2000)
  }

  /** What a stored document satisfies: its paths are set-up values and pass every validator. */
  predicate Valid(a: Appointment)
  {
    Normalize(ToFields(a)) == ToFields(a) && Admissible(ToFields(a))
  }

  /** Building a document (`new Appointment(data)`) and validating it on
      save: the setters run, `status` defaults to scheduled and `isActive` to
      true, and any failed validator rejects the document. */
  function Cast(id: Id, f: Fields, createdAt: int, updatedAt: int): (r: Option<Appointment>)
    ensures r.Some? <==> Admissible(Normalize(f))
    ensures r.Some? ==> Valid(r.value) && r.value.id == id
    ensures r.Some? ==> r.value.createdAt == createdAt && r.value.updatedAt == updatedAt
    ensures r.Some? ==> r.value.status == (if f.status.None? then Scheduled else ParseStatus(f.status.value).value)
    ensures r.Some? ==> r.value.isActive == (f.isActive.None? || f.isActive.value)
    ensures r.Some? ==> ToFields(r.value) == Normalize(f).(status := Some(StatusName(r.value.status)),
                                                          isActive := Some(r.value.isActive))
  {
    var n := Normalize(f);
    if !Admissible(n) then None
    else
      var a := Appointment(id, n.patientId.value, n.patientName.value, n.patientEmail.value,
        n.patientPhone.value, n.doctorId.value, n.doctorName.value, n.date.value,
        n.startTime.value, n.endTime.value,
        if n.status.None? then Scheduled else ParseStatus(n.status.value).value,
        n.reason.value, n.symptoms, n.notes, n.diagnosis, n.prescription,
        if n.isActive.None? then true else n.isActive.value, createdAt, updatedAt);
      NormalizeIdempotent(f);
      StatusNamesRoundTrip(a.status, if n.status.None? then "" else n.status.value);
      Some(a)
  }

  lemma TrimOptIdempotent(o: Option<string>)
    ensures TrimOpt(TrimOpt(o)) == TrimOpt(o)
  {
    if o.Some? { TrimIdempotent(o.value); }
  }

  lemma NormalizeIdempotent(f: Fields)
    ensures Normalize(Normalize(f)) == Normalize(f)
  {
    TrimOptIdempotent(f.patientName);
    TrimOptIdempotent(f.patientPhone);
    TrimOptIdempotent(f.doctorName);
    TrimOptIdempotent(f.reason);
    TrimOptIdempotent(f.symptoms);
    TrimOptIdempotent(f.notes);
    TrimOptIdempotent(f.diagnosis);
    TrimOptIdempotent(f.prescription);
    if f.patientEmail.Some? {
      EmailSetterIdempotent(f.patientEmail.value);
    }
  }

  lemma EmailSetterIdempotent(x: string)
    ensures Trim(Lower(Trim(Lower(x)))) == Trim(Lower(x))
  {
    LowerOfTrimmedLower(x);
    TrimIdempotent(Lower(x));
  }

  lemma LowerOfTrimmedLower(x: string)
    ensures Lower(Trim(Lower(x))) == Trim(Lower(x))
  {
    var l := Lower(x);
    TrimIsInfix(l);
    LowerWithoutCapitals(Trim(l));
  }

  /** A stored document cast again from its own paths is the same document. */
  lemma CastRoundTrip(a: Appointment)
    requires Valid(a)
    ensures Cast(a.id, ToFields(a), a.createdAt, a.updatedAt) == Some(a)
  {
    StatusNamesRoundTrip(a.status, StatusName(a.status));
  }

  /** None of the ten required paths may be missing. */
  lemma RequiredPaths(id: Id, f: Fields, c: int, u: int)
    requires f.patientId.None? || f.patientName.None? || f.patientEmail.None? ||
             f.patientPhone.None? || f.doctorId.None? || f.doctorName.None? ||
             f.date.None? || f.startTime.None? || f.endTime.None? || f.reason.None?
    ensures Cast(id, f, c, u).None?
  {
  }

  /** The length limits every stored document keeps. */
  lemma StoredLengthLimits(a: Appointment)
    requires Valid(a)
    ensures 0 < |a.patientName| <= 100 && 0 < |a.doctorName| <= 100 && 0 < |a.reason| <= 500
    ensures a.symptoms.Some? ==> |a.symptoms.value| <= 1000
    ensures a.notes.Some? ==> |a.notes.value| <= 2000
    ensures a.diagnosis.Some? ==> |a.diagnosis.value| <= 1000
    ensures a.prescription.Some? ==> |a.prescription.value| <= 2000
    ensures TimePattern(a.startTime) && TimePattern(a.endTime) && PhonePattern(a.patientPhone)
  {
  }

  // ---------------------------------------------------------------------------
  // The `duration` virtual

  /** Minutes from start to end, read through `2000-01-01THH:MM:00`; only
      zero-padded times are in the format that date constructor reads. */
  function Duration(a: Appointment): (d: int)
    requires Valid(a) && |a.startTime| == 5 && |a.endTime| == 5
    ensures -1440 < d < 1440
  {
    ClockMinutes(a.endTime) - ClockMinutes(a.startTime)
  }

  /** The duration is positive exactly when the stored end time is after the
      start time in the store's string order, and nothing keeps it so. */
  lemma DurationSign(a: Appointment)
    requires Valid(a) && |a.startTime| == 5 && |a.endTime| == 5
    ensures Duration(a) > 0 <==> StrLess(a.startTime, a.endTime)
    ensures Duration(a) == 0 <==> a.startTime == a.endTime
  {
    PaddedOrderIsClockOrder(a.startTime, a.endTime);
    PaddedOrderIsClockOrder(a.endTime, a.startTime);
    if a.startTime != a.endTime {
      StrLessTotal(a.startTime, a.endTime);
    }
  }
}
