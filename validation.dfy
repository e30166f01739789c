/** The request-body rule sets that run before the route handlers
    (frontend/server/src/middleware/validation.js). A JSON body is a map from
    field name to the field's text; a field that is absent is seen by every
    non-optional validator as the empty string. The library checks `isEmail`,
    `isMongoId` and `isISO8601` are not modelled and arrive as parameters. */
module Validation {
  import opened Support

  /** The library predicates the rule chains call. */
  datatype Predicates = Predicates(
    isEmail: string -> bool,
    isMongoId: string -> bool,
    isISO8601: string -> bool)

  type Body = map<string, string>

  /** One entry in the 400 response's `errors` list. */
  datatype FieldError = FieldError(field: string, message: string)

  /** One rule chain's verdict on its field. */
  datatype Check = Check(field: string, passed: bool, message: string)

  /** The response `handleValidationErrors` gives: go on to the handler, or stop. */
  datatype Gate = Next | Reject(status: int, message: string, errors: seq<FieldError>)

  // ---------------------------------------------------------------------------
  // The time pattern /^([0-1]?[0-9]|2[0-3]):[0-5][0-9]$/

  /** The hour alternative `[0-1]?[0-9]|2[0-3]`. */
  predicate HourPart(h: string)
  {
    (|h| == 1 && IsDigit(h[0])) ||
    (|h| == 2 && '0' <= h[0] <= '1' && IsDigit(h[1])) ||
    (|h| == 2 && h[0] == '2' && '0' <= h[1] <= '3')
  }

  /** The minute part `[0-5][0-9]`. */
  predicate MinutePart(m: string)
  {
    |m| == 2 && '0' <= m[0] <= '5' && IsDigit(m[1])
  }

  predicate TimePattern(s: string)
  {
    (|s| == 4 && s[1] == ':' && HourPart(s[..1]) && MinutePart(s[2..])) ||
    (|s| == 5 && s[2] == ':' && HourPart(s[..2]) && MinutePart(s[3..]))
  }

  /** Two decimal digits. */
  function Pad2(n: nat): (r: string)
    requires n < 100
    ensures |r| == 2 && AllDigits(r)
    ensures 10 * DigitValue(r[0]) + DigitValue(r[1]) == n
  {
    [DigitChar(n / 10), DigitChar(n % 10)]
  }

  /** A clock time written with the hour zero-padded or, below ten, as a single digit. */
  function ClockText(h: nat, m: nat, padded: bool): string
    requires h < 24 && m < 60
  {
    (if h < 10 && !padded then [DigitChar(h)] else Pad2(h)) + ":" + Pad2(m)
  }

  /** Value of the hour and minute digits of a string the pattern accepts. */
  function ClockMinutes(s: string): (t: nat)
    requires TimePattern(s)
    ensures t < 1440
  {
    if |s| == 4 then 60 * DigitValue(s[0]) + 10 * DigitValue(s[2]) + DigitValue(s[3])
    else 60 * (10 * DigitValue(s[0]) + DigitValue(s[1])) + 10 * DigitValue(s[3]) + DigitValue(s[4])
  }

  /** The pattern accepts exactly H:MM and HH:MM with an hour of 0 to 23
      (leading zero optional) and a minute of 00 to 59. */
  lemma TimePatternExactly(s: string)
    ensures TimePattern(s) <==>
      exists h: nat, m: nat, p: bool {:trigger ClockText(h, m, p)} ::
        h < 24 && m < 60 && s == ClockText(h, m, p)
  {
    if TimePattern(s) {
      AcceptedIsClockText(s);
    }
    if exists h: nat, m: nat, p: bool {:trigger ClockText(h, m, p)} ::
        h < 24 && m < 60 && s == ClockText(h, m, p) {
      var h: nat, m: nat, p: bool :| h < 24 && m < 60 && s == ClockText(h, m, p);
      ClockTextAccepted(h, m, p);
    }
  }

  lemma DigitRoundTrip(c: char)
    requires IsDigit(c)
    ensures DigitChar(DigitValue(c)) == c
  {
  }

  lemma Pad2Of(a: char, b: char)
    requires IsDigit(a) && IsDigit(b)
    ensures 10 * DigitValue(a) + DigitValue(b) < 100
    ensures Pad2(10 * DigitValue(a) + DigitValue(b)) == [a, b]
  {
    var n := 10 * DigitValue(a) + DigitValue(b);
    assert n / 10 == DigitValue(a) && n % 10 == DigitValue(b);
    DigitRoundTrip(a);
    DigitRoundTrip(b);
  }

  lemma AcceptedIsClockText(s: string)
    requires TimePattern(s)
    ensures exists h: nat, m: nat, p: bool {:trigger ClockText(h, m, p)} ::
      h < 24 && m < 60 && s == ClockText(h, m, p)
  {
    var n := |s|;
    Pad2Of(s[n - 2], s[n - 1]);
    var m := 10 * DigitValue(s[n - 2]) + DigitValue(s[n - 1]);
    if n == 4 {
      var h := DigitValue(s[0]);
      DigitRoundTrip(s[0]);
      assert s == ClockText(h, m, false);
    } else {
      Pad2Of(s[0], s[1]);
      var h := 10 * DigitValue(s[0]) + DigitValue(s[1]);
      assert s == ClockText(h, m, true);
    }
  }

  lemma ClockTextAccepted(h: nat, m: nat, p: bool)
    requires h < 24 && m < 60
    ensures TimePattern(ClockText(h, m, p))
    ensures ClockMinutes(ClockText(h, m, p)) == 60 * h + m
  {
    var s := ClockText(h, m, p);
    if h < 10 && !p {
      assert s[..1] == [DigitChar(h)] && s[2..] == Pad2(m);
    } else {
      assert s[..2] == Pad2(h) && s[3..] == Pad2(m);
    }
  }

  lemma TimePatternExamples()
    ensures TimePattern("09:00") && TimePattern("9:30") && TimePattern("23:59")
    ensures !TimePattern("24:00") && !TimePattern("9:5") && !TimePattern("12:60")
  {
  }

  /** For zero-padded times, string order is clock order. */
  lemma PaddedOrderIsClockOrder(a: string, b: string)
    requires TimePattern(a) && TimePattern(b) && |a| == 5 && |b| == 5
    ensures StrLess(a, b) <==> ClockMinutes(a) < ClockMinutes(b)
  {
    assert a[2] == b[2] == ':';
    if a[0] == b[0] {
      assert StrLess(a, b) == StrLess(a[1..], b[1..]);
      if a[1] == b[1] {
        assert StrLess(a[1..], b[1..]) == StrLess(a[2..], b[2..]);
        assert StrLess(a[2..], b[2..]) == StrLess(a[3..], b[3..]);
        if a[3] == b[3] {
          assert StrLess(a[3..], b[3..]) == StrLess(a[4..], b[4..]);
          if a[4] == b[4] {
            assert a[4..] == b[4..];
            StrLessIrreflexive(a[4..]);
          }
        }
      }
    }
  }

  /** With an unpadded hour the two orders part: "10:00" sorts before "9:30". */
  lemma UnpaddedOrderDiffers()
    ensures TimePattern("10:00") && TimePattern("9:30")
    ensures StrLess("10:00", "9:30") && ClockMinutes("9:30") < ClockMinutes("10:00")
  {
    assert "10:00"[0] == '1' && "9:30"[0] == '9';
  }

  // ---------------------------------------------------------------------------
  // The phone pattern /^[\+]?[1-9][\d]{0,15}$/

  predicate PhonePattern(s: string)
  {
    var t := if |s| > 0 && s[0] == '+' then s[1..] else s;
    1 <= |t| <= 16 && '1' <= t[0] <= '9' && AllDigits(t)
  }

  /** A digit 1 to 9 followed by at most fifteen more digits. */
  predicate PhoneDigits(d: string)
  {
    1 <= |d| <= 16 && AllDigits(d) && d[0] != '0'
  }

  /** The pattern accepts an optional `+` followed by phone digits, and nothing else. */
  lemma PhonePatternExactly(s: string)
    ensures PhonePattern(s) <==> PhoneDigits(s) || (|s| > 0 && s[0] == '+' && PhoneDigits(s[1..]))
  {
    if PhoneDigits(s) {
      assert IsDigit(s[0]);
    }
  }

  // ---------------------------------------------------------------------------
  // Rule chains

  /** What a non-optional validator sees: the field's text, or "" when absent. */
  function Text(b: Body, f: string): string
  {
    if f in b then b[f] else ""
  }

  /** A chain whose validator sees the (possibly trimmed) text of a required field. */
  function Required(f: string, ok: bool, message: string): Check
  {
    Check(f, ok, message)
  }

  /** A chain behind `.optional()`: an absent field passes. */
  function Optional(b: Body, f: string, ok: bool, message: string): (c: Check)
    ensures f !in b ==> c.passed
  {
    Check(f, f !in b || ok, message)
  }

  /** The errors list: one entry per failed chain, in declaration order. */
  function Collect(cs: seq<Check>): (errs: seq<FieldError>)
    ensures |errs| <= |cs|
  {
    if cs == [] then []
    else (if cs[0].passed then [] else [FieldError(cs[0].field, cs[0].message)]) + Collect(cs[1..])
  }

  lemma {:induction false} CollectMembers(cs: seq<Check>)
    ensures forall e :: e in Collect(cs) <==>
      exists c :: c in cs && !c.passed && e == FieldError(c.field, c.message)
  {
    if cs != [] {
      CollectMembers(cs[1..]);
      assert forall c :: c in cs <==> c == cs[0] || c in cs[1..];
    }
  }

  lemma {:induction false} CollectEmpty(cs: seq<Check>)
    ensures Collect(cs) == [] <==> forall i :: 0 <= i < |cs| ==> cs[i].passed
  {
    if cs != [] {
      CollectEmpty(cs[1..]);
      assert forall i :: 0 < i < |cs| ==> cs[i] == cs[1..][i - 1];
    }
  }

  lemma {:induction false} CollectAppend(a: seq<Check>, b: seq<Check>)
    ensures Collect(a + b) == Collect(a) + Collect(b)
  {
    if a == [] {
      assert a + b == b;
    } else {
      assert (a + b)[0] == a[0] && (a + b)[1..] == a[1..] + b;
      CollectAppend(a[1..], b);
      var h := if a[0].passed then [] else [FieldError(a[0].field, a[0].message)];
      calc {
        Collect(a + b);
        h + Collect(a[1..] + b);
        h + (Collect(a[1..]) + Collect(b));
        (h + Collect(a[1..])) + Collect(b);
        Collect(a) + Collect(b);
      }
    }
  }

  lemma CollectFour(c0: Check, c1: Check, c2: Check, c3: Check)
    ensures Collect([c0, c1, c2, c3]) == [] <==> c0.passed && c1.passed && c2.passed && c3.passed
  {
    var cs := [c0, c1, c2, c3];
    CollectEmpty(cs);
    assert cs[0] == c0 && cs[1] == c1 && cs[2] == c2 && cs[3] == c3;
  }

  lemma CollectTwo(c0: Check, c1: Check)
    ensures Collect([c0, c1]) == [] <==> c0.passed && c1.passed
  {
    var cs := [c0, c1];
    CollectEmpty(cs);
    assert cs[0] == c0 && cs[1] == c1;
  }

  lemma CollectFive(c0: Check, c1: Check, c2: Check, c3: Check, c4: Check)
    ensures Collect([c0, c1, c2, c3, c4]) == [] <==> c0.passed && c1.passed && c2.passed && c3.passed && c4.passed
  {
    var cs := [c0, c1, c2, c3, c4];
    CollectEmpty(cs);
    assert cs[0] == c0 && cs[1] == c1 && cs[2] == c2 && cs[3] == c3 && cs[4] == c4;
  }

  /** `handleValidationErrors`: any failure stops the request with 400 and the list. */
  function HandleValidationErrors(errs: seq<FieldError>): (g: Gate)
    ensures g.Next? <==> errs == []
    ensures g.Reject? ==> g.status == 400 && g.message == "Validation failed" && g.errors == errs
  {
    if errs != [] then Reject(400, "Validation failed", errs) else Next
  }

  function RegistrationChecks(b: Body, p: Predicates): seq<Check>
  {
    [ Required("email", p.isEmail(Text(b, "email")), "Please provide a valid email address"),
      Required("password", |Text(b, "password")| >= 6, "Password must be at least 6 characters long"),
      Required("name", 2 <= |Trim(Text(b, "name"))| <= 100, "Name must be between 2 and 100 characters"),
      Required("role", Text(b, "role") == "patient" || Text(b, "role") == "doctor",
               "Role must be either patient or doctor"),
      Optional(b, "phone", 10 <= |Text(b, "phone")| <= 15, "Phone number must be between 10 and 15 characters") ]
  }

  function ValidateRegistration(b: Body, p: Predicates): Gate
  {
    HandleValidationErrors(Collect(RegistrationChecks(b, p)))
  }

  /** Registration reaches its handler exactly when every rule holds. */
  lemma RegistrationRules(b: Body, p: Predicates)
    ensures ValidateRegistration(b, p).Next? <==>
      && p.isEmail(Text(b, "email"))
      && |Text(b, "password")| >= 6
      && 2 <= |Trim(Text(b, "name"))| <= 100
      && (Text(b, "role") == "patient" || Text(b, "role") == "doctor")
      && ("phone" in b ==> 10 <= |b["phone"]| <= 15)
  {
    var cs := RegistrationChecks(b, p);
    CollectFive(cs[0], cs[1], cs[2], cs[3], cs[4]);
    assert cs == [cs[0], cs[1], cs[2], cs[3], cs[4]];
  }

  function LoginChecks(b: Body, p: Predicates): seq<Check>
  {
    [ Required("email", p.isEmail(Text(b, "email")), "Please provide a valid email address"),
      Required("password", Text(b, "password") != "", "Password is required") ]
  }

  function ValidateLogin(b: Body, p: Predicates): Gate
  {
    HandleValidationErrors(Collect(LoginChecks(b, p)))
  }

  lemma LoginRules(b: Body, p: Predicates)
    ensures ValidateLogin(b, p).Next? <==>
      p.isEmail(Text(b, "email")) && "password" in b && b["password"] != ""
  {
    var cs := LoginChecks(b, p);
    CollectTwo(cs[0], cs[1]);
    assert cs == [cs[0], cs[1]];
  }

  function CreationChecks(b: Body, p: Predicates): seq<Check>
  {
    PatientChecks(b, p) + SlotChecks(b, p) + ReasonChecks(b)
  }

  function PatientChecks(b: Body, p: Predicates): seq<Check>
  {
    [ Required("patientId", p.isMongoId(Text(b, "patientId")), "Valid patient ID is required"),
      Required("patientName", 2 <= |Trim(Text(b, "patientName"))| <= 100,
               "Patient name must be between 2 and 100 characters"),
      Required("patientEmail", p.isEmail(Text(b, "patientEmail")), "Please provide a valid patient email"),
      Required("patientPhone", PhonePattern(Text(b, "patientPhone")), "Please provide a valid phone number") ]
  }

  function SlotChecks(b: Body, p: Predicates): seq<Check>
  {
    [ Required("doctorId", p.isMongoId(Text(b, "doctorId")), "Valid doctor ID is required"),
      Required("doctorName", 2 <= |Trim(Text(b, "doctorName"))| <= 100,
               "Doctor name must be between 2 and 100 characters"),
      Required("date", p.isISO8601(Text(b, "date")), "Please provide a valid date"),
      Required("startTime", TimePattern(Text(b, "startTime")), "Please provide a valid start time (HH:MM)"),
      Required("endTime", TimePattern(Text(b, "endTime")), "Please provide a valid end time (HH:MM)") ]
  }

  function ReasonChecks(b: Body): seq<Check>
  {
    [ Required("reason", 5 <= |Trim(Text(b, "reason"))| <= 500, "Reason must be between 5 and 500 characters"),
      Optional(b, "symptoms", |Trim(Text(b, "symptoms"))| <= 1000, "Symptoms cannot exceed 1000 characters") ]
  }

  function ValidateCreation(b: Body, p: Predicates): Gate
  {
    HandleValidationErrors(Collect(CreationChecks(b, p)))
  }

  /** A booking reaches its handler exactly when every field rule holds; in
      particular both times match the time pattern, the trimmed reason has 5 to
      500 characters and the trimmed symptoms, when present, at most 1000. */
  lemma CreationRules(b: Body, p: Predicates)
    ensures ValidateCreation(b, p).Next? <==>
      && p.isMongoId(Text(b, "patientId"))
      && 2 <= |Trim(Text(b, "patientName"))| <= 100
      && p.isEmail(Text(b, "patientEmail"))
      && PhonePattern(Text(b, "patientPhone"))
      && p.isMongoId(Text(b, "doctorId"))
      && 2 <= |Trim(Text(b, "doctorName"))| <= 100
      && p.isISO8601(Text(b, "date"))
      && "startTime" in b && TimePattern(b["startTime"])
      && "endTime" in b && TimePattern(b["endTime"])
      && 5 <= |Trim(Text(b, "reason"))| <= 500
      && ("symptoms" in b ==> |Trim(b["symptoms"])| <= 1000)
  {
    var pc, sc, rc := PatientChecks(b, p), SlotChecks(b, p), ReasonChecks(b);
    CollectAppend(pc + sc, rc);
    CollectAppend(pc, sc);
    assert Collect(CreationChecks(b, p)) == Collect(pc) + Collect(sc) + Collect(rc);
    PatientRules(b, p);
    SlotRules(b, p);
    ReasonRules(b);
  }

  lemma PatientRules(b: Body, p: Predicates)
    ensures Collect(PatientChecks(b, p)) == [] <==>
      && p.isMongoId(Text(b, "patientId"))
      && 2 <= |Trim(Text(b, "patientName"))| <= 100
      && p.isEmail(Text(b, "patientEmail"))
      && PhonePattern(Text(b, "patientPhone"))
  {
    var cs := PatientChecks(b, p);
    CollectFour(cs[0], cs[1], cs[2], cs[3]);
    assert cs == [cs[0], cs[1], cs[2], cs[3]];
  }

  lemma SlotRules(b: Body, p: Predicates)
    ensures Collect(SlotChecks(b, p)) == [] <==>
      && p.isMongoId(Text(b, "doctorId"))
      && 2 <= |Trim(Text(b, "doctorName"))| <= 100
      && p.isISO8601(Text(b, "date"))
      && "startTime" in b && TimePattern(b["startTime"])
      && "endTime" in b && TimePattern(b["endTime"])
  {
    var cs := SlotChecks(b, p);
    CollectFive(cs[0], cs[1], cs[2], cs[3], cs[4]);
    assert cs == [cs[0], cs[1], cs[2], cs[3], cs[4]];
    assert !TimePattern("");
  }

  lemma ReasonRules(b: Body)
    ensures Collect(ReasonChecks(b)) == [] <==>
      && 5 <= |Trim(Text(b, "reason"))| <= 500
      && ("symptoms" in b ==> |Trim(b["symptoms"])| <= 1000)
  {
    var cs := ReasonChecks(b);
    CollectTwo(cs[0], cs[1]);
    assert cs == [cs[0], cs[1]];
  }

  function UpdateChecks(b: Body): seq<Check>
  {
    [ Optional(b, "status", Text(b, "status") in ["scheduled", "completed", "cancelled", "no-show"],
               "Status must be one of: scheduled, completed, cancelled, no-show"),
      Optional(b, "notes", |Trim(Text(b, "notes"))| <= 2000, "Notes cannot exceed 2000 characters"),
      Optional(b, "diagnosis", |Trim(Text(b, "diagnosis"))| <= 1000, "Diagnosis cannot exceed 1000 characters"),
      Optional(b, "prescription", |Trim(Text(b, "prescription"))| <= 2000,
               "Prescription cannot exceed 2000 characters") ]
  }

  function ValidateUpdate(b: Body): Gate
  {
    HandleValidationErrors(Collect(UpdateChecks(b)))
  }

  /** Every update field is optional; the ones present are bounded. */
  lemma UpdateRules(b: Body)
    ensures ValidateUpdate(b).Next? <==>
      && ("status" in b ==> b["status"] in ["scheduled", "completed", "cancelled", "no-show"])
      && ("notes" in b ==> |Trim(b["notes"])| <= 2000)
      && ("diagnosis" in b ==> |Trim(b["diagnosis"])| <= 1000)
      && ("prescription" in b ==> |Trim(b["prescription"])| <= 2000)
  {
    var cs := UpdateChecks(b);
    CollectFour(cs[0], cs[1], cs[2], cs[3]);
    assert cs == [cs[0], cs[1], cs[2], cs[3]];
  }

  /** A failed rule set lists each failed field once and nothing else. */
  lemma {:induction false} OneEntryPerFailure(cs: seq<Check>)
    requires forall i, j :: 0 <= i < j < |cs| ==> cs[i].field != cs[j].field
    ensures |Collect(cs)| == |set c | c in cs && !c.passed :: c.field|
  {
    if cs != [] {
      OneEntryPerFailure(cs[1..]);
      var rest := set c | c in cs[1..] && !c.passed :: c.field;
      var all := set c | c in cs && !c.passed :: c.field;
      assert cs[0].field !in rest;
      if cs[0].passed {
        assert all == rest;
      } else {
        assert all == rest + {cs[0].field};
      }
    }
  }
}
