/** The booking logic of the patient dashboard
    (frontend/src/pages/PatientDashboard.tsx): the end-time helper, the form
    completeness check, the two ways an answer is stored (the option
    select's inline mapping and the text/number input), the doctor used for
    a submission, and the dashboard state that a specialization change, an
    answer and a submission update. Times are whole minutes of one day; the
    three requests of a submission are one parameter saying whether they all
    succeeded. */
module PatientDashboard {
  import opened Support
  import opened Validation
  import opened UseForms

  // ---------------------------------------------------------------------------
  // calculateEndTime

  /** The start time plus a duration, on a 24-hour clock, zero-padded. */
  function CalculateEndTime(start: string, duration: int): (r: string)
    requires TimePattern(start)
    ensures TimePattern(r) && |r| == 5
    ensures ClockMinutes(r) == (ClockMinutes(start) + duration) % 1440
  {
    var t := (ClockMinutes(start) + duration) % 1440;
    ClockTextAccepted(t / 60, t % 60, true);
    ClockText(t / 60, t % 60, true)
  }

  /** Adding two durations one after the other is adding their sum. */
  lemma EndTimeComposes(start: string, a: int, b: int)
    requires TimePattern(start)
    ensures CalculateEndTime(CalculateEndTime(start, a), b) == CalculateEndTime(start, a + b)
  {
    var e := CalculateEndTime(start, a);
    var m := ClockMinutes(start);
    var q := (m + a) / 1440;
    assert ClockMinutes(e) + 1440 * q == m + a;
    ModShift(ClockMinutes(e) + b, q);
    SameEnd(e, b, start, a + b);
  }

  /** The end time depends only on the minute of the day the sum falls on. */
  lemma SameEnd(s1: string, d1: int, s2: string, d2: int)
    requires TimePattern(s1) && TimePattern(s2)
    requires (ClockMinutes(s1) + d1) % 1440 == (ClockMinutes(s2) + d2) % 1440
    ensures CalculateEndTime(s1, d1) == CalculateEndTime(s2, d2)
  {
  }

  lemma ModShift(x: int, q: int)
    ensures (x + 1440 * q) % 1440 == x % 1440
  {
    var r := x % 1440;
    assert x == 1440 * (x / 1440) + r;
    assert x + 1440 * q == 1440 * (x / 1440 + q) + r;
  }

  // ---------------------------------------------------------------------------
  // validateForm

  const SelectFirst := "Please select a specialization and wait for the form to load."
  const FillAll := "Please fill in all required fields."
  const InvalidNumber := "Please enter a valid number."

  /** No answer, or the empty string. */
  predicate Missing(answers: map<int, Value>, q: Question)
  {
    q.questionId !in answers || answers[q.questionId] == Str("")
  }

  /** A number question whose answer is not a number (NaN included). */
  predicate NotNumber(answers: map<int, Value>, q: Question)
  {
    q.kind == "number" && q.questionId in answers && !answers[q.questionId].Num?
  }

  predicate Answered(answers: map<int, Value>, q: Question)
  {
    !Missing(answers, q) && !NotNumber(answers, q)
  }

  /** The checks in order: no specialization passes; then a form is needed;
      then the first question that is not answered decides the message. */
  method ValidateForm(specialization: string, form: Option<Form>, answers: map<int, Value>)
    returns (r: Option<string>)
    ensures specialization == "" ==> r.None?
    ensures specialization != "" && form.None? ==> r == Some(SelectFirst)
    ensures specialization != "" && form.Some? ==>
      var qs := form.value.questions;
      (r == Some(FillAll) <==>
        exists k :: 0 <= k < |qs| && Missing(answers, qs[k]) && forall j :: 0 <= j < k ==> Answered(answers, qs[j])) &&
      (r == Some(InvalidNumber) <==>
        exists k :: 0 <= k < |qs| && !Missing(answers, qs[k]) && NotNumber(answers, qs[k]) &&
          forall j :: 0 <= j < k ==> Answered(answers, qs[j])) &&
      (r.None? <==> forall k :: 0 <= k < |qs| ==> Answered(answers, qs[k]))
  {
    if specialization == "" {
      return None;
    }
    if form.None? {
      return Some(SelectFirst);
    }
    var qs := form.value.questions;
    var i := 0;
    while i < |qs|
      invariant 0 <= i <= |qs|
      invariant forall j :: 0 <= j < i ==> Answered(answers, qs[j])
    {
      var q := qs[i];
      if q.questionId !in answers || answers[q.questionId] == Str("") {
        FirstFailure(answers, qs, i);
        return Some(FillAll);
      }
      if q.kind == "number" && !answers[q.questionId].Num? {
        FirstFailure(answers, qs, i);
        return Some(InvalidNumber);
      }
      i := i + 1;
    }
    return None;
  }

  /** The first question that is not answered is the only one with that property. */
  lemma FirstFailure(answers: map<int, Value>, qs: seq<Question>, i: int)
    requires 0 <= i < |qs| && !Answered(answers, qs[i])
    requires forall j :: 0 <= j < i ==> Answered(answers, qs[j])
    ensures forall k :: (0 <= k < |qs| && !Answered(answers, qs[k]) &&
      (forall j :: 0 <= j < k ==> Answered(answers, qs[j]))) ==> k == i
  {
  }

  // ---------------------------------------------------------------------------
  // Storing answers

  /** The option select's inline mapping: the first `optionsMap` entry whose
      label equals the choice exactly or case-insensitively, else the first
      such position in `options` that `optionsValue` reaches, else nothing. */
  function InlineMatch(q: Question, val: string): Option<Value>
  {
    var fromMap :=
      if q.optionsMap.Some? && |q.optionsMap.value| > 0 then
        var k := FindIndex(Labels(q.optionsMap.value), val, ExactOrFolded);
        if k >= 0 then Some(q.optionsMap.value[k].value) else None
      else None;
    if fromMap.Some? then fromMap
    else if q.options.Some? && q.optionsValue.Some? then
      var k := FindIndex(q.options.value, val, ExactOrFolded);
      if k != -1 && k < |q.optionsValue.value| then Some(Num(q.optionsValue.value[k])) else None
    else None
  }

  /** What the select stores: the mapped value, or the raw label. */
  function InlineAnswer(q: Question, val: string): Value
  {
    match InlineMatch(q, val)
    case Some(v) => v
    case None => Str(val)
  }

  /** When the inline mapping falls back to the raw label, `getAnswerValue`
      would find no answer for that label either. */
  lemma RawLabelHasNoAnswer(q: Question, val: string, toNumber: string -> Option<real>)
    requires q.hasOptions && InlineMatch(q, val).None?
    ensures InlineAnswer(q, val) == Str(val)
    ensures GetAnswerValue(Some(q), val, toNumber).None?
  {
    if q.optionsMap.Some? && |q.optionsMap.value| > 0 {
      FoldedComesFirst(Labels(q.optionsMap.value), val);
    } else if q.options.Some? && q.optionsValue.Some? {
      FoldedComesFirst(q.options.value, val);
    }
  }

  /** When no two map labels are equal ignoring case, the inline mapping
      stores the value `getAnswerValue` finds, whenever it finds one. */
  lemma InlineAgreesWhenLabelsDistinct(q: Question, val: string, toNumber: string -> Option<real>)
    requires q.hasOptions && q.optionsMap.Some? && |q.optionsMap.value| > 0
    requires forall i, j :: 0 <= i < j < |q.optionsMap.value| ==>
      Lower(q.optionsMap.value[i].text) != Lower(q.optionsMap.value[j].text)
    requires GetAnswerValue(Some(q), val, toNumber).Some?
    ensures InlineMatch(q, val) == GetAnswerValue(Some(q), val, toNumber)
  {
    var m := q.optionsMap.value;
    var ls := Labels(m);
    FoldedComesFirst(ls, val);
    var e, c := FindIndex(ls, val, Exact), FindIndex(ls, val, Folded);
    if e >= 0 {
      assert Lower(ls[c]) == Lower(ls[e]);
    }
  }

  /** The two lookups part when a case-insensitive label comes before the
      exact one: choosing "Yes" from `yes → 1, Yes → 2` stores 1, while
      `getAnswerValue` gives 2. */
  lemma InlineDiffersFromLookup(toNumber: string -> Option<real>)
    ensures var q := Question(1, "Smoker?", true, Some(["yes", "Yes"]), Some([1.0, 2.0]), "number",
                              Some([Entry("yes", Num(1.0)), Entry("Yes", Num(2.0))]));
      InlineAnswer(q, "Yes") == Num(1.0) && GetAnswerValue(Some(q), "Yes", toNumber) == Some(Num(2.0))
  {
    var m := [Entry("yes", Num(1.0)), Entry("Yes", Num(2.0))];
    assert Labels(m) == ["yes", "Yes"];
    assert Lower("yes") == "yes" && Lower("Yes") == "yes";
    assert "yes" != "Yes";
  }

  /** The text/number input: an empty number field stays '', other number
      input becomes `Number(v)`, and any other question keeps the text. */
  function TypedInput(q: Question, v: string, toNumber: string -> Option<real>): Value
  {
    if q.kind == "number" then
      if v == "" then Str("")
      else match toNumber(v)
        case None => NaN
        case Some(x) => Num(x)
    else Str(v)
  }

  /** After a typed input, the form check sees the field as missing exactly
      when it was left empty, and a number field as invalid exactly when the
      text is not a number; a valid number is the one `getAnswerValue` gives. */
  lemma TypedInputChecks(answers: map<int, Value>, q: Question, v: string, toNumber: string -> Option<real>)
    ensures var a := answers[q.questionId := TypedInput(q, v, toNumber)];
      (Missing(a, q) <==> v == "") &&
      (v != "" ==> (NotNumber(a, q) <==> q.kind == "number" && toNumber(v).None?)) &&
      (!q.hasOptions && q.kind == "number" && Answered(a, q) ==>
        GetAnswerValue(Some(q), v, toNumber) == Some(a[q.questionId]))
  {
  }

  // ---------------------------------------------------------------------------
  // Submission

  datatype Doctor = Doctor(id: string, name: string)

  function FindDoctor(doctors: seq<Doctor>, id: string): (k: int)
    ensures -1 <= k < |doctors|
    ensures k >= 0 ==> doctors[k].id == id && forall j :: 0 <= j < k ==> doctors[j].id != id
    ensures k == -1 ==> forall j :: 0 <= j < |doctors| ==> doctors[j].id != id
  {
    if doctors == [] then -1
    else if doctors[0].id == id then 0
    else
      var k := FindDoctor(doctors[1..], id);
      if k == -1 then -1 else k + 1
  }

  /** The doctor a submission uses: the first one with the selected id, or
      the first in the list when none has it; none for an empty list. */
  function SelectDoctor(doctors: seq<Doctor>, selectedId: string): (d: Option<Doctor>)
    ensures d.None? <==> doctors == []
    ensures (exists k :: 0 <= k < |doctors| && doctors[k].id == selectedId) ==>
      d.Some? && d.value.id == selectedId &&
      exists k :: 0 <= k < |doctors| && d.value == doctors[k] && forall j :: 0 <= j < k ==> doctors[j].id != selectedId
    ensures doctors != [] && (forall j :: 0 <= j < |doctors| ==> doctors[j].id != selectedId) ==>
      d == Some(doctors[0])
  {
    if doctors == [] then None
    else
      var k := FindDoctor(doctors, selectedId);
      if k >= 0 then Some(doctors[k]) else Some(doctors[0])
  }

  /** The first form of the chosen specialization. */
  function FindForm(forms: seq<Form>, specialization: string): (f: Option<Form>)
    ensures f.Some? ==> f.value in forms && f.value.specialization == specialization
    ensures f.None? <==> forall g :: g in forms ==> g.specialization != specialization
    ensures f.Some? ==> exists k :: 0 <= k < |forms| && forms[k] == f.value &&
                          forall j :: 0 <= j < k ==> forms[j].specialization != specialization
  {
    if forms == [] then None
    else if forms[0].specialization == specialization then Some(forms[0])
    else
      var f := FindForm(forms[1..], specialization);
      assert f.Some? ==> exists k :: 0 <= k < |forms| - 1 && forms[1..][k] == f.value &&
                           forall j :: 0 <= j < k ==> forms[1..][j].specialization != specialization;
      f
  }

  /** The booking form's text fields. */
  datatype BookingForm = BookingForm(date: string, time: string, reason: string, symptoms: string, phone: string)

  const EmptyBookingForm := BookingForm("", "", "", "", "")

  datatype Submission =
    | NoDoctors                                        // toast, nothing sent
    | SubmitFailed                                     // thrown and caught: toast
    | Requested(doctorId: string, modelEvalId: string) // all three requests went out

  /** The dashboard's state. `doctorFilter` is the specialization handed to
      the doctors hook. */
  class Dashboard {
    var showForm: bool
    var formData: BookingForm
    var specialization: string
    var form: Option<Form>
    var answers: map<int, Value>
    var doctorId: string
    var doctorFilter: string

    constructor (filter: string)
      ensures !showForm && formData == EmptyBookingForm && specialization == ""
      ensures form.None? && answers == map[] && doctorId == "" && doctorFilter == filter
    {
      showForm := false;
      formData := EmptyBookingForm;
      specialization := "";
      form := None;
      answers := map[];
      doctorId := "";
      doctorFilter := filter;
    }

    /** Choosing a specialization clears the answers and the chosen doctor,
        filters the doctors by it, and picks its form if there is one. */
    method ChangeSpecialization(value: string, forms: seq<Form>)
      modifies this
      ensures specialization == value && answers == map[] && doctorId == "" && doctorFilter == value
      ensures form == FindForm(forms, value)
      ensures showForm == old(showForm) && formData == old(formData)
    {
      specialization := value;
      answers := map[];
      doctorId := "";
      doctorFilter := value;
      form := FindForm(forms, value);
    }

    /** The option select of a question stores the inline mapping of the choice. */
    method ChooseOption(q: Question, val: string)
      modifies this
      ensures answers == old(answers)[q.questionId := InlineAnswer(q, val)]
      ensures specialization == old(specialization) && form == old(form) && doctorId == old(doctorId)
      ensures doctorFilter == old(doctorFilter) && showForm == old(showForm) && formData == old(formData)
    {
      answers := answers[q.questionId := InlineAnswer(q, val)];
    }

    /** The input of a question without a select stores the typed input. */
    method EnterText(q: Question, v: string, toNumber: string -> Option<real>)
      modifies this
      ensures answers == old(answers)[q.questionId := TypedInput(q, v, toNumber)]
      ensures specialization == old(specialization) && form == old(form) && doctorId == old(doctorId)
      ensures doctorFilter == old(doctorFilter) && showForm == old(showForm) && formData == old(formData)
    {
      answers := answers[q.questionId := TypedInput(q, v, toNumber)];
    }

    /** `handleSubmit`. With no doctors nothing is sent. Without a form the
        model id cannot be read and the error is caught. A request that
        fails is caught too. Only after all three requests does the
        dashboard reset. The form check is not called. */
    method Submit(doctors: seq<Doctor>, requestsSucceed: bool) returns (r: Submission)
      modifies this
      ensures doctors == [] ==> r == NoDoctors
      ensures doctors != [] && (old(form).None? || !requestsSucceed) ==> r == SubmitFailed
      ensures doctors != [] && old(form).Some? && requestsSucceed ==>
        r == Requested(SelectDoctor(doctors, old(doctorId)).value.id, old(form).value.modelEvalId)
      ensures r.Requested? ==>
        formData == EmptyBookingForm && specialization == "" && form.None? &&
        answers == map[] && doctorId == "" && !showForm && doctorFilter == old(doctorFilter)
      ensures !r.Requested? ==>
        formData == old(formData) && specialization == old(specialization) && form == old(form) &&
        answers == old(answers) && doctorId == old(doctorId) && showForm == old(showForm) &&
        doctorFilter == old(doctorFilter)
    {
      if |doctors| == 0 {
        return NoDoctors;
      }
      var selected := SelectDoctor(doctors, doctorId).value;
      if form.None? || !requestsSucceed {
        return SubmitFailed;
      }
      r := Requested(selected.id, form.value.modelEvalId);
      formData := EmptyBookingForm;
      specialization := "";
      form := None;
      answers := map[];
      doctorId := "";
      showForm := false;
    }
  }
}
