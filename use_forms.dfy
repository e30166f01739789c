/** The questionnaire hook (frontend/src/hooks/useForms.ts): the effect that
    loads the forms, adds an `optionsMap` to every question whose option
    labels and values pair up, and derives the list of specializations; and
    `getAnswerValue`, which turns a selected label or a typed text into the
    answer value a question expects. The `/forms` request is a parameter:
    its result, or its failure. JavaScript's `Number(text)` is a parameter
    too, with `None` standing for NaN. */
module UseForms {
  import opened Support

  /** An answer value: a number, the number NaN, a string or a boolean. */
  datatype Value = Num(x: real) | NaN | Str(s: string) | Flag(b: bool)

  /** An `optionsMap` entry; `text` is its `label`. */
  datatype Entry = Entry(text: string, value: Value)

  /** A question as the form service sends it; `kind` is the `type` field. */
  datatype Question = Question(
    questionId: int, question: string, hasOptions: bool,
    options: Option<seq<string>>, optionsValue: Option<seq<real>>, kind: string,
    optionsMap: Option<seq<Entry>>)

  datatype Form = Form(specialization: string, questions: seq<Question>, formName: string, modelEvalId: string)

  // ---------------------------------------------------------------------------
  // Augmentation

  /** The guard of the augmentation: options are offered and the two arrays pair up. */
  predicate Augmentable(q: Question)
  {
    q.hasOptions && q.options.Some? && q.optionsValue.Some? && |q.options.value| == |q.optionsValue.value|
  }

  function Entries(labels: seq<string>, values: seq<real>): seq<Entry>
    requires |labels| == |values|
  {
    seq(|labels|, i requires 0 <= i < |labels| => Entry(labels[i], Num(values[i])))
  }

  function Augment(q: Question): Question
  {
    if Augmentable(q) then q.(optionsMap := Some(Entries(q.options.value, q.optionsValue.value))) else q
  }

  function AugmentForm(f: Form): Form
  {
    f.(questions := seq(|f.questions|, i requires 0 <= i < |f.questions| => Augment(f.questions[i])))
  }

  function AugmentForms(fs: seq<Form>): seq<Form>
  {
    seq(|fs|, i requires 0 <= i < |fs| => AugmentForm(fs[i]))
  }

  /** Every form keeps its specialization, name, model and question order;
      a question gains the entries `{options[i], optionsValue[i]}` exactly
      when it is augmentable, and is otherwise left as it was. */
  lemma AugmentFormsShape(fs: seq<Form>)
    ensures |AugmentForms(fs)| == |fs|
    ensures forall i :: 0 <= i < |fs| ==>
      var f, g := fs[i], AugmentForms(fs)[i];
      g.specialization == f.specialization && g.formName == f.formName &&
      g.modelEvalId == f.modelEvalId && |g.questions| == |f.questions|
    ensures forall i, k :: 0 <= i < |fs| && 0 <= k < |fs[i].questions| ==>
      var q, r := fs[i].questions[k], AugmentForms(fs)[i].questions[k];
      (Augmentable(q) ==>
        r.optionsMap.Some? && |r.optionsMap.value| == |q.options.value| &&
        (forall j :: 0 <= j < |q.options.value| ==>
          r.optionsMap.value[j] == Entry(q.options.value[j], Num(q.optionsValue.value[j]))) &&
        r == q.(optionsMap := r.optionsMap)) &&
      (!Augmentable(q) ==> r == q)
  {
  }

  // ---------------------------------------------------------------------------
  // Specializations

  function Names(fs: seq<Form>): seq<string>
  {
    seq(|fs|, i requires 0 <= i < |fs| => fs[i].specialization)
  }

  /** `Array.from(new Set(names.filter(Boolean)))`: the non-empty names,
      each once, in the order a `Set` keeps them. */
  function Specs(names: seq<string>): seq<string>
  {
    if names == [] then []
    else
      var d := Specs(names[..|names| - 1]);
      var x := names[|names| - 1];
      if x == "" || x in d then d else d + [x]
  }

  /** The position where a name first occurs. */
  function FirstAt(xs: seq<string>, x: string): (i: nat)
    requires x in xs
    ensures i < |xs| && xs[i] == x && forall k :: 0 <= k < i ==> xs[k] != x
  {
    if x in xs[..|xs| - 1] then FirstAt(xs[..|xs| - 1], x) else |xs| - 1
  }

  /** The specializations are the distinct non-empty names. */
  lemma {:induction false} SpecsElements(names: seq<string>)
    ensures forall x :: x in Specs(names) <==> x in names && x != ""
    ensures forall i, j :: 0 <= i < j < |Specs(names)| ==> Specs(names)[i] != Specs(names)[j]
  {
    if names != [] {
      var p := names[..|names| - 1];
      SpecsElements(p);
      assert names == p + [names[|names| - 1]];
    }
  }

  /** Appending a name does not move the first occurrence of an earlier one. */
  lemma FirstAtExtend(p: seq<string>, x: string, y: string)
    requires y in p
    ensures FirstAt(p + [x], y) == FirstAt(p, y)
  {
    var xs := p + [x];
    assert xs[..|xs| - 1] == p;
  }

  /** The specializations are listed in the order of their first occurrence. */
  lemma {:induction false} SpecsOrder(names: seq<string>)
    ensures forall x :: x in Specs(names) ==> x in names
    ensures forall i, j :: 0 <= i < j < |Specs(names)| ==>
      FirstAt(names, Specs(names)[i]) < FirstAt(names, Specs(names)[j])
  {
    SpecsElements(names);
    if names != [] {
      var n := |names|;
      var p := names[..n - 1];
      var d := Specs(p);
      var x := names[n - 1];
      SpecsOrder(p);
      SpecsElements(p);
      assert names == p + [x];
      forall y | y in d
        ensures FirstAt(names, y) == FirstAt(p, y)
      {
        FirstAtExtend(p, x, y);
      }
      if !(x == "" || x in d) {
        assert x !in p;
        assert FirstAt(names, x) == n - 1;
        var r := d + [x];
        assert Specs(names) == r;
        forall i, j | 0 <= i < j < |r|
          ensures FirstAt(names, r[i]) < FirstAt(names, r[j])
        {
          assert r[i] == d[i];
          if j < |d| {
            assert r[j] == d[j];
          } else {
            assert r[j] == x;
            assert FirstAt(p, d[i]) < n - 1;
          }
        }
      }
    }
  }

  // ---------------------------------------------------------------------------
  // The hook's state

  class FormsHook {
    var forms: seq<Form>
    var specializations: seq<string>
    var isLoading: bool

    constructor ()
      ensures forms == [] && specializations == [] && isLoading
    {
      forms := [];
      specializations := [];
      isLoading := true;
    }

    /** The mount effect, given what `GET /forms` produced (`None`: it failed). */
    method Load(response: Option<seq<Form>>)
      modifies this
      ensures !isLoading
      ensures response.None? ==> forms == [] && specializations == []
      ensures response.Some? ==> forms == AugmentForms(response.value)
      ensures specializations == Specs(Names(forms))
    {
      isLoading := true;
      match response {
        case None =>
          forms := [];
          specializations := [];
        case Some(fs) =>
          var augmented := AugmentForms(fs);
          assert Names(augmented) == Names(fs);
          forms := augmented;
          specializations := Specs(Names(augmented));
      }
      isLoading := false;
    }
  }

  // ---------------------------------------------------------------------------
  // getAnswerValue

  /** How a label is compared with the selected text. */
  datatype Mode = Exact | Folded | ExactOrFolded

  predicate LabelMatch(t: string, s: string, mode: Mode)
  {
    match mode
    case Exact => t == s
    case Folded => Lower(t) == Lower(s)
    case ExactOrFolded => t == s || Lower(t) == Lower(s)
  }

  /** `findIndex` over labels: the first matching position, or -1. */
  function FindIndex(xs: seq<string>, s: string, mode: Mode): (i: int)
    ensures -1 <= i < |xs|
    ensures i >= 0 ==> LabelMatch(xs[i], s, mode) && forall k :: 0 <= k < i ==> !LabelMatch(xs[k], s, mode)
    ensures i == -1 ==> forall k :: 0 <= k < |xs| ==> !LabelMatch(xs[k], s, mode)
  {
    if xs == [] then -1
    else if LabelMatch(xs[0], s, mode) then 0
    else
      var j := FindIndex(xs[1..], s, mode);
      if j == -1 then -1 else j + 1
  }

  function Labels(m: seq<Entry>): seq<string>
  {
    seq(|m|, i requires 0 <= i < |m| => m[i].text)
  }

  function GetAnswerValue(question: Option<Question>, selected: string,
                          toNumber: string -> Option<real>): Option<Value>
  {
    if question.None? then None
    else
      var q := question.value;
      if q.hasOptions then
        if q.optionsMap.Some? && |q.optionsMap.value| > 0 then
          var m := q.optionsMap.value;
          var e := FindIndex(Labels(m), selected, Exact);
          if e >= 0 then Some(m[e].value)
          else
            var c := FindIndex(Labels(m), selected, Folded);
            if c >= 0 then Some(m[c].value) else None
        else if q.options.Some? && q.optionsValue.Some? then
          var o, v := q.options.value, q.optionsValue.value;
          var e := FindIndex(o, selected, Exact);
          if e != -1 && e < |v| then Some(Num(v[e]))
          else
            var c := FindIndex(o, selected, Folded);
            if c != -1 && c < |v| then Some(Num(v[c])) else None
        else None
      else if q.kind == "number" then
        match toNumber(selected)
        case None => None
        case Some(x) => Some(Num(x))
      else if q.kind == "boolean" then
        var s := Lower(Trim(selected));
        if s == "true" || s == "1" then Some(Flag(true))
        else if s == "false" || s == "0" then Some(Flag(false))
        else None
      else Some(Str(selected))
  }

  /** An exact match is also a case-insensitive one, so the first
      case-insensitive match comes no later than the first exact match,
      and matching "exactly or case-insensitively" is matching case-insensitively. */
  lemma FoldedComesFirst(xs: seq<string>, s: string)
    ensures FindIndex(xs, s, ExactOrFolded) == FindIndex(xs, s, Folded)
    ensures FindIndex(xs, s, Exact) >= 0 ==>
      0 <= FindIndex(xs, s, Folded) <= FindIndex(xs, s, Exact)
  {
    var a, b := FindIndex(xs, s, ExactOrFolded), FindIndex(xs, s, Folded);
    assert forall k :: 0 <= k < |xs| ==> (LabelMatch(xs[k], s, ExactOrFolded) <==> LabelMatch(xs[k], s, Folded));
    var e := FindIndex(xs, s, Exact);
    if e >= 0 {
      assert LabelMatch(xs[e], s, Folded);
    }
  }

  /** With a non-empty `optionsMap`, the value of the first entry whose label
      equals the text wins; only when no label equals it does the first
      case-insensitive match count; with neither there is no answer. */
  lemma MapAnswer(q: Question, s: string, toNumber: string -> Option<real>)
    requires q.hasOptions && q.optionsMap.Some? && |q.optionsMap.value| > 0
    ensures var m, r := q.optionsMap.value, GetAnswerValue(Some(q), s, toNumber);
      (forall k :: 0 <= k < |m| && m[k].text == s && (forall j :: 0 <= j < k ==> m[j].text != s) ==>
        r == Some(m[k].value)) &&
      ((forall j :: 0 <= j < |m| ==> m[j].text != s) ==>
        forall k :: (0 <= k < |m| && Lower(m[k].text) == Lower(s) &&
          (forall j :: 0 <= j < k ==> Lower(m[j].text) != Lower(s))) ==> r == Some(m[k].value)) &&
      (r.None? <==> forall j :: 0 <= j < |m| ==> Lower(m[j].text) != Lower(s))
  {
    var m, r := q.optionsMap.value, GetAnswerValue(Some(q), s, toNumber);
    var ls := Labels(m);
    assert forall j :: 0 <= j < |m| ==> ls[j] == m[j].text;
    var e, c := FindIndex(ls, s, Exact), FindIndex(ls, s, Folded);
    assert r == if e >= 0 then Some(m[e].value) else if c >= 0 then Some(m[c].value) else None;
    FoldedComesFirst(ls, s);
    forall k | 0 <= k < |m| && m[k].text == s && (forall j :: 0 <= j < k ==> m[j].text != s)
      ensures r == Some(m[k].value)
    {
      assert LabelMatch(ls[k], s, Exact);
      assert e == k;
    }
    if forall j :: 0 <= j < |m| ==> m[j].text != s {
      assert e == -1;
      forall k | 0 <= k < |m| && Lower(m[k].text) == Lower(s) && (forall j :: 0 <= j < k ==> Lower(m[j].text) != Lower(s))
        ensures r == Some(m[k].value)
      {
        assert LabelMatch(ls[k], s, Folded);
        assert c == k;
      }
    }
  }

  /** Without an `optionsMap`, the options array is searched the same way,
      and a position yields `optionsValue[idx]` only if that array reaches it. */
  lemma ArrayAnswer(q: Question, s: string, toNumber: string -> Option<real>)
    requires q.hasOptions && (q.optionsMap.None? || |q.optionsMap.value| == 0)
    requires q.options.Some? && q.optionsValue.Some?
    ensures var o, v, r := q.options.value, q.optionsValue.value, GetAnswerValue(Some(q), s, toNumber);
      (r.Some? ==> exists k :: 0 <= k < |o| && k < |v| && Lower(o[k]) == Lower(s) && r == Some(Num(v[k]))) &&
      (forall k :: 0 <= k < |o| && k < |v| && o[k] == s && (forall j :: 0 <= j < k ==> o[j] != s) ==>
        r == Some(Num(v[k]))) &&
      ((forall j :: 0 <= j < |o| && j < |v| ==> o[j] != s) ==>
        forall k :: (0 <= k < |o| && Lower(o[k]) == Lower(s) &&
          (forall j :: 0 <= j < k ==> Lower(o[j]) != Lower(s))) ==>
          r == if k < |v| then Some(Num(v[k])) else None) &&
      ((forall j :: 0 <= j < |o| ==> Lower(o[j]) != Lower(s)) ==> r.None?)
  {
    var o, v, r := q.options.value, q.optionsValue.value, GetAnswerValue(Some(q), s, toNumber);
    var e, c := FindIndex(o, s, Exact), FindIndex(o, s, Folded);
    assert r == if e != -1 && e < |v| then Some(Num(v[e])) else if c != -1 && c < |v| then Some(Num(v[c])) else None;
    if forall j :: 0 <= j < |o| && j < |v| ==> o[j] != s {
      assert e == -1 || e >= |v|;
      forall k | 0 <= k < |o| && Lower(o[k]) == Lower(s) && (forall j :: 0 <= j < k ==> Lower(o[j]) != Lower(s))
        ensures r == if k < |v| then Some(Num(v[k])) else None
      {
        assert LabelMatch(o[k], s, Folded);
        assert c == k;
      }
    }
  }

  /** A question that offers options but carries neither structure has no answer. */
  lemma NoStructureNoAnswer(q: Question, s: string, toNumber: string -> Option<real>)
    requires q.hasOptions && (q.optionsMap.None? || |q.optionsMap.value| == 0)
    requires q.options.None? || q.optionsValue.None?
    ensures GetAnswerValue(Some(q), s, toNumber).None?
  {
  }

  /** Typed answers of a question without options: a number unless the text
      is NaN, a boolean from the trimmed, lower-cased text, or else the text itself. */
  lemma TypedAnswer(q: Question, s: string, toNumber: string -> Option<real>)
    requires !q.hasOptions
    ensures var r, t := GetAnswerValue(Some(q), s, toNumber), Lower(Trim(s));
      (q.kind == "number" ==> (r.None? <==> toNumber(s).None?) && (r.Some? ==> r == Some(Num(toNumber(s).value)))) &&
      (q.kind == "boolean" ==>
        (r == Some(Flag(true)) <==> t == "true" || t == "1") &&
        (r == Some(Flag(false)) <==> t == "false" || t == "0") &&
        (r.None? <==> t != "true" && t != "1" && t != "false" && t != "0")) &&
      (q.kind != "number" && q.kind != "boolean" ==> r == Some(Str(s)))
  {
  }

  /** Adding the `optionsMap` never changes an answer: the map repeats the
      arrays it was built from. */
  lemma AugmentPreservesAnswers(q: Question, s: string, toNumber: string -> Option<real>)
    requires q.optionsMap.None?
    ensures GetAnswerValue(Some(Augment(q)), s, toNumber) == GetAnswerValue(Some(q), s, toNumber)
  {
    if Augmentable(q) && |q.options.value| > 0 {
      var o, v := q.options.value, q.optionsValue.value;
      var m := Entries(o, v);
      assert Labels(m) == o;
    }
  }
}
