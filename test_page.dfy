/**
 * The state and the non-rendering logic of the interactive test page: the
 * answers and results fields, the input handlers, question visibility, the
 * progress count and the category badge.
 */
module TestPage {
  import opened Wrappers
  import opened MecTypes
  import opened JsCoerce
  import opened Mappings
  import opened Engine
  import opened Questions

  // ---------------------------------------------------------------------------
  // Visibility.
  // ---------------------------------------------------------------------------

  /** `String(c.equals)` for a non-boolean expectation. */
  function ExpectedString(e: Expected): string {
    match e
    case EBool(b) => if b then "true" else "false"
    case EStr(s) => s
    case ENum(n) => DecimalString(n)
  }

  /** One `when` clause: strict identity for a boolean, otherwise `String(actual) === String(equals)`. */
  predicate ClauseHolds(answers: Answers, c: When) {
    match c.equals
    case EBool(b) => Get(answers, c.id) == Some(Bool(b))
    case _ => ToStr(Get(answers, c.id)) == ExpectedString(c.equals)
  }

  /** `clauses.every(...)`, left to right. */
  predicate Every(answers: Answers, clauses: seq<When>)
    decreases |clauses|
  {
    clauses == [] || (ClauseHolds(answers, clauses[0]) && Every(answers, clauses[1..]))
  }

  /** `isVisible`: a question without `when` is always shown, otherwise every clause must hold. */
  predicate IsVisible(answers: Answers, q: Question) {
    q.when.None? || Every(answers, q.when.value)
  }

  /** `every` holds exactly when each clause holds. */
  lemma {:induction false} EveryIff(answers: Answers, clauses: seq<When>)
    ensures Every(answers, clauses) <==> forall c :: c in clauses ==> ClauseHolds(answers, c)
    decreases |clauses|
  {
    if clauses != [] {
      EveryIff(answers, clauses[1..]);
      assert forall c :: c in clauses <==> c == clauses[0] || c in clauses[1..];
    }
  }

  /** A question is visible exactly when it has no `when` or all of its clauses hold. */
  lemma VisibleIff(answers: Answers, q: Question)
    ensures IsVisible(answers, q) <==> q.when.None? || forall c :: c in q.when.value ==> ClauseHolds(answers, c)
  {
    if q.when.Some? {
      EveryIff(answers, q.when.value);
    }
  }

  /**
   * Non-boolean expectations compare strings: a number answer 0 satisfies the
   * expectation "0", and an absent answer satisfies only "undefined".
   */
  lemma StringCoercedClauses(answers: Answers, id: string, s: string, n: int)
    ensures ClauseHolds(map[id := Number(Int(0))], When(id, EStr("0")))
    ensures Get(answers, id) == None ==> (ClauseHolds(answers, When(id, EStr(s))) <==> s == "undefined")
    ensures Get(answers, id) == None ==> !ClauseHolds(answers, When(id, ENum(n)))
    ensures !ClauseHolds(map[id := Str("true")], When(id, EBool(true)))
  {
    assert DecimalString(0) == "0";
    if Get(answers, id) == None {
      var d := DecimalString(n);
      assert |d| > 0 && (d[0] == '-' || IsDigit(d[0]));
      assert "undefined"[0] == 'u';
    }
  }

  /**
   * Visibility reads only the parent's answer: with `NULIPARA` true but a stale
   * `POSPARTO_RECENTE` true, `LACTANCIA_ACTUAL` is shown while
   * `POSPARTO_RECENTE` itself is hidden.
   */
  lemma StaleParentKeepsChildVisible(answers: Answers)
    requires Get(answers, "NULIPARA") == Some(Bool(true)) && Get(answers, "POSPARTO_RECENTE") == Some(Bool(true))
    ensures Catalog[4].id == "POSPARTO_RECENTE" && !IsVisible(answers, Catalog[4])
    ensures Catalog[6].id == "LACTANCIA_ACTUAL" && IsVisible(answers, Catalog[6])
  {
    assert Catalog[4].when.value[1..] == [] && Catalog[6].when.value[1..] == [];
  }

  /** `QUESTIONS.filter(isVisible)`. */
  function VisibleQuestions(answers: Answers, qs: seq<Question>): seq<Question>
    decreases |qs|
  {
    if qs == [] then []
    else
      var rest := VisibleQuestions(answers, qs[..|qs| - 1]);
      if IsVisible(answers, qs[|qs| - 1]) then rest + [qs[|qs| - 1]] else rest
  }

  /** The filter keeps exactly the visible questions, and never more than it was given. */
  lemma {:induction false} VisibleQuestionsMember(answers: Answers, qs: seq<Question>)
    ensures |VisibleQuestions(answers, qs)| <= |qs|
    ensures forall q :: q in VisibleQuestions(answers, qs) <==> q in qs && IsVisible(answers, q)
    decreases |qs|
  {
    if qs != [] {
      var init := qs[..|qs| - 1];
      VisibleQuestionsMember(answers, init);
      assert forall q :: q in qs <==> q in init || q == qs[|qs| - 1];
    }
  }

  /** Questions without a `when` clause are always in the visible list. */
  lemma UnconditionalAlwaysVisible(answers: Answers, q: Question)
    requires q in Catalog && q.when.None?
    ensures q in VisibleQuestions(answers, Catalog)
  {
    VisibleQuestionsMember(answers, Catalog);
  }

  // ---------------------------------------------------------------------------
  // Progress.
  // ---------------------------------------------------------------------------

  /** An answer counts as given when it is neither `undefined` nor `""`; `false` and `0` count. */
  predicate Answered(answers: Answers, id: string) {
    Get(answers, id) != None && Get(answers, id) != Some(Str(""))
  }

  /** The `reduce` that counts answered questions. */
  function AnsweredCount(answers: Answers, qs: seq<Question>): nat
    decreases |qs|
  {
    if qs == [] then 0
    else AnsweredCount(answers, qs[..|qs| - 1]) + (if Answered(answers, qs[|qs| - 1].id) then 1 else 0)
  }

  /** The count never exceeds the number of questions, and reaches it exactly when all are answered. */
  lemma {:induction false} AnsweredCountBounds(answers: Answers, qs: seq<Question>)
    ensures AnsweredCount(answers, qs) <= |qs|
    ensures AnsweredCount(answers, qs) == |qs| <==> forall q :: q in qs ==> Answered(answers, q.id)
    decreases |qs|
  {
    if qs != [] {
      var init := qs[..|qs| - 1];
      AnsweredCountBounds(answers, init);
      assert forall q :: q in qs <==> q in init || q == qs[|qs| - 1];
    }
  }

  /** The progress shown: answered visible questions over visible questions. */
  lemma ProgressBounded(answers: Answers)
    ensures AnsweredCount(answers, VisibleQuestions(answers, Catalog)) <= |VisibleQuestions(answers, Catalog)| <= |Catalog|
  {
    AnsweredCountBounds(answers, VisibleQuestions(answers, Catalog));
    VisibleQuestionsMember(answers, Catalog);
  }

  // ---------------------------------------------------------------------------
  // Inputs.
  // ---------------------------------------------------------------------------

  /** The value a number field stores for the text typed in it: `Number(text)`. */
  function NumberFieldValue(text: string): (v: AnswerValue)
    ensures v.Number?
    ensures text == "" ==> v == Number(Int(0))
  {
    Number(ParseNumber(text))
  }

  /** Typing back the decimal form of an integer stores that integer. */
  lemma NumberFieldRoundTrip(n: int)
    ensures NumberFieldValue(DecimalString(n)) == Number(Int(n))
  {
    ParseNumberDecimalString(n);
  }

  /** What a select shows: the stored answer, or its first option while nothing (or null) is stored. */
  function SelectDisplay(answers: Answers, q: Question): string {
    if Get(answers, q.id) == None || Get(answers, q.id) == Some(Null) then
      (if q.options.Some? && |q.options.value| > 0 then q.options.value[0] else "")
    else ToStr(Get(answers, q.id))
  }

  /**
   * A select shows its first option before it is touched, but nothing is
   * stored: the postpartum select shows "<21" while the postpartum rule applies
   * nothing.
   */
  lemma SelectDefaultNotStored(answers: Answers)
    requires "POSPARTO_PERIODO" !in answers
    ensures Catalog[5].id == "POSPARTO_PERIODO" && SelectDisplay(answers, Catalog[5]) == "<21"
    ensures PostpartumEmissions(answers) == []
  {
    assert Selection(answers, "POSPARTO_PERIODO", "NO") == "NO";
  }

  // ---------------------------------------------------------------------------
  // Results display.
  // ---------------------------------------------------------------------------

  datatype Badge = Apto | Precaucion | Contraindicado

  /** The badge for a category: 1, then 2, then anything else. */
  function BadgeOf(category: Category): (b: Badge)
    ensures b == Apto <==> category == 1
    ensures b == Precaucion <==> category == 2
    ensures b == Contraindicado <==> category >= 3
  {
    if category == 1 then Apto else if category == 2 then Precaucion else Contraindicado
  }

  /** The text of each badge. */
  function BadgeText(b: Badge): string {
    match b
    case Apto => "✅ 1–2 (apto)"
    case Precaucion => "⚠ 3 (precaución)"
    case Contraindicado => "❌ 4 (contraindicado)"
  }

  /** The badge text a result shows for each category. */
  lemma BadgeTextOf(category: Category)
    ensures category == 1 ==> BadgeText(BadgeOf(category)) == "✅ 1–2 (apto)"
    ensures category == 2 ==> BadgeText(BadgeOf(category)) == "⚠ 3 (precaución)"
    ensures category >= 3 ==> BadgeText(BadgeOf(category)) == "❌ 4 (contraindicado)"
  {
  }

  /** The reasons line appears only for a non-empty reason list. */
  predicate ShowsReasons(r: MethodResult) {
    |r.reason| > 0
  }

  /** For every evaluated result, the reasons line appears exactly under the "contraindicado" badge. */
  lemma ReasonsShownIffContraindicated(answers: Answers, r: MethodResult)
    requires r in Evaluation(answers)
    ensures ShowsReasons(r) <==> BadgeOf(r.category) == Contraindicado
  {
    ResultReasonsIffSevere(answers, r);
  }

  // ---------------------------------------------------------------------------
  // Page state.
  // ---------------------------------------------------------------------------

  /** The page's two state fields. */
  class TestForm {
    var answers: Answers
    var results: Option<seq<MethodResult>>

    /** Both fields start empty. */
    constructor ()
      ensures answers == map[] && results == None
    {
      answers := map[];
      results := None;
    }

    /** `onChange`: one key replaced, the others and the results kept. */
    method OnChange(id: string, value: AnswerValue)
      modifies this
      ensures answers == old(answers)[id := value] && results == old(results)
    {
      answers := answers[id := value];
    }

    /** The number field's handler: store `Number(text)`. */
    method OnNumberInput(id: string, text: string)
      modifies this
      ensures answers == old(answers)[id := NumberFieldValue(text)] && results == old(results)
    {
      OnChange(id, Number(ParseNumber(text)));
    }

    /** "Limpiar": empty answers, no results. */
    method Clear()
      modifies this
      ensures answers == map[] && results == None
    {
      answers := map[];
      results := None;
    }

    /** `handleSubmit`: evaluate every stored answer, visible or not. */
    method Submit()
      modifies this
      ensures answers == old(answers) && results == Some(Evaluation(answers))
    {
      var res := EvaluateFromAnswers(answers);
      results := Some(res);
    }
  }

  /** An emptied number field stores 0 and keeps the key present and counted as answered. */
  lemma EmptiedNumberFieldStoresZero(answers: Answers, id: string)
    ensures answers[id := NumberFieldValue("")][id] == Number(Int(0))
    ensures Answered(answers[id := NumberFieldValue("")], id)
  {
  }

  /**
   * Submitting evaluates hidden answers too: a postpartum interval "<21" left
   * over after `POSPARTO_RECENTE` became false hides the question yet still
   * puts the CHC methods at 4.
   */
  lemma HiddenAnswersStillCount(answers: Answers)
    requires Get(answers, "POSPARTO_RECENTE") == Some(Bool(false)) && Get(answers, "POSPARTO_PERIODO") == Some(Str("<21"))
    ensures Catalog[5].id == "POSPARTO_PERIODO" && !IsVisible(answers, Catalog[5])
    ensures forall r :: r in Evaluation(answers) && IsChc(r.key) ==> r.category == 4
  {
    assert Selection(answers, "POSPARTO_PERIODO", "NO") == "<21";
    assert PostpartumEmissions(answers) == ChcEmissions(4, "POSPARTO:" + "<21");
    ChcRaised(answers, 4, "POSPARTO:" + "<21");
  }
}
