/**
 * The evaluation entry points. `EvaluateFromAnswers` initialises one
 * accumulator slot per evaluated method, applies the static condition table
 * row by row, runs the dynamic rules on the same accumulator and assembles one
 * result per method. `Evaluation` is the same computation stated as a fold of
 * emissions, and the lemmas below state what every result means.
 */
module Engine {
  import opened Wrappers
  import opened MecTypes
  import opened JsCoerce
  import opened Mappings

  // ---------------------------------------------------------------------------
  // Specification.
  // ---------------------------------------------------------------------------

  /** The starting accumulator: every evaluated method at category 1 with no reasons. */
  function InitSlots(): (r: map<MethodKey, Slot>)
    ensures Tracks(r) && NATURALES !in r
    ensures forall m :: m in r ==> r[m] == Fresh
  {
    AllMethodsShape();
    map m | m in AllMethods :: Fresh
  }

  /** The reason label of a static row: `${condId}:${cat}`. */
  function StaticTag(cond: string, cat: Category): string {
    cond + ":" + DecimalString(cat)
  }

  /** The applications a fired row makes, one per cell, in cell order. */
  function CellEmissions(cond: string, cells: seq<Cell>): (r: seq<Emission>)
    ensures |r| == |cells|
    decreases |cells|
  {
    if cells == [] then []
    else
      var c := cells[|cells| - 1];
      CellEmissions(cond, cells[..|cells| - 1]) + [Emission(c.key, c.cat, StaticTag(cond, c.cat))]
  }

  /** A row applies only when its condition's answer is truthy. */
  function RowEmissions(answers: Answers, row: Row): seq<Emission> {
    if Truthy(Get(answers, row.cond)) then CellEmissions(row.cond, row.cells) else []
  }

  /** The static pass over `rows`, in row order. */
  function StaticEmissions(answers: Answers, rows: seq<Row>): seq<Emission>
    decreases |rows|
  {
    if rows == [] then []
    else StaticEmissions(answers, rows[..|rows| - 1]) + RowEmissions(answers, rows[|rows| - 1])
  }

  /** Every application of one evaluation: the static pass, then the dynamic rules. */
  function Emissions(answers: Answers): seq<Emission> {
    StaticEmissions(answers, ConditionTable) + DynamicEmissions(answers)
  }

  /** The accumulator once both passes have run. */
  function Final(answers: Answers): (r: map<MethodKey, Slot>)
    ensures Tracks(r)
  {
    Apply(InitSlots(), Emissions(answers))
  }

  /** `ALL_METHODS.map(...)`: one result per evaluated method, in list order. */
  function Output(slots: map<MethodKey, Slot>): (r: seq<MethodResult>)
    requires Tracks(slots)
    ensures |r| == |AllMethods|
  {
    seq(|AllMethods|, i requires 0 <= i < |AllMethods| =>
      MethodResult(AllMethods[i], slots[AllMethods[i]].cat, slots[AllMethods[i]].why))
  }

  /** The results `evaluateMECFromAnswers(answers)` returns. */
  function Evaluation(answers: Answers): seq<MethodResult> {
    Output(Final(answers))
  }

  /** The input of `evaluateMEC`: a list of active condition ids or an answers map. */
  datatype EvalInput = IdList(ids: seq<string>) | AnswerMap(answers: Answers)

  /** The answers `evaluateMEC` builds from a list: every listed id set to `true`. */
  function TrueMap(ids: seq<string>): (r: Answers)
    ensures forall id :: id in r <==> id in ids
    ensures forall id :: id in r ==> r[id] == Bool(true)
  {
    map id | id in ids :: Bool(true)
  }

  /** The answers one call of `evaluateMEC` evaluates. */
  function InputAnswers(input: EvalInput): Answers {
    match input
    case IdList(ids) => TrueMap(ids)
    case AnswerMap(answers) => answers
  }

  // ---------------------------------------------------------------------------
  // The imperative evaluation.
  // ---------------------------------------------------------------------------

  /** The accumulator after the `reduce` has visited the first `i` methods. */
  function InitPrefix(i: nat): map<MethodKey, Slot>
    requires i <= |AllMethods|
  {
    map m | m in AllMethods[..i] :: Fresh
  }

  /** Visiting one more method adds its fresh slot; visiting them all gives `InitSlots()`. */
  lemma InitPrefixStep(i: nat)
    requires i < |AllMethods|
    ensures InitPrefix(i + 1) == InitPrefix(i)[AllMethods[i] := Fresh]
    ensures i + 1 == |AllMethods| ==> InitPrefix(i + 1) == InitSlots()
  {
    assert AllMethods[..i + 1] == AllMethods[..i] + [AllMethods[i]];
    assert AllMethods[..|AllMethods|] == AllMethods;
  }

  /** The `ALL_METHODS.reduce` that builds the accumulator. */
  method InitPerMethod() returns (perMethod: PerMethod)
    ensures fresh(perMethod)
    ensures perMethod.slots == InitSlots()
  {
    perMethod := new PerMethod();
    for i := 0 to |AllMethods|
      invariant perMethod.slots == InitPrefix(i)
      invariant i == |AllMethods| ==> perMethod.slots == InitSlots()
    {
      InitPrefixStep(i);
      perMethod.slots := perMethod.slots[AllMethods[i] := Fresh];
    }
  }

  /**
   * The inner static loop over a fired row: raise each cell's method to the
   * cell's category and record `condId:cat` when it is 3 or more. The inline
   * update is the same as `worsenOne`, so the model calls it.
   */
  method ApplyCells(perMethod: PerMethod, cond: string, cells: seq<Cell>)
    requires Tracks(perMethod.slots)
    modifies perMethod
    ensures perMethod.slots == Apply(old(perMethod.slots), CellEmissions(cond, cells))
  {
    ghost var before := perMethod.slots;
    for j := 0 to |cells|
      invariant perMethod.slots == Apply(before, CellEmissions(cond, cells[..j]))
    {
      CellStep(before, cond, cells, j);
      perMethod.WorsenOne(cells[j].key, cells[j].cat, StaticTag(cond, cells[j].cat));
    }
    assert cells[..|cells|] == cells;
  }

  /** One more cell of a fired row is one more `worsenOne`. */
  lemma CellStep(before: map<MethodKey, Slot>, cond: string, cells: seq<Cell>, j: nat)
    requires Tracks(before) && j < |cells|
    ensures Apply(before, CellEmissions(cond, cells[..j + 1]))
      == StepMap(Apply(before, CellEmissions(cond, cells[..j])), Emission(cells[j].key, cells[j].cat, StaticTag(cond, cells[j].cat)))
  {
    assert cells[..j + 1][..j] == cells[..j];
    ApplySnoc(before, CellEmissions(cond, cells[..j]), Emission(cells[j].key, cells[j].cat, StaticTag(cond, cells[j].cat)));
  }

  /** One iteration of the static loop: a row whose answer is not truthy is skipped. */
  method ApplyRow(answers: Answers, perMethod: PerMethod, row: Row)
    requires Tracks(perMethod.slots)
    modifies perMethod
    ensures perMethod.slots == Apply(old(perMethod.slots), RowEmissions(answers, row))
  {
    if Truthy(Get(answers, row.cond)) {
      ApplyCells(perMethod, row.cond, row.cells);
    }
  }

  /** One more row of the static pass is one more `Apply`. */
  lemma StaticStep(init: map<MethodKey, Slot>, answers: Answers, rows: seq<Row>, i: nat,
                   mid: map<MethodKey, Slot>, after: map<MethodKey, Slot>)
    requires Tracks(init) && i < |rows|
    requires mid == Apply(init, StaticEmissions(answers, rows[..i]))
    requires after == Apply(mid, RowEmissions(answers, rows[i]))
    ensures after == Apply(init, StaticEmissions(answers, rows[..i + 1]))
  {
    assert rows[..i + 1][..i] == rows[..i];
    ApplyConcat(init, StaticEmissions(answers, rows[..i]), RowEmissions(answers, rows[i]));
  }

  /** The outer static loop: every row whose condition is truthy is applied, in row order. */
  method StaticPass(answers: Answers, perMethod: PerMethod, rows: seq<Row>)
    requires Tracks(perMethod.slots)
    modifies perMethod
    ensures Tracks(perMethod.slots)
    ensures perMethod.slots == Apply(old(perMethod.slots), StaticEmissions(answers, rows))
  {
    ghost var init := perMethod.slots;
    var i := 0;
    while i < |rows|
      invariant 0 <= i <= |rows|
      invariant perMethod.slots == Apply(init, StaticEmissions(answers, rows[..i]))
    {
      ghost var mid := perMethod.slots;
      ApplyRow(answers, perMethod, rows[i]);
      StaticStep(init, answers, rows, i, mid, perMethod.slots);
      i := i + 1;
    }
    assert rows[..i] == rows;
  }

  /** `evaluateMECFromAnswers`: static pass over the table, dynamic pass, output. */
  method EvaluateFromAnswers(answers: Answers) returns (results: seq<MethodResult>)
    ensures results == Evaluation(answers)
  {
    var perMethod := InitPerMethod();
    ghost var init := perMethod.slots;
    StaticPass(answers, perMethod, ConditionTable);
    ApplyDynamicRules(answers, perMethod);
    ApplyConcat(init, StaticEmissions(answers, ConditionTable), DynamicEmissions(answers));
    results := Output(perMethod.slots);
  }

  /** `evaluateMEC`: a list is first turned into a map of `true` answers. */
  method EvaluateMec(input: EvalInput) returns (results: seq<MethodResult>)
    ensures results == Evaluation(InputAnswers(input))
  {
    match input
    case AnswerMap(answers) =>
      results := EvaluateFromAnswers(answers);
    case IdList(ids) =>
      var answers := ListAnswers(ids);
      results := EvaluateFromAnswers(answers);
  }

  /** The loop of `evaluateMEC` that sets every listed id to `true`. */
  method ListAnswers(ids: seq<string>) returns (answers: Answers)
    ensures answers == TrueMap(ids)
  {
    answers := map[];
    var k := 0;
    while k < |ids|
      invariant 0 <= k <= |ids|
      invariant answers == TrueMap(ids[..k])
    {
      assert ids[..k + 1] == ids[..k] + [ids[k]];
      answers := answers[ids[k] := Bool(true)];
      k := k + 1;
    }
    assert ids[..k] == ids;
  }

  // ---------------------------------------------------------------------------
  // What the results mean.
  // ---------------------------------------------------------------------------

  /** The labels the static rows use for categories 3 and 4. */
  lemma StaticTagDigits(cond: string)
    ensures StaticTag(cond, 3) == cond + ":3" && StaticTag(cond, 4) == cond + ":4"
  {
    assert DecimalString(3) == "3" && DecimalString(4) == "4";
  }

  /** One result per evaluated method, in the order of `AllMethods`, and never `NATURALES`. */
  lemma EvaluationShape(answers: Answers)
    ensures |Evaluation(answers)| == 11
    ensures forall i :: 0 <= i < 11 ==> Evaluation(answers)[i].key == AllMethods[i]
    ensures forall r :: r in Evaluation(answers) ==> r.key != NATURALES
    ensures forall i, j :: 0 <= i < j < 11 ==> Evaluation(answers)[i].key != Evaluation(answers)[j].key
  {
    AllMethodsShape();
  }

  /** A result reports its method's final accumulator slot. */
  lemma ResultOf(answers: Answers, r: MethodResult)
    requires r in Evaluation(answers)
    ensures r.key != NATURALES && r.key in AllMethods
    ensures r.category == Final(answers)[r.key].cat && r.reason == Final(answers)[r.key].why
  {
    var i :| 0 <= i < |Evaluation(answers)| && Evaluation(answers)[i] == r;
  }

  /**
   * A result's category is the largest of 1 and of every category applied to
   * its method by a static row or a dynamic rule; its reasons are the labels of
   * the applications at 3 or more, in application order.
   */
  lemma ResultIsMaximum(answers: Answers, r: MethodResult)
    requires r in Evaluation(answers)
    ensures IsMaxOf(r.category, 1, Emissions(answers), r.key)
    ensures r.reason == Labels(Emissions(answers), r.key)
  {
    ResultOf(answers, r);
    ApplyAt(InitSlots(), Emissions(answers), r.key);
    FoldKeyIsMax(Fresh, Emissions(answers), r.key);
  }

  /** Applying the same rules in any other order gives the same category. */
  lemma ResultOrderIndependent(answers: Answers, r: MethodResult, es: seq<Emission>)
    requires r in Evaluation(answers) && multiset(es) == multiset(Emissions(answers))
    ensures r.category == FoldKey(Fresh, es, r.key).cat
  {
    ResultOf(answers, r);
    ApplyAt(InitSlots(), Emissions(answers), r.key);
    MaxIsOrderIndependent(Fresh, Emissions(answers), es, r.key);
  }

  /** A result carries reasons exactly when its category is 3 or 4. */
  lemma ResultReasonsIffSevere(answers: Answers, r: MethodResult)
    requires r in Evaluation(answers)
    ensures |r.reason| > 0 <==> r.category >= 3
  {
    ResultOf(answers, r);
    ApplyAt(InitSlots(), Emissions(answers), r.key);
    ReasonsIffSevere(Emissions(answers), r.key);
  }

  /** Every application raises its method's result to at least its category and, at 3 or more, is listed. */
  lemma EmissionRaises(answers: Answers, e: Emission)
    requires e in Emissions(answers)
    ensures forall r :: r in Evaluation(answers) && r.key == e.key ==>
      r.category >= e.cat && (e.cat >= 3 ==> e.tag in r.reason)
  {
    forall r | r in Evaluation(answers) && r.key == e.key
      ensures r.category >= e.cat && (e.cat >= 3 ==> e.tag in r.reason)
    {
      ResultIsMaximum(answers, r);
      if e.cat >= 3 {
        LabelsContain(Emissions(answers), r.key, e);
      }
    }
  }

  /** A fired row applies, in cell order, each cell's category under the label `condId:cat`. */
  lemma {:induction false} CellEmissionsAt(cond: string, cells: seq<Cell>)
    ensures forall k :: 0 <= k < |cells| ==>
      CellEmissions(cond, cells)[k] == Emission(cells[k].key, cells[k].cat, StaticTag(cond, cells[k].cat))
    decreases |cells|
  {
    if cells != [] {
      var init := cells[..|cells| - 1];
      CellEmissionsAt(cond, init);
      assert forall k :: 0 <= k < |init| ==> init[k] == cells[k];
    }
  }

  /** A truthy row's applications are in the static pass. */
  lemma {:induction false} StaticMemberIntro(answers: Answers, rows: seq<Row>, k: nat, e: Emission)
    requires k < |rows| && Truthy(Get(answers, rows[k].cond)) && e in CellEmissions(rows[k].cond, rows[k].cells)
    ensures e in StaticEmissions(answers, rows)
    decreases |rows|
  {
    var init := rows[..|rows| - 1];
    if k < |init| {
      assert init[k] == rows[k];
      StaticMemberIntro(answers, init, k, e);
    }
  }

  /** Every application of the static pass comes from a row whose answer is truthy. */
  lemma {:induction false} StaticMemberElim(answers: Answers, rows: seq<Row>, e: Emission) returns (k: nat)
    requires e in StaticEmissions(answers, rows)
    ensures k < |rows| && Truthy(Get(answers, rows[k].cond)) && e in CellEmissions(rows[k].cond, rows[k].cells)
    decreases |rows|
  {
    var init := rows[..|rows| - 1];
    if e in StaticEmissions(answers, init) {
      k := StaticMemberElim(answers, init, e);
      assert init[k] == rows[k];
    } else {
      k := |rows| - 1;
    }
  }

  /** Static rows never apply category 2. */
  lemma {:induction false} StaticNeverTwo(answers: Answers, rows: seq<Row>)
    ensures forall e :: e in StaticEmissions(answers, rows) ==> e.cat != 2
    decreases |rows|
  {
    if rows != [] {
      var last := rows[|rows| - 1];
      StaticNeverTwo(answers, rows[..|rows| - 1]);
      CellEmissionsAt(last.cond, last.cells);
    }
  }

  /** The static pass reads only the answers to the rows' conditions. */
  lemma {:induction false} StaticReadsOnly(a: Answers, b: Answers, rows: seq<Row>)
    requires forall k :: 0 <= k < |rows| ==> Get(a, rows[k].cond) == Get(b, rows[k].cond)
    ensures StaticEmissions(a, rows) == StaticEmissions(b, rows)
    decreases |rows|
  {
    if rows != [] {
      var init := rows[..|rows| - 1];
      assert forall k :: 0 <= k < |init| ==> init[k] == rows[k];
      StaticReadsOnly(a, b, init);
    }
  }

  /** With no row's condition answered, the static pass applies nothing. */
  lemma {:induction false} StaticUnanswered(answers: Answers, rows: seq<Row>)
    requires forall k :: 0 <= k < |rows| ==> rows[k].cond !in answers
    ensures StaticEmissions(answers, rows) == []
    decreases |rows|
  {
    if rows != [] {
      var init := rows[..|rows| - 1];
      assert forall k :: 0 <= k < |init| ==> init[k] == rows[k];
      StaticUnanswered(answers, init);
    }
  }

  /** A fired row's cell raises its method's result and, at 3 or more, lists `condId:cat`. */
  lemma RowRaises(answers: Answers, rows: seq<Row>, k: nat, c: Cell, r: MethodResult)
    requires rows == ConditionTable && k < |rows| && Truthy(Get(answers, rows[k].cond)) && c in rows[k].cells
    requires r in Evaluation(answers) && r.key == c.key
    ensures r.category >= c.cat && (c.cat >= 3 ==> StaticTag(rows[k].cond, c.cat) in r.reason)
  {
    var row := rows[k];
    var j :| 0 <= j < |row.cells| && row.cells[j] == c;
    CellEmissionsAt(row.cond, row.cells);
    var e := CellEmissions(row.cond, row.cells)[j];
    StaticMemberIntro(answers, rows, k, e);
    EmissionRaises(answers, e);
  }

  /** Empty answers leave every method at category 1 with no reasons. */
  lemma EmptyAnswersIdentity()
    ensures forall r :: r in Evaluation(map[]) ==> r.category == 1 && r.reason == []
  {
    StaticUnanswered(map[], ConditionTable);
    BooleanAnswersNoDynamic(map[]);
    assert Emissions(map[]) == [];
    forall r | r in Evaluation(map[]) ensures r.category == 1 && r.reason == [] {
      ResultIsMaximum(map[], r);
    }
  }

  /** A truthy `EMBARAZO_ACTUAL` puts every evaluated method at 4, each with the reason "EMBARAZO_ACTUAL:4". */
  lemma PregnancyContraindicatesAll(answers: Answers)
    requires Truthy(Get(answers, "EMBARAZO_ACTUAL"))
    ensures forall r :: r in Evaluation(answers) ==> r.category == 4 && "EMBARAZO_ACTUAL" + ":4" in r.reason
  {
    PregnancyAndAuraRows();
    StaticTagDigits("EMBARAZO_ACTUAL");
    forall r | r in Evaluation(answers) ensures r.category == 4 && "EMBARAZO_ACTUAL" + ":4" in r.reason {
      ResultOf(answers, r);
      RowRaises(answers, ConditionTable, 22, Cell(r.key, 4), r);
    }
  }

  /**
   * The static `SANGRADO_ABUNDANTE` row fires on any non-empty string answer,
   * "NINGUNO" included: the copper IUD is then at 3 or more.
   */
  lemma BleedingRowFiresOnAnyString(answers: Answers, sel: string)
    requires Get(answers, "SANGRADO_ABUNDANTE") == Some(Str(sel)) && sel != ""
    ensures forall r :: r in Evaluation(answers) && r.key == DIU_CU ==>
      r.category >= 3 && "SANGRADO_ABUNDANTE" + ":3" in r.reason
  {
    HypertensionAndBleedingRows();
    StaticTagDigits("SANGRADO_ABUNDANTE");
    forall r | r in Evaluation(answers) && r.key == DIU_CU ensures r.category >= 3 && "SANGRADO_ABUNDANTE" + ":3" in r.reason {
      RowRaises(answers, ConditionTable, 23, Cell(DIU_CU, 3), r);
    }
  }

  /**
   * A truthy `HTA_160_100` puts the CHC methods at 4 whatever the postpartum or
   * lactation interval: the interval rules can only raise a category.
   */
  lemma SevereHypertensionContraindicatesChc(answers: Answers)
    requires Truthy(Get(answers, "HTA_160_100"))
    ensures forall r :: r in Evaluation(answers) && IsChc(r.key) ==> r.category == 4 && "HTA_160_100" + ":4" in r.reason
  {
    HypertensionAndBleedingRows();
    StaticTagDigits("HTA_160_100");
    forall r | r in Evaluation(answers) && IsChc(r.key) ensures r.category == 4 && "HTA_160_100" + ":4" in r.reason {
      RowRaises(answers, ConditionTable, 4, Cell(r.key, 4), r);
    }
  }

  /** A dynamic application is one of the evaluation's applications. */
  lemma DynamicRaises(answers: Answers, e: Emission)
    requires e in DynamicEmissions(answers)
    ensures forall r :: r in Evaluation(answers) && r.key == e.key ==>
      r.category >= e.cat && (e.cat >= 3 ==> e.tag in r.reason)
  {
    assert e in Emissions(answers);
    EmissionRaises(answers, e);
  }

  /** Dynamic applications to all three CHC methods raise all three results. */
  lemma ChcRaised(answers: Answers, c: Category, tag: string)
    requires forall e :: e in ChcEmissions(c, tag) ==> e in DynamicEmissions(answers)
    ensures forall r :: r in Evaluation(answers) && IsChc(r.key) ==> r.category >= c && (c >= 3 ==> tag in r.reason)
  {
    var es := ChcEmissions(c, tag);
    DynamicRaises(answers, es[0]);
    DynamicRaises(answers, es[1]);
    DynamicRaises(answers, es[2]);
  }

  /**
   * Smoking at 35 or over puts the CHC methods at 3 or more with the smoking
   * label, and at 4 with 15 or more cigarettes a day.
   */
  lemma SmokingAt35Result(answers: Answers)
    requires Smokes35(answers)
    ensures forall r :: r in Evaluation(answers) && IsChc(r.key) ==>
      r.category >= 3 && SmokingLabel(HeavySmoker(answers)) in r.reason
    ensures HeavySmoker(answers) ==> forall r :: r in Evaluation(answers) && IsChc(r.key) ==> r.category == 4
  {
    var c: Category := if HeavySmoker(answers) then 4 else 3;
    assert SmokingEmissions(answers) == ChcEmissions(c, SmokingLabel(HeavySmoker(answers)));
    ChcRaised(answers, c, SmokingLabel(HeavySmoker(answers)));
  }

  /** "ABORTO_SEPTICO" as the abortion type puts both IUDs at 4 with the reason "ABORTO_SEPTICO". */
  lemma SepticAbortionResult(answers: Answers)
    requires Selection(answers, "ABORTO_RECIENTE_TIPO", "NO") == "ABORTO_SEPTICO"
    ensures forall r :: r in Evaluation(answers) && (r.key == DIU_CU || r.key == DIU_LNG) ==>
      r.category == 4 && "ABORTO_SEPTICO" in r.reason
  {
    forall r | r in Evaluation(answers) && (r.key == DIU_CU || r.key == DIU_LNG)
      ensures r.category == 4 && "ABORTO_SEPTICO" in r.reason
    {
      DynamicRaises(answers, Emission(r.key, 4, "ABORTO_SEPTICO"));
    }
  }

  /** "ABUNDANTE" bleeding puts the copper IUD at 3 or more with the dynamic bleeding label. */
  lemma HeavyBleedingResult(answers: Answers)
    requires Selection(answers, "SANGRADO_ABUNDANTE", "NINGUNO") == "ABUNDANTE"
    ensures forall r :: r in Evaluation(answers) && r.key == DIU_CU ==>
      r.category >= 3 && "SANGRADO:ABUNDANTE:DIU_CU=3" in r.reason
  {
    DynamicRaises(answers, Emission(DIU_CU, 3, "SANGRADO:ABUNDANTE:DIU_CU=3"));
  }

  /**
   * Category 2 appears only for a CHC method, without VTE risk, when the
   * lactation or the postpartum interval is "21-42".
   */
  lemma CategoryTwoOnlyFromInterval(answers: Answers, r: MethodResult)
    requires r in Evaluation(answers) && r.category == 2
    ensures IsChc(r.key) && !HasVTERisk(answers)
    ensures Selection(answers, "LACTANCIA_PERIODO", "NO") == "21-42" || Selection(answers, "POSPARTO_PERIODO", "NO") == "21-42"
  {
    ResultIsMaximum(answers, r);
    var e :| e in Emissions(answers) && e.key == r.key && e.cat == 2;
    StaticNeverTwo(answers, ConditionTable);
    DynamicCategoryTwo(answers);
    assert e in DynamicEmissions(answers);
  }

  /** When the only applications are category 2 on the CHC methods, those end at 2 and the rest at 1, with no labels. */
  lemma ChcTwoAlone(tag: string, m: MethodKey, c: Category)
    requires IsMaxOf(c, 1, ChcEmissions(2, tag), m)
    ensures c == (if IsChc(m) then 2 else 1) && Labels(ChcEmissions(2, tag), m) == []
  {
    var es := ChcEmissions(2, tag);
    LabelsNonEmpty(es, m);
    if IsChc(m) {
      assert Emission(m, 2, tag) in es;
    }
  }

  /** No table row reads `POSPARTO_PERIODO`. */
  lemma PostpartumNotInTable()
    ensures forall k :: 0 <= k < |ConditionTable| ==> ConditionTable[k].cond != "POSPARTO_PERIODO"
  {
  }

  /** Answering only "21-42" postpartum makes exactly the three CHC applications at 2. */
  lemma PostpartumAloneDynamic()
    ensures DynamicEmissions(map["POSPARTO_PERIODO" := Str("21-42")]) == ChcEmissions(2, "POSPARTO:" + "21-42")
  {
    var answers := map["POSPARTO_PERIODO" := Str("21-42")];
    assert !HasVTERisk(answers) && SmokingEmissions(answers) == [];
    assert RecentAbortionEmissions(answers) == [] && SepticEmissions(answers) == [];
    assert LactationEmissions(answers) == [] && BleedingEmissions(answers) == [];
    assert Selection(answers, "POSPARTO_PERIODO", "NO") == "21-42";
  }

  /**
   * Answering only `POSPARTO_PERIODO` = "21-42" gives the CHC methods category 2
   * with no reasons and leaves every other method at 1.
   */
  lemma PostpartumIntervalAlone()
    ensures forall r :: r in Evaluation(map["POSPARTO_PERIODO" := Str("21-42")]) ==>
      r.reason == [] && r.category == (if IsChc(r.key) then 2 else 1)
  {
    var answers := map["POSPARTO_PERIODO" := Str("21-42")];
    PostpartumNotInTable();
    StaticUnanswered(answers, ConditionTable);
    PostpartumAloneDynamic();
    assert Emissions(answers) == ChcEmissions(2, "POSPARTO:" + "21-42");
    forall r | r in Evaluation(answers) ensures r.reason == [] && r.category == (if IsChc(r.key) then 2 else 1) {
      ResultIsMaximum(answers, r);
      ChcTwoAlone("POSPARTO:" + "21-42", r.key, r.category);
    }
  }

  /** When the only applications are `c` on the three CHC methods, those end at `c` and the rest at 1. */
  lemma ChcAlone(c: Category, tag: string, m: MethodKey, cat: Category)
    requires IsMaxOf(cat, 1, ChcEmissions(c, tag), m)
    ensures cat == (if IsChc(m) then c else 1)
    ensures !IsChc(m) ==> Labels(ChcEmissions(c, tag), m) == []
    ensures IsChc(m) && c >= 3 ==> tag in Labels(ChcEmissions(c, tag), m)
  {
    var es := ChcEmissions(c, tag);
    LabelsNonEmpty(es, m);
    if IsChc(m) {
      assert Emission(m, c, tag) in es;
      if c >= 3 {
        LabelsContain(es, m, Emission(m, c, tag));
      }
    }
  }

  /** No table row reads the smoking answers. */
  lemma SmokingNotInTable()
    ensures forall k :: 0 <= k < |ConditionTable| ==>
      ConditionTable[k].cond != "FUMA" && ConditionTable[k].cond != "EDAD_YEARS" && ConditionTable[k].cond != "CIGARRILLOS_DIA"
  {
  }

  /** The answers of a 40-year-old who smokes 5 cigarettes a day. */
  function LightSmokerAnswers(): Answers {
    map["FUMA" := Bool(true), "EDAD_YEARS" := Number(Int(40)), "CIGARRILLOS_DIA" := Number(Int(5))]
  }

  /** Those answers fire the smoking rule at 3 and no other dynamic rule. */
  lemma LightSmokerDynamic()
    ensures DynamicEmissions(LightSmokerAnswers()) == ChcEmissions(3, "FUMA_≥35_<15:3")
  {
    var answers := LightSmokerAnswers();
    assert Age(answers) == Int(40) && Cigarettes(answers) == Int(5);
    assert Smokes35(answers) && !HeavySmoker(answers);
    SmokingEdgeCases(answers);
    assert Selection(answers, "ABORTO_RECENTE", "NO") == "NO";
    assert Selection(answers, "ABORTO_RECIENTE_TIPO", "NO") == "NO";
    assert Selection(answers, "LACTANCIA_PERIODO", "NO") == "NO";
    assert Selection(answers, "POSPARTO_PERIODO", "NO") == "NO";
    assert Selection(answers, "SANGRADO_ABUNDANTE", "NINGUNO") == "NINGUNO";
  }

  /** Those answers make exactly the three CHC applications at 3 with the light-smoking label. */
  lemma LightSmokerEmissions()
    ensures Emissions(LightSmokerAnswers()) == ChcEmissions(3, "FUMA_≥35_<15:3")
  {
    var answers := LightSmokerAnswers();
    SmokingNotInTable();
    assert forall k :: 0 <= k < |ConditionTable| ==> ConditionTable[k].cond !in answers;
    StaticUnanswered(answers, ConditionTable);
    LightSmokerDynamic();
  }

  /**
   * A 40-year-old smoking 5 cigarettes a day: the CHC methods end at exactly 3
   * with the light-smoking reason, every other method at 1 with no reasons.
   */
  lemma LightSmokerAt40Alone()
    ensures forall r :: r in Evaluation(LightSmokerAnswers()) ==>
      r.category == (if IsChc(r.key) then 3 else 1)
      && (IsChc(r.key) ==> "FUMA_≥35_<15:3" in r.reason)
      && (!IsChc(r.key) ==> r.reason == [])
  {
    var answers := LightSmokerAnswers();
    LightSmokerEmissions();
    forall r | r in Evaluation(answers)
      ensures r.category == (if IsChc(r.key) then 3 else 1)
      ensures IsChc(r.key) ==> "FUMA_≥35_<15:3" in r.reason
      ensures !IsChc(r.key) ==> r.reason == []
    {
      ResultIsMaximum(answers, r);
      ChcAlone(3, "FUMA_≥35_<15:3", r.key, r.category);
    }
  }

  /** A static application under `MIGRAÑA_AURA` alone is one of its row's CHC cells at 4. */
  lemma AuraStaticEmission(e: Emission)
    requires e in StaticEmissions(map["MIGRAÑA_AURA" := Bool(true)], ConditionTable)
    ensures IsChc(e.key) && e.cat == 4 && e.tag == "MIGRAÑA_AURA" + ":4"
  {
    var answers := map["MIGRAÑA_AURA" := Bool(true)];
    var k := StaticMemberElim(answers, ConditionTable, e);
    ConditionIdsDistinct();
    assert ConditionTable[k].cond == ConditionIds()[k] && ConditionTable[0].cond == ConditionIds()[0];
    assert k == 0;
    var cells := ConditionTable[0].cells;
    CellEmissionsAt("MIGRAÑA_AURA", cells);
    StaticTagDigits("MIGRAÑA_AURA");
    var j :| 0 <= j < |cells| && CellEmissions("MIGRAÑA_AURA", cells)[j] == e;
  }

  /**
   * Migraine with aura alone: the CHC methods end at 4 with the reason
   * "MIGRAÑA_AURA:4", every other method at 1 with no reasons.
   */
  lemma AuraAlone()
    ensures forall r :: r in Evaluation(map["MIGRAÑA_AURA" := Bool(true)]) ==>
      r.category == (if IsChc(r.key) then 4 else 1)
      && (IsChc(r.key) ==> "MIGRAÑA_AURA" + ":4" in r.reason)
      && (!IsChc(r.key) ==> r.reason == [])
  {
    var answers := map["MIGRAÑA_AURA" := Bool(true)];
    BooleanAnswersNoDynamic(answers);
    assert Emissions(answers) == StaticEmissions(answers, ConditionTable);
    var cells := ConditionTable[0].cells;
    CellEmissionsAt("MIGRAÑA_AURA", cells);
    StaticTagDigits("MIGRAÑA_AURA");
    forall r | r in Evaluation(answers)
      ensures r.category == (if IsChc(r.key) then 4 else 1)
      ensures IsChc(r.key) ==> "MIGRAÑA_AURA" + ":4" in r.reason
      ensures !IsChc(r.key) ==> r.reason == []
    {
      ResultIsMaximum(answers, r);
      LabelsNonEmpty(Emissions(answers), r.key);
      forall e | e in Emissions(answers) ensures IsChc(e.key) && e.cat == 4 && e.tag == "MIGRAÑA_AURA" + ":4" {
        AuraStaticEmission(e);
      }
      if IsChc(r.key) {
        var j := if r.key == AHC_PILDORA then 0 else if r.key == AHC_PARCHE then 1 else 2;
        var e := CellEmissions("MIGRAÑA_AURA", cells)[j];
        assert e.key == r.key && e.cat == 4;
        StaticMemberIntro(answers, ConditionTable, 0, e);
        LabelsContain(Emissions(answers), r.key, e);
      }
    }
  }

  /** The list form of `evaluateMEC` only reaches the static table: booleans satisfy no dynamic rule. */
  lemma ListInputOnlyStatic(ids: seq<string>)
    ensures Emissions(TrueMap(ids)) == StaticEmissions(TrueMap(ids), ConditionTable)
  {
    BooleanAnswersNoDynamic(TrueMap(ids));
  }

  /** An answer that no table row and no dynamic rule reads never changes the results. */
  lemma UnreadAnswerIgnored(answers: Answers, id: string, v: AnswerValue)
    requires forall k :: 0 <= k < |ConditionTable| ==> ConditionTable[k].cond != id
    requires id !in DynamicIds
    ensures Evaluation(answers[id := v]) == Evaluation(answers)
  {
    var b := answers[id := v];
    StaticReadsOnly(b, answers, ConditionTable);
    DynamicReadsOnly(b, answers);
  }
}
