/**
 * The rule tables and the dynamic rules of the eligibility engine: the list of
 * evaluated methods, the `worsen` reducer, the static condition table, the
 * per-method accumulator and the rules that read numbers and selections.
 *
 * Every application of a rule is described by an `Emission` (method, category,
 * reason label); `Apply` folds emissions into the accumulator exactly as the
 * source's `worsenOne` does, and is the specification the imperative methods
 * are proved against.
 */
module Mappings {
  import opened Wrappers
  import opened MecTypes
  import opened JsCoerce

  /** The canonical list of evaluated methods: every key except `NATURALES`. */
  const AllMethods: seq<EvalKey> :=
    [DIU_CU, DIU_LNG, IMPLANTE, AMPD_MENSUAL, AMPD_3M, PPS,
     AHC_PILDORA, AHC_PARCHE, AHC_ANILLO, BARRERA, EC]

  /** Membership in `AllMethods` (see `AllMethodsShape`). */
  predicate IsEvaluated(m: MethodKey) {
    m != NATURALES
  }

  /** A method the engine evaluates; every rule, static or dynamic, names one. */
  type EvalKey = m: MethodKey | IsEvaluated(m) witness DIU_CU

  /** The three combined hormonal methods (pill, patch, ring). */
  predicate IsChc(m: MethodKey) {
    m == AHC_PILDORA || m == AHC_PARCHE || m == AHC_ANILLO
  }

  /** The evaluated list has eleven distinct methods and leaves out `NATURALES`. */
  lemma AllMethodsShape()
    ensures |AllMethods| == 11 && NATURALES !in AllMethods
    ensures forall m: MethodKey :: m in AllMethods <==> IsEvaluated(m)
    ensures forall i, j :: 0 <= i < j < |AllMethods| ==> AllMethods[i] != AllMethods[j]
  {
    MethodKeyClosed();
  }

  /** Raises `current` to `next` when `next` is worse: the larger of the two. */
  function Worsen(current: Category, next: Category): (r: Category)
    ensures r >= current && r >= next
    ensures r == current || r == next
  {
    if next > current then next else current
  }

  /** The reducer is commutative, idempotent and associative. */
  lemma WorsenLaws(a: Category, b: Category, c: Category)
    ensures Worsen(a, b) == Worsen(b, a)
    ensures Worsen(a, a) == a && Worsen(Worsen(a, b), b) == Worsen(a, b)
    ensures Worsen(Worsen(a, b), c) == Worsen(a, Worsen(b, c))
  {
  }

  /** A category a static row may hold: the table only uses 1, 3 and 4. */
  type TableCategory = c: Category | c != 2 witness 1

  /** One entry of a static row: method `key` gets category `cat`. */
  datatype Cell = Cell(key: EvalKey, cat: TableCategory)

  /** One static row: when answer `cond` is truthy, every cell applies. */
  datatype Row = Row(cond: string, cells: seq<Cell>)

  /** The static condition-to-category table, rows and cells in source order. */
  const ConditionTable: seq<Row> :=
    [
      Row("MIGRAÑA_AURA", [Cell(AHC_PILDORA, 4), Cell(AHC_PARCHE, 4), Cell(AHC_ANILLO, 4)]),
      Row("MIGRAÑA_SIN_AURA", [Cell(AHC_PILDORA, 3), Cell(AHC_PARCHE, 3), Cell(AHC_ANILLO, 3)]),
      Row("CANCER_MAMA_ACTUAL", [Cell(DIU_LNG, 4), Cell(IMPLANTE, 4), Cell(AMPD_MENSUAL, 4), Cell(AMPD_3M, 4), Cell(PPS, 4), Cell(AHC_PILDORA, 4), Cell(AHC_PARCHE, 4), Cell(AHC_ANILLO, 4)]),
      Row("CANCER_MAMA_5Y", [Cell(DIU_LNG, 3), Cell(IMPLANTE, 3), Cell(AMPD_MENSUAL, 3), Cell(AMPD_3M, 3), Cell(PPS, 3), Cell(AHC_PILDORA, 3), Cell(AHC_PARCHE, 3), Cell(AHC_ANILLO, 3)]),
      Row("HTA_160_100", [Cell(AHC_PILDORA, 4), Cell(AHC_PARCHE, 4), Cell(AHC_ANILLO, 4), Cell(AMPD_MENSUAL, 3), Cell(AMPD_3M, 3), Cell(PPS, 3)]),
      Row("HTA_CONTROLADA", [Cell(AHC_PILDORA, 3), Cell(AHC_PARCHE, 3), Cell(AHC_ANILLO, 3)]),
      Row("TVP_EP", [Cell(AHC_PILDORA, 4), Cell(AHC_PARCHE, 4), Cell(AHC_ANILLO, 4), Cell(AMPD_MENSUAL, 3), Cell(AMPD_3M, 3)]),
      Row("ICTUS", [Cell(AHC_PILDORA, 4), Cell(AHC_PARCHE, 4), Cell(AHC_ANILLO, 4), Cell(AMPD_MENSUAL, 3), Cell(AMPD_3M, 3), Cell(IMPLANTE, 3), Cell(DIU_CU, 1), Cell(DIU_LNG, 1), Cell(PPS, 1)]),
      Row("MUTACION_TROMBO", [Cell(AHC_PILDORA, 4), Cell(AHC_PARCHE, 4), Cell(AHC_ANILLO, 4)]),
      Row("DIABETES_VASCULAR", [Cell(AHC_PILDORA, 4), Cell(AHC_PARCHE, 4), Cell(AHC_ANILLO, 4), Cell(AMPD_MENSUAL, 3), Cell(AMPD_3M, 3), Cell(PPS, 3)]),
      Row("CIRROSIS_GRAVE", [Cell(AHC_PILDORA, 4), Cell(AHC_PARCHE, 4), Cell(AHC_ANILLO, 4), Cell(DIU_LNG, 3), Cell(IMPLANTE, 3), Cell(AMPD_MENSUAL, 3), Cell(AMPD_3M, 3), Cell(PPS, 3)]),
      Row("CARDIO_ISQUEMICA", [Cell(AHC_PILDORA, 4), Cell(AHC_PARCHE, 4), Cell(AHC_ANILLO, 4)]),
      Row("LES_ANTIFOSFOLIPIDOS", [Cell(AHC_PILDORA, 4), Cell(AHC_PARCHE, 4), Cell(AHC_ANILLO, 4), Cell(AMPD_MENSUAL, 3), Cell(AMPD_3M, 3), Cell(IMPLANTE, 3), Cell(DIU_LNG, 3), Cell(DIU_CU, 1)]),
      Row("DISMENORREA_INTENSA", [Cell(DIU_CU, 3), Cell(DIU_LNG, 1), Cell(IMPLANTE, 1), Cell(AMPD_MENSUAL, 1), Cell(AMPD_3M, 1), Cell(PPS, 1), Cell(AHC_PILDORA, 1), Cell(AHC_PARCHE, 1), Cell(AHC_ANILLO, 1)]),
      Row("EPI_ACTIVA", [Cell(DIU_CU, 4), Cell(DIU_LNG, 4)]),
      Row("ETS_ACTIVA", [Cell(DIU_CU, 4), Cell(DIU_LNG, 4)]),
      Row("OBESIDAD_IMC30", [Cell(AHC_PILDORA, 3), Cell(AHC_PARCHE, 3), Cell(AHC_ANILLO, 3)]),
      Row("MEDS_ENZYME_INDUCERS", [Cell(AHC_PILDORA, 3), Cell(AHC_PARCHE, 3), Cell(AHC_ANILLO, 3), Cell(IMPLANTE, 3), Cell(PPS, 3)]),
      Row("MENARQUIA_MENOR_18", [Cell(AHC_PILDORA, 3), Cell(AHC_PARCHE, 3), Cell(AHC_ANILLO, 3), Cell(AMPD_MENSUAL, 3), Cell(AMPD_3M, 3)]),
      Row("MAYOR_45", [Cell(AHC_PILDORA, 3), Cell(AHC_PARCHE, 3), Cell(AHC_ANILLO, 3), Cell(AMPD_MENSUAL, 3), Cell(AMPD_3M, 3)]),
      Row("NULIPARA", [Cell(DIU_CU, 3)]),
      Row("CIRUGIA_MAYOR_INMOVILIZACION", [Cell(AHC_PILDORA, 4), Cell(AHC_PARCHE, 4), Cell(AHC_ANILLO, 4)]),
      Row("EMBARAZO_ACTUAL", [Cell(DIU_CU, 4), Cell(DIU_LNG, 4), Cell(IMPLANTE, 4), Cell(AMPD_MENSUAL, 4), Cell(AMPD_3M, 4), Cell(PPS, 4), Cell(AHC_PILDORA, 4), Cell(AHC_PARCHE, 4), Cell(AHC_ANILLO, 4), Cell(BARRERA, 4), Cell(EC, 4)]),
      Row("SANGRADO_ABUNDANTE", [Cell(DIU_CU, 3), Cell(DIU_LNG, 1), Cell(AHC_PILDORA, 1), Cell(AMPD_MENSUAL, 1), Cell(AMPD_3M, 1), Cell(PPS, 1)]),
      Row("ABORTO_SEPTICO", [Cell(DIU_CU, 4), Cell(DIU_LNG, 4)])
    ]

  /** The condition ids of the static table. */
  function ConditionIds(): seq<string> {
    seq(|ConditionTable|, i requires 0 <= i < |ConditionTable| => ConditionTable[i].cond)
  }

  /** The table's condition ids are pairwise distinct. */
  lemma ConditionIdsDistinct()
    ensures |ConditionIds()| == 25 && Distinct(ConditionIds())
  {
  }

  /** `EMBARAZO_ACTUAL` puts every evaluated method at 4; `MIGRAÑA_AURA` touches only the three CHC methods. */
  lemma PregnancyAndAuraRows()
    ensures ConditionTable[22].cond == "EMBARAZO_ACTUAL" && ConditionTable[0].cond == "MIGRAÑA_AURA"
    ensures forall m :: m in AllMethods ==> Cell(m, 4) in ConditionTable[22].cells
    ensures forall c :: c in ConditionTable[0].cells ==> IsChc(c.key) && c.cat == 4
    ensures forall m :: IsChc(m) ==> Cell(m, 4) in ConditionTable[0].cells
  {
  }

  /**
   * `HTA_160_100` puts the three CHC methods at 4; `SANGRADO_ABUNDANTE` puts
   * the copper IUD at 3.
   */
  lemma HypertensionAndBleedingRows()
    ensures ConditionTable[4].cond == "HTA_160_100" && ConditionTable[23].cond == "SANGRADO_ABUNDANTE"
    ensures forall m :: IsChc(m) ==> Cell(m, 4) in ConditionTable[4].cells
    ensures Cell(DIU_CU, 3) in ConditionTable[23].cells
  {
  }

  /** The accumulator entry of one method: its current category and reasons. */
  datatype Slot = Slot(cat: Category, why: seq<string>)

  /** The state every evaluated method starts from. */
  const Fresh: Slot := Slot(1, [])

  /** One rule application: `worsenOne(key, cat, label)`. */
  datatype Emission = Emission(key: EvalKey, cat: Category, tag: string)

  /** The effect of one application on one slot: raise the category, record the label at 3 or more. */
  function Step(s: Slot, cat: Category, tag: string): (r: Slot)
    ensures r.cat >= s.cat && r.cat >= cat && (r.cat == s.cat || r.cat == cat)
    ensures cat >= 3 ==> r.why == s.why + [tag]
    ensures cat < 3 ==> r.why == s.why
  {
    Slot(Worsen(s.cat, cat), if cat >= 3 then s.why + [tag] else s.why)
  }

  /** The accumulator has an entry for every evaluated method. */
  predicate Tracks(slots: map<MethodKey, Slot>) {
    forall m: EvalKey :: m in slots
  }

  function StepMap(slots: map<MethodKey, Slot>, e: Emission): map<MethodKey, Slot>
    requires e.key in slots
  {
    slots[e.key := Step(slots[e.key], e.cat, e.tag)]
  }

  /** The accumulator after applying `es` in order, starting from `slots`. */
  function Apply(slots: map<MethodKey, Slot>, es: seq<Emission>): (r: map<MethodKey, Slot>)
    requires Tracks(slots)
    ensures r.Keys == slots.Keys && Tracks(r)
    decreases |es|
  {
    if es == [] then slots
    else
      var prev := Apply(slots, es[..|es| - 1]);
      StepMap(prev, es[|es| - 1])
  }

  /** One method's slot after applying `es` in order, starting from `s`. */
  function FoldKey(s: Slot, es: seq<Emission>, m: MethodKey): Slot
    decreases |es|
  {
    if es == [] then s
    else
      var prev := FoldKey(s, es[..|es| - 1], m);
      var e := es[|es| - 1];
      if e.key == m then Step(prev, e.cat, e.tag) else prev
  }

  /** The labels of the emissions for `m` at category 3 or more, in order. */
  function Labels(es: seq<Emission>, m: MethodKey): seq<string>
    decreases |es|
  {
    if es == [] then []
    else
      var e := es[|es| - 1];
      Labels(es[..|es| - 1], m) + (if e.key == m && e.cat >= 3 then [e.tag] else [])
  }

  /** `c` is the largest of `start` and the categories emitted for `m`. */
  ghost predicate IsMaxOf(c: Category, start: Category, es: seq<Emission>, m: MethodKey) {
    && start <= c
    && (forall e :: e in es && e.key == m ==> e.cat <= c)
    && (c == start || exists e :: e in es && e.key == m && e.cat == c)
  }

  lemma {:induction false} ApplySnoc(slots: map<MethodKey, Slot>, es: seq<Emission>, e: Emission)
    requires Tracks(slots)
    ensures Apply(slots, es + [e]) == StepMap(Apply(slots, es), e)
  {
    assert (es + [e])[..|es|] == es;
  }

  /** Applying `a` then `b` is applying `a + b`. */
  lemma {:induction false} ApplyConcat(slots: map<MethodKey, Slot>, a: seq<Emission>, b: seq<Emission>)
    requires Tracks(slots)
    ensures Apply(slots, a + b) == Apply(Apply(slots, a), b)
    decreases |b|
  {
    if b == [] {
      assert a + b == a;
    } else {
      var b' := b[..|b| - 1];
      assert (a + b)[..|a + b| - 1] == a + b';
      ApplyConcat(slots, a, b');
    }
  }

  /** The accumulator treats each method independently: its slot is that method's own fold. */
  lemma {:induction false} ApplyAt(slots: map<MethodKey, Slot>, es: seq<Emission>, m: MethodKey)
    requires Tracks(slots) && m in slots
    ensures Apply(slots, es)[m] == FoldKey(slots[m], es, m)
    decreases |es|
  {
    if es != [] {
      ApplyAt(slots, es[..|es| - 1], m);
    }
  }

  /**
   * The final category of a method is the maximum of its start and of every
   * category emitted for it; its reasons are its start reasons followed by the
   * labels emitted at 3 or more, in order.
   */
  lemma {:induction false} FoldKeyIsMax(s: Slot, es: seq<Emission>, m: MethodKey)
    ensures IsMaxOf(FoldKey(s, es, m).cat, s.cat, es, m)
    ensures FoldKey(s, es, m).why == s.why + Labels(es, m)
    decreases |es|
  {
    if es != [] {
      var init := es[..|es| - 1];
      var e := es[|es| - 1];
      FoldKeyIsMax(s, init, m);
      assert es == init + [e];
      var c := FoldKey(s, es, m).cat;
      forall e' | e' in es && e'.key == m ensures e'.cat <= c {
        if e' in init {
        } else {
          assert e' == e;
        }
      }
      if c != s.cat {
        if e.key == m && c == e.cat {
          assert e in es;
        } else {
          var w :| w in init && w.key == m && w.cat == c;
          assert w in es;
        }
      }
    }
  }

  /** A method has a label exactly when some emission for it is at category 3 or more. */
  lemma {:induction false} LabelsNonEmpty(es: seq<Emission>, m: MethodKey)
    ensures |Labels(es, m)| > 0 <==> exists e :: e in es && e.key == m && e.cat >= 3
    decreases |es|
  {
    if es != [] {
      var init := es[..|es| - 1];
      var e := es[|es| - 1];
      LabelsNonEmpty(init, m);
      assert es == init + [e];
      if |Labels(es, m)| > 0 && !(e.key == m && e.cat >= 3) {
        var w :| w in init && w.key == m && w.cat >= 3;
        assert w in es;
      }
    }
  }

  /** Every emission for `m` at category 3 or more contributes its label. */
  lemma {:induction false} LabelsContain(es: seq<Emission>, m: MethodKey, e: Emission)
    requires e in es && e.key == m && e.cat >= 3
    ensures e.tag in Labels(es, m)
    decreases |es|
  {
    var init := es[..|es| - 1];
    assert es == init + [es[|es| - 1]];
    if e != es[|es| - 1] {
      LabelsContain(init, m, e);
    }
  }

  /** The maximum depends only on which emissions occur, not on their order. */
  lemma MaxIsOrderIndependent(s: Slot, es1: seq<Emission>, es2: seq<Emission>, m: MethodKey)
    requires multiset(es1) == multiset(es2)
    ensures FoldKey(s, es1, m).cat == FoldKey(s, es2, m).cat
  {
    FoldKeyIsMax(s, es1, m);
    FoldKeyIsMax(s, es2, m);
    forall e ensures e in es1 <==> e in es2 {
      assert e in es1 <==> e in multiset(es1);
      assert e in es2 <==> e in multiset(es2);
    }
  }

  /** Starting from category 1, reasons are non-empty exactly when the final category is 3 or more. */
  lemma ReasonsIffSevere(es: seq<Emission>, m: MethodKey)
    ensures (|FoldKey(Fresh, es, m).why| > 0) <==> FoldKey(Fresh, es, m).cat >= 3
  {
    FoldKeyIsMax(Fresh, es, m);
    LabelsNonEmpty(es, m);
  }

  // ---------------------------------------------------------------------------
  // Dynamic rules, as the emissions they make, in source order.
  // ---------------------------------------------------------------------------

  /** `Number(answers.EDAD_YEARS ?? NaN)`. */
  function Age(answers: Answers): Num {
    ToNumber(Coalesce(Get(answers, "EDAD_YEARS"), Number(NaN)))
  }

  /** `Number(answers.CIGARRILLOS_DIA ?? 0)`. */
  function Cigarettes(answers: Answers): Num {
    ToNumber(Coalesce(Get(answers, "CIGARRILLOS_DIA"), Number(Int(0))))
  }

  /** Smoking at 35 or over: `FUMA` truthy and a non-NaN age of at least 35. */
  predicate Smokes35(answers: Answers) {
    Truthy(Get(answers, "FUMA")) && Age(answers).Int? && Age(answers).v >= 35
  }

  /** `cigs >= 15`, false for NaN. */
  predicate HeavySmoker(answers: Answers) {
    Cigarettes(answers).Int? && Cigarettes(answers).v >= 15
  }

  /** `String(answers[id] ?? dflt)`. */
  function Selection(answers: Answers, id: string, dflt: string): string {
    ToStr(Some(Coalesce(Get(answers, id), Str(dflt))))
  }

  /** The venous-thromboembolism risk flag gating the 21–42-day interval. */
  predicate HasVTERisk(answers: Answers)
    ensures HasVTERisk(answers) ==>
      || "HTA_160_100" in answers || "MUTACION_TROMBO" in answers || "TVP_EP" in answers
      || ("FUMA" in answers && "EDAD_YEARS" in answers) || "CARDIO_ISQUEMICA" in answers
  {
    || Truthy(Get(answers, "HTA_160_100"))
    || Truthy(Get(answers, "MUTACION_TROMBO"))
    || Truthy(Get(answers, "TVP_EP"))
    || Smokes35(answers)
    || Truthy(Get(answers, "CARDIO_ISQUEMICA"))
  }

  /** The same category and label for the three combined hormonal methods. */
  function ChcEmissions(cat: Category, tag: string): seq<Emission> {
    [Emission(AHC_PILDORA, cat, tag), Emission(AHC_PARCHE, cat, tag), Emission(AHC_ANILLO, cat, tag)]
  }

  function SmokingLabel(heavy: bool): string {
    if heavy then "FUMA_≥35_15+:4" else "FUMA_≥35_<15:3"
  }

  /** The smoking rule for a smoker-at-35 flag and a cigarette count. */
  function SmokingRuleEmissions(fuma35: bool, cigs: Num): seq<Emission> {
    if fuma35 then
      var heavy := cigs.Int? && cigs.v >= 15;
      ChcEmissions(if heavy then 4 else 3, SmokingLabel(heavy))
    else []
  }

  function SmokingEmissions(answers: Answers): seq<Emission> {
    SmokingRuleEmissions(Smokes35(answers), Cigarettes(answers))
  }

  /** The string test on `ABORTO_RECENTE`, for its `String(...)` value `sel`. */
  function RecentAbortionRuleEmissions(sel: string): seq<Emission> {
    if sel == "ABORTO_SEPTICO" then
      [Emission(DIU_CU, 4, "ABORTO_SEPTICO:DIU_CU=4"), Emission(DIU_LNG, 4, "ABORTO_SEPTICO:DIU_LNG=4")]
    else []
  }

  function RecentAbortionEmissions(answers: Answers): seq<Emission> {
    RecentAbortionRuleEmissions(Selection(answers, "ABORTO_RECENTE", "NO"))
  }

  /** The CHC category for a postpartum or lactation interval, or none for any other selection. */
  function IntervalCategory(sel: string, vteRisk: bool): (r: Option<Category>)
    ensures r.Some? <==> sel in ["<21", "21-42", ">42"]
    ensures r == Some(2) <==> sel == "21-42" && !vteRisk
  {
    if sel == "<21" then Some(4)
    else if sel == "21-42" then Some(if vteRisk then 3 else 2)
    else if sel == ">42" then Some(1)
    else None
  }

  /** The lactation or postpartum rule for selection `sel`, labelled `prefix + sel`. */
  function IntervalEmissions(sel: string, prefix: string, vteRisk: bool): seq<Emission> {
    if sel != "" && sel != "NO" then
      match IntervalCategory(sel, vteRisk)
      case Some(c) => ChcEmissions(c, prefix + sel)
      case None => []
    else []
  }

  function LactationEmissions(answers: Answers): seq<Emission> {
    IntervalEmissions(Selection(answers, "LACTANCIA_PERIODO", "NO"), "LACTANCIA:", HasVTERisk(answers))
  }

  /** The septic-abortion rule for the `String(...)` value `sel` of `ABORTO_RECIENTE_TIPO`. */
  function SepticRuleEmissions(sel: string): seq<Emission> {
    if sel == "ABORTO_SEPTICO" then
      [Emission(DIU_CU, 4, "ABORTO_SEPTICO"), Emission(DIU_LNG, 4, "ABORTO_SEPTICO")]
    else []
  }

  function SepticEmissions(answers: Answers): seq<Emission> {
    SepticRuleEmissions(Selection(answers, "ABORTO_RECIENTE_TIPO", "NO"))
  }

  function PostpartumEmissions(answers: Answers): seq<Emission> {
    IntervalEmissions(Selection(answers, "POSPARTO_PERIODO", "NO"), "POSPARTO:", HasVTERisk(answers))
  }

  /** The bleeding rule for the `String(...)` value `sel` of `SANGRADO_ABUNDANTE`. */
  function BleedingRuleEmissions(sel: string): seq<Emission> {
    if sel == "ABUNDANTE" then
      [Emission(DIU_CU, 3, "SANGRADO:ABUNDANTE:DIU_CU=3"), Emission(DIU_LNG, 1, "SANGRADO:ABUNDANTE:DIU_LNG=1")]
    else []
  }

  function BleedingEmissions(answers: Answers): seq<Emission> {
    BleedingRuleEmissions(Selection(answers, "SANGRADO_ABUNDANTE", "NINGUNO"))
  }

  /** Every dynamic application, in the order the source runs the rules. */
  function DynamicEmissions(answers: Answers): seq<Emission> {
    SmokingEmissions(answers) + RecentAbortionEmissions(answers) + LactationEmissions(answers)
    + SepticEmissions(answers) + PostpartumEmissions(answers) + BleedingEmissions(answers)
  }

  /** The answer ids the dynamic rules read. */
  const DynamicIds: set<string> := {
    "EDAD_YEARS", "FUMA", "CIGARRILLOS_DIA", "ABORTO_RECENTE", "POSPARTO_PERIODO", "LACTANCIA_PERIODO",
    "HTA_160_100", "MUTACION_TROMBO", "TVP_EP", "CARDIO_ISQUEMICA", "ABORTO_RECIENTE_TIPO", "SANGRADO_ABUNDANTE"
  }

  /** The dynamic rules depend on the answers to `DynamicIds` and on nothing else. */
  lemma DynamicReadsOnly(a: Answers, b: Answers)
    requires forall id :: id in DynamicIds ==> Get(a, id) == Get(b, id)
    ensures DynamicEmissions(a) == DynamicEmissions(b)
  {
    assert Get(a, "EDAD_YEARS") == Get(b, "EDAD_YEARS") && Get(a, "FUMA") == Get(b, "FUMA");
    assert Get(a, "CIGARRILLOS_DIA") == Get(b, "CIGARRILLOS_DIA");
    assert Get(a, "ABORTO_RECENTE") == Get(b, "ABORTO_RECENTE");
    assert Get(a, "POSPARTO_PERIODO") == Get(b, "POSPARTO_PERIODO");
    assert Get(a, "LACTANCIA_PERIODO") == Get(b, "LACTANCIA_PERIODO");
    assert Get(a, "HTA_160_100") == Get(b, "HTA_160_100") && Get(a, "MUTACION_TROMBO") == Get(b, "MUTACION_TROMBO");
    assert Get(a, "TVP_EP") == Get(b, "TVP_EP") && Get(a, "CARDIO_ISQUEMICA") == Get(b, "CARDIO_ISQUEMICA");
    assert Get(a, "ABORTO_RECIENTE_TIPO") == Get(b, "ABORTO_RECIENTE_TIPO");
    assert Get(a, "SANGRADO_ABUNDANTE") == Get(b, "SANGRADO_ABUNDANTE");
  }

  /**
   * Smoking edge cases: a missing or null age never triggers the rule, and a
   * missing or non-numeric cigarette count gives 3, not 4.
   */
  lemma SmokingEdgeCases(answers: Answers)
    ensures Get(answers, "EDAD_YEARS") == None || Get(answers, "EDAD_YEARS") == Some(Null) ==> SmokingEmissions(answers) == []
    ensures Smokes35(answers) && (Get(answers, "CIGARRILLOS_DIA") == None || Cigarettes(answers) == NaN) ==>
      SmokingEmissions(answers) == ChcEmissions(3, "FUMA_≥35_<15:3")
    ensures Smokes35(answers) && !HeavySmoker(answers) ==> SmokingEmissions(answers) == ChcEmissions(3, "FUMA_≥35_<15:3")
    ensures Smokes35(answers) && HeavySmoker(answers) ==> SmokingEmissions(answers) == ChcEmissions(4, "FUMA_≥35_15+:4")
  {
  }

  /** The string test on `ABORTO_RECENTE` never fires for a missing or boolean answer. */
  lemma RecentAbortionNeedsString(answers: Answers)
    requires Get(answers, "ABORTO_RECENTE") == None || Get(answers, "ABORTO_RECENTE").value.Bool?
    ensures RecentAbortionEmissions(answers) == []
  {
  }

  /** A map holding only booleans never triggers a dynamic rule. */
  lemma BooleanAnswersNoDynamic(answers: Answers)
    requires forall id :: id in answers ==> answers[id].Bool?
    ensures DynamicEmissions(answers) == []
  {
    assert Age(answers).Int? ==> Age(answers).v <= 1;
  }

  /** An interval rule emits category 2 only for "21-42" without VTE risk, and only for CHC methods. */
  lemma IntervalCategoryTwo(sel: string, prefix: string, vteRisk: bool)
    ensures forall e :: e in IntervalEmissions(sel, prefix, vteRisk) ==> IsChc(e.key)
    ensures forall e :: e in IntervalEmissions(sel, prefix, vteRisk) && e.cat == 2 ==> sel == "21-42" && !vteRisk
  {
  }

  /** The dynamic rules emit category 2 only from a 21–42-day interval without VTE risk. */
  lemma DynamicCategoryTwo(answers: Answers)
    ensures forall e :: e in DynamicEmissions(answers) && e.cat == 2 ==>
      IsChc(e.key) && !HasVTERisk(answers) &&
      (Selection(answers, "LACTANCIA_PERIODO", "NO") == "21-42" || Selection(answers, "POSPARTO_PERIODO", "NO") == "21-42")
  {
    var vte := HasVTERisk(answers);
    var sm, ra, la, se, pp, bl := SmokingEmissions(answers), RecentAbortionEmissions(answers),
      LactationEmissions(answers), SepticEmissions(answers), PostpartumEmissions(answers), BleedingEmissions(answers);
    IntervalCategoryTwo(Selection(answers, "LACTANCIA_PERIODO", "NO"), "LACTANCIA:", vte);
    IntervalCategoryTwo(Selection(answers, "POSPARTO_PERIODO", "NO"), "POSPARTO:", vte);
    assert forall e: Emission :: e in sm + ra + se + bl ==> e.cat != 2;
    forall e | e in DynamicEmissions(answers) && e.cat == 2
      ensures e in la || e in pp
    {
      assert DynamicEmissions(answers) == (sm + ra) + la + se + pp + bl;
    }
  }

  // ---------------------------------------------------------------------------
  // The accumulator, updated in place.
  // ---------------------------------------------------------------------------

  /** The per-method record `{cat, why}` of one evaluation, one slot per evaluated method. */
  class PerMethod {
    var slots: map<MethodKey, Slot>

    /** The empty record `{}`. */
    constructor ()
      ensures slots == map[]
    {
      slots := map[];
    }

    /** `worsenOne`: raise `key`'s category to `cat` and record `because` when `cat` is 3 or more. */
    method WorsenOne(key: EvalKey, cat: Category, because: string)
      requires Tracks(slots)
      modifies this
      ensures slots == StepMap(old(slots), Emission(key, cat, because))
      ensures Tracks(slots)
    {
      var s := slots[key];
      slots := slots[key := s.(cat := Worsen(s.cat, cat))];
      if cat >= 3 {
        slots := slots[key := slots[key].(why := slots[key].why + [because])];
      }
    }
  }

  lemma ApplyTwo(slots: map<MethodKey, Slot>, a: Emission, b: Emission)
    requires Tracks(slots)
    ensures Apply(slots, [a, b]) == StepMap(StepMap(slots, a), b)
  {
    assert [a, b][..1] == [a];
    assert [a][..0] == [];
    assert Apply(slots, [a]) == StepMap(slots, a);
  }

  lemma ApplyThree(slots: map<MethodKey, Slot>, a: Emission, b: Emission, c: Emission)
    requires Tracks(slots)
    ensures Apply(slots, [a, b, c]) == StepMap(StepMap(StepMap(slots, a), b), c)
  {
    assert [a, b, c][..2] == [a, b];
    ApplyTwo(slots, a, b);
  }

  /**
   * The lactation and the postpartum blocks of `applyDynamicRules`: for a
   * selection other than "" and "NO", map it to a CHC category and, when it is
   * one of the three intervals, apply it to the three CHC methods under
   * `prefix + sel`.
   */
  method IntervalRule(perMethod: PerMethod, sel: string, prefix: string, hasVTERisk: bool)
    requires Tracks(perMethod.slots)
    modifies perMethod
    ensures Tracks(perMethod.slots)
    ensures perMethod.slots == Apply(old(perMethod.slots), IntervalEmissions(sel, prefix, hasVTERisk))
  {
    ghost var s0 := perMethod.slots;
    if sel != "" && sel != "NO" {
      var chcCat: Option<Category> := None;
      if sel == "<21" {
        chcCat := Some(4);
      } else if sel == "21-42" {
        chcCat := Some(if hasVTERisk then 3 else 2);
      } else if sel == ">42" {
        chcCat := Some(1);
      }
      assert chcCat == IntervalCategory(sel, hasVTERisk);
      if chcCat.Some? {
        perMethod.WorsenOne(AHC_PILDORA, chcCat.value, prefix + sel);
        perMethod.WorsenOne(AHC_PARCHE, chcCat.value, prefix + sel);
        perMethod.WorsenOne(AHC_ANILLO, chcCat.value, prefix + sel);
        ApplyThree(s0, Emission(AHC_PILDORA, chcCat.value, prefix + sel),
          Emission(AHC_PARCHE, chcCat.value, prefix + sel), Emission(AHC_ANILLO, chcCat.value, prefix + sel));
      }
    }
  }

  /** The five concatenations of `DynamicEmissions`, applied one after the other. */
  lemma ApplyDynamicInOrder(s0: map<MethodKey, Slot>, answers: Answers)
    requires Tracks(s0)
    ensures Apply(s0, DynamicEmissions(answers))
      == Apply(Apply(Apply(Apply(Apply(Apply(s0, SmokingEmissions(answers)), RecentAbortionEmissions(answers)),
           LactationEmissions(answers)), SepticEmissions(answers)), PostpartumEmissions(answers)), BleedingEmissions(answers))
  {
    var sm, ra, la, se, pp, bl := SmokingEmissions(answers), RecentAbortionEmissions(answers),
      LactationEmissions(answers), SepticEmissions(answers), PostpartumEmissions(answers), BleedingEmissions(answers);
    ApplyConcat(s0, sm + ra + la + se + pp, bl);
    ApplyConcat(s0, sm + ra + la + se, pp);
    ApplyConcat(s0, sm + ra + la, se);
    ApplyConcat(s0, sm + ra, la);
    ApplyConcat(s0, sm, ra);
  }

  /** The smoking block: at 35 or over, the CHC methods go to 4 with 15+ cigarettes a day and to 3 otherwise. */
  method SmokingRule(perMethod: PerMethod, fuma35: bool, cigs: Num)
    requires Tracks(perMethod.slots)
    modifies perMethod
    ensures Tracks(perMethod.slots)
    ensures perMethod.slots == Apply(old(perMethod.slots), SmokingRuleEmissions(fuma35, cigs))
  {
    ghost var s0 := perMethod.slots;
    if fuma35 {
      var heavy := cigs.Int? && cigs.v >= 15;
      perMethod.WorsenOne(AHC_PILDORA, if heavy then 4 else 3, if heavy then "FUMA_≥35_15+:4" else "FUMA_≥35_<15:3");
      perMethod.WorsenOne(AHC_PARCHE, if heavy then 4 else 3, if heavy then "FUMA_≥35_15+:4" else "FUMA_≥35_<15:3");
      perMethod.WorsenOne(AHC_ANILLO, if heavy then 4 else 3, if heavy then "FUMA_≥35_15+:4" else "FUMA_≥35_<15:3");
      ApplyThree(s0, Emission(AHC_PILDORA, if heavy then 4 else 3, SmokingLabel(heavy)),
        Emission(AHC_PARCHE, if heavy then 4 else 3, SmokingLabel(heavy)), Emission(AHC_ANILLO, if heavy then 4 else 3, SmokingLabel(heavy)));
    }
  }

  /** The string test on `ABORTO_RECENTE`: "ABORTO_SEPTICO" puts both IUDs at 4. */
  method RecentAbortionRule(perMethod: PerMethod, abortoReciente: string)
    requires Tracks(perMethod.slots)
    modifies perMethod
    ensures Tracks(perMethod.slots)
    ensures perMethod.slots == Apply(old(perMethod.slots), RecentAbortionRuleEmissions(abortoReciente))
  {
    ghost var s0 := perMethod.slots;
    if abortoReciente == "ABORTO_SEPTICO" {
      perMethod.WorsenOne(DIU_CU, 4, "ABORTO_SEPTICO:DIU_CU=4");
      perMethod.WorsenOne(DIU_LNG, 4, "ABORTO_SEPTICO:DIU_LNG=4");
      ApplyTwo(s0, Emission(DIU_CU, 4, "ABORTO_SEPTICO:DIU_CU=4"), Emission(DIU_LNG, 4, "ABORTO_SEPTICO:DIU_LNG=4"));
    }
  }

  /** The septic-abortion block on `ABORTO_RECIENTE_TIPO`: both IUDs at 4 under "ABORTO_SEPTICO". */
  method SepticRule(perMethod: PerMethod, abortoTipo: string)
    requires Tracks(perMethod.slots)
    modifies perMethod
    ensures Tracks(perMethod.slots)
    ensures perMethod.slots == Apply(old(perMethod.slots), SepticRuleEmissions(abortoTipo))
  {
    ghost var s0 := perMethod.slots;
    if abortoTipo == "ABORTO_SEPTICO" {
      perMethod.WorsenOne(DIU_CU, 4, "ABORTO_SEPTICO");
      perMethod.WorsenOne(DIU_LNG, 4, "ABORTO_SEPTICO");
      ApplyTwo(s0, Emission(DIU_CU, 4, "ABORTO_SEPTICO"), Emission(DIU_LNG, 4, "ABORTO_SEPTICO"));
    }
  }

  /** The bleeding block: "ABUNDANTE" raises the copper IUD to 3 and applies 1 to the hormonal IUD. */
  method BleedingRule(perMethod: PerMethod, sangradoSel: string)
    requires Tracks(perMethod.slots)
    modifies perMethod
    ensures Tracks(perMethod.slots)
    ensures perMethod.slots == Apply(old(perMethod.slots), BleedingRuleEmissions(sangradoSel))
  {
    ghost var s0 := perMethod.slots;
    if sangradoSel == "ABUNDANTE" {
      perMethod.WorsenOne(DIU_CU, 3, "SANGRADO:ABUNDANTE:DIU_CU=3");
      perMethod.WorsenOne(DIU_LNG, 1, "SANGRADO:ABUNDANTE:DIU_LNG=1");
      ApplyTwo(s0, Emission(DIU_CU, 3, "SANGRADO:ABUNDANTE:DIU_CU=3"), Emission(DIU_LNG, 1, "SANGRADO:ABUNDANTE:DIU_LNG=1"));
    }
  }

  /** `applyDynamicRules`: run the six dynamic rules, in source order, on the accumulator. */
  method ApplyDynamicRules(answers: Answers, perMethod: PerMethod)
    requires Tracks(perMethod.slots)
    modifies perMethod
    ensures Tracks(perMethod.slots)
    ensures perMethod.slots == Apply(old(perMethod.slots), DynamicEmissions(answers))
  {
    ghost var s0 := perMethod.slots;
    var age := Age(answers);
    var fuma := Truthy(Get(answers, "FUMA"));
    var cigs := Cigarettes(answers);
    var fuma35 := fuma && age.Int? && age.v >= 35;
    assert fuma35 == Smokes35(answers);

    SmokingRule(perMethod, fuma35, cigs);
    RecentAbortionRule(perMethod, Selection(answers, "ABORTO_RECENTE", "NO"));

    var pospartoSel := Selection(answers, "POSPARTO_PERIODO", "NO");
    var lactaSel := Selection(answers, "LACTANCIA_PERIODO", "NO");
    var hasVTERisk := Truthy(Get(answers, "HTA_160_100")) || Truthy(Get(answers, "MUTACION_TROMBO"))
      || Truthy(Get(answers, "TVP_EP")) || fuma35 || Truthy(Get(answers, "CARDIO_ISQUEMICA"));
    assert hasVTERisk == HasVTERisk(answers);

    IntervalRule(perMethod, lactaSel, "LACTANCIA:", hasVTERisk);
    SepticRule(perMethod, Selection(answers, "ABORTO_RECIENTE_TIPO", "NO"));
    IntervalRule(perMethod, pospartoSel, "POSPARTO:", hasVTERisk);
    BleedingRule(perMethod, Selection(answers, "SANGRADO_ABUNDANTE", "NINGUNO"));

    ApplyDynamicInOrder(s0, answers);
  }
}
