/**
 * The question catalog of the eligibility test: ids, answer types, numeric
 * bounds, select options and the `when` clauses that make a question
 * depend on an earlier answer. The lemmas state the catalog's structural
 * invariants and how its strings line up with the rules that read them.
 */
module Questions {
  import opened Wrappers
  import opened MecTypes
  import opened JsCoerce
  import opened Mappings
  import opened Engine

  /** `QUESTIONS`, in source order. */
  const Catalog: seq<Question> :=
    [
      Question("EDAD_14_MAS", BooleanQ, true, None, None, None, None),
      Question("EDAD_YEARS", NumberQ, false, Some(14), Some(55), None, None),
      Question("EMBARAZO_ACTUAL", BooleanQ, false, None, None, None, None),
      Question("NULIPARA", BooleanQ, false, None, None, None, None),
      Question("POSPARTO_RECENTE", BooleanQ, false, None, None, None, Some([When("NULIPARA", EBool(false))])),
      Question("POSPARTO_PERIODO", SelectQ, false, None, None, Some(["<21", "21-42", ">42"]), Some([When("POSPARTO_RECENTE", EBool(true))])),
      Question("LACTANCIA_ACTUAL", BooleanQ, false, None, None, None, Some([When("POSPARTO_RECENTE", EBool(true))])),
      Question("LACTANCIA_PERIODO", SelectQ, false, None, None, Some(["<21", "21-42", ">42"]), Some([When("LACTANCIA_ACTUAL", EBool(true))])),
      Question("ABORTO_RECENTE", BooleanQ, false, None, None, None, None),
      Question("ABORTO_RECIENTE_TIPO", SelectQ, false, None, None, Some(["PRIMER_SEGUNDO_TRIMESTRE", "ABORTO_SEPTICO"]), Some([When("ABORTO_RECENTE", EBool(true))])),
      Question("MIGRAÑA_AURA", BooleanQ, false, None, None, None, None),
      Question("MIGRAÑA_SIN_AURA", BooleanQ, false, None, None, None, None),
      Question("FUMA", BooleanQ, false, None, None, None, None),
      Question("CIGARRILLOS_DIA", NumberQ, false, Some(1), Some(60), None, Some([When("FUMA", EBool(true))])),
      Question("ICTUS", BooleanQ, false, None, None, None, None),
      Question("TVP_EP", BooleanQ, false, None, None, None, None),
      Question("MUTACION_TROMBO", BooleanQ, false, None, None, None, None),
      Question("HTA_CONTROLADA", BooleanQ, false, None, None, None, None),
      Question("HTA_160_100", BooleanQ, false, None, None, None, None),
      Question("CARDIO_ISQUEMICA", BooleanQ, false, None, None, None, None),
      Question("DIABETES_GESTACIONAL", BooleanQ, false, None, None, None, None),
      Question("DIABETES_VASCULAR", BooleanQ, false, None, None, None, None),
      Question("OBESIDAD_IMC30", BooleanQ, false, None, None, None, None),
      Question("CIRROSIS_GRAVE", BooleanQ, false, None, None, None, None),
      Question("CANCER_MAMA_ACTUAL", BooleanQ, false, None, None, None, None),
      Question("CANCER_MAMA_5Y", BooleanQ, false, None, None, None, None),
      Question("CANCER_CUELLO_ENDOMETRIAL_ACTIVO", BooleanQ, false, None, None, None, None),
      Question("EPI_ACTIVA", BooleanQ, false, None, None, None, None),
      Question("ENDOMETRIOSIS", BooleanQ, false, None, None, None, None),
      Question("DISMENORREA_INTENSA", BooleanQ, false, None, None, None, None),
      Question("SANGRADO_ABUNDANTE", SelectQ, false, None, None, Some(["NINGUNO", "IRREGULAR_LEVE", "ABUNDANTE", "SIN_CAUSA_DIAGNOSTICADA"]), None),
      Question("MEDS_ENZYME_INDUCERS", BooleanQ, false, None, None, None, None),
      Question("MAYOR_45", BooleanQ, false, None, None, None, None),
      Question("TRATAMIENTO_DEPRESION", BooleanQ, false, None, None, None, None),
      Question("EFECTO_ADVERSO_PREVIO", BooleanQ, false, None, None, None, None)
    ]

  /** The ids of the catalog, in order. */
  function CatalogIds(): (r: seq<string>)
    ensures |r| == |Catalog|
  {
    seq(|Catalog|, i requires 0 <= i < |Catalog| => Catalog[i].id)
  }

  /**
   * The question ids in catalog order, as a plain list. It repeats `CatalogIds()`
   * (`CatalogIdsListed` proves the two equal) so that facts about the ids need
   * not unfold the whole catalog.
   */
  const QuestionIds: seq<string> := [
      "EDAD_14_MAS", "EDAD_YEARS", "EMBARAZO_ACTUAL", "NULIPARA", "POSPARTO_RECENTE", "POSPARTO_PERIODO",
      "LACTANCIA_ACTUAL", "LACTANCIA_PERIODO", "ABORTO_RECENTE", "ABORTO_RECIENTE_TIPO", "MIGRAÑA_AURA",
      "MIGRAÑA_SIN_AURA", "FUMA", "CIGARRILLOS_DIA", "ICTUS", "TVP_EP", "MUTACION_TROMBO", "HTA_CONTROLADA",
      "HTA_160_100", "CARDIO_ISQUEMICA", "DIABETES_GESTACIONAL", "DIABETES_VASCULAR", "OBESIDAD_IMC30",
      "CIRROSIS_GRAVE", "CANCER_MAMA_ACTUAL", "CANCER_MAMA_5Y", "CANCER_CUELLO_ENDOMETRIAL_ACTIVO",
      "EPI_ACTIVA", "ENDOMETRIOSIS", "DISMENORREA_INTENSA", "SANGRADO_ABUNDANTE", "MEDS_ENZYME_INDUCERS",
      "MAYOR_45", "TRATAMIENTO_DEPRESION", "EFECTO_ADVERSO_PREVIO"
  ]

  lemma QuestionIdsDistinct()
    ensures |QuestionIds| == 35 && Distinct(QuestionIds)
  {
  }

  /** The catalog's ids are `QuestionIds`. */
  lemma CatalogIdsListed()
    ensures CatalogIds() == QuestionIds
  {
  }

  /** There are 35 questions and their ids are pairwise distinct. */
  lemma CatalogIdsDistinct()
    ensures |Catalog| == 35
    ensures Distinct(CatalogIds())
  {
    CatalogIdsListed();
    QuestionIdsDistinct();
  }

  /** Every `when` clause refers to a question that comes earlier in the catalog. */
  lemma WhenRefersEarlier()
    ensures forall i, w :: 0 <= i < |Catalog| && Catalog[i].when.Some? && w in Catalog[i].when.value ==>
      w.id in QuestionIds[..i]
  {
    forall i, w | 0 <= i < |Catalog| && Catalog[i].when.Some? && w in Catalog[i].when.value
      ensures w.id in QuestionIds[..i]
    {
      assert i in {4, 5, 6, 7, 9, 13};
      var parent := if i == 4 then 3 else if i == 9 then 8 else if i == 13 then 12 else if i == 7 then 6 else 4;
      assert w.id == QuestionIds[..i][parent];
    }
  }

  /**
   * The postpartum and lactation questions offer exactly "<21", "21-42" and
   * ">42", which are exactly the selections the interval rules give a category.
   */
  lemma IntervalOptionsMatchRules(vteRisk: bool)
    ensures Catalog[5].id == "POSPARTO_PERIODO" && Catalog[7].id == "LACTANCIA_PERIODO"
    ensures Catalog[5].options == Catalog[7].options == Some(["<21", "21-42", ">42"])
    ensures forall v :: v in Catalog[5].options.value <==> IntervalCategory(v, vteRisk).Some?
  {
  }

  /**
   * `ABORTO_RECENTE` is a boolean question, so the string test the dynamic
   * rules make on it never fires from the form; "ABORTO_SEPTICO" is offered by
   * `ABORTO_RECIENTE_TIPO`, shown only after `ABORTO_RECENTE` is true.
   */
  lemma AbortionQuestions(answers: Answers)
    ensures Catalog[8].id == "ABORTO_RECENTE" && Catalog[8].kind == BooleanQ
    ensures Catalog[9].id == "ABORTO_RECIENTE_TIPO" && "ABORTO_SEPTICO" in Catalog[9].options.value
    ensures Catalog[9].when == Some([When("ABORTO_RECENTE", EBool(true))])
    ensures Get(answers, "ABORTO_RECENTE") == None || Get(answers, "ABORTO_RECENTE").value.Bool? ==>
      RecentAbortionEmissions(answers) == []
  {
    if Get(answers, "ABORTO_RECENTE") == None || Get(answers, "ABORTO_RECENTE").value.Bool? {
      RecentAbortionNeedsString(answers);
    }
  }

  /** The declared numeric bounds; the cigarette count is asked only of smokers. */
  lemma NumberBounds()
    ensures Catalog[1].id == "EDAD_YEARS" && Catalog[1].kind == NumberQ
    ensures Catalog[1].min == Some(14) && Catalog[1].max == Some(55)
    ensures Catalog[13].id == "CIGARRILLOS_DIA" && Catalog[13].kind == NumberQ
    ensures Catalog[13].min == Some(1) && Catalog[13].max == Some(60)
    ensures Catalog[13].when == Some([When("FUMA", EBool(true))])
  {
  }

  /**
   * Every bleeding option is a non-empty string, so choosing any of them, "No"
   * ("NINGUNO") included, fires the static `SANGRADO_ABUNDANTE` row.
   */
  lemma EveryBleedingOptionFiresRow(answers: Answers, sel: string)
    requires sel in Catalog[30].options.value && Get(answers, "SANGRADO_ABUNDANTE") == Some(Str(sel))
    ensures Catalog[30].id == "SANGRADO_ABUNDANTE" && "ABUNDANTE" in Catalog[30].options.value
    ensures forall r :: r in Evaluation(answers) && r.key == DIU_CU ==>
      r.category >= 3 && "SANGRADO_ABUNDANTE" + ":3" in r.reason
  {
    BleedingRowFiresOnAnyString(answers, sel);
  }

  /** Ids the catalog collects and no rule reads, that are only asked. */
  const AskedOnlyIds: set<string> := {
    "EDAD_14_MAS", "DIABETES_GESTACIONAL", "CANCER_CUELLO_ENDOMETRIAL_ACTIVO",
    "ENDOMETRIOSIS", "TRATAMIENTO_DEPRESION", "EFECTO_ADVERSO_PREVIO"
  }

  /** Ids no rule reads that only gate the visibility of other questions. */
  const GateOnlyIds: set<string> := {"POSPARTO_RECENTE", "LACTANCIA_ACTUAL"}

  /** Every id the catalog collects that no rule reads. */
  const UnreadIds: set<string> := AskedOnlyIds + GateOnlyIds

  /** No id of `AskedOnlyIds` is a condition of the static table. */
  lemma AskedOnlyNotConditions(id: string)
    requires id in AskedOnlyIds
    ensures forall k :: 0 <= k < |ConditionTable| ==> ConditionTable[k].cond != id
  {
  }

  /** No id of `GateOnlyIds` is a condition of the static table. */
  lemma GateOnlyNotConditions(id: string)
    requires id in GateOnlyIds
    ensures forall k :: 0 <= k < |ConditionTable| ==> ConditionTable[k].cond != id
  {
  }

  /** Answering a question in `UnreadIds` never changes any result. */
  lemma UnreadAnswersIgnored(answers: Answers, id: string, v: AnswerValue)
    requires id in UnreadIds
    ensures id in QuestionIds
    ensures Evaluation(answers[id := v]) == Evaluation(answers)
  {
    if id in AskedOnlyIds {
      AskedOnlyNotConditions(id);
    } else {
      GateOnlyNotConditions(id);
    }
    UnreadAnswerIgnored(answers, id, v);
  }

  /** Static-table conditions that no catalog question asks. */
  const UnaskedConditions: set<string> := {
    "LES_ANTIFOSFOLIPIDOS", "ETS_ACTIVA", "MENARQUIA_MENOR_18", "CIRUGIA_MAYOR_INMOVILIZACION", "ABORTO_SEPTICO"
  }

  lemma UnaskedNotListed()
    ensures forall id :: id in UnaskedConditions ==> id !in QuestionIds
  {
  }

  /** Answers collected by the form never fire a row whose condition the catalog does not ask. */
  lemma UnaskedRowsNeverFire(answers: Answers, k: nat)
    requires forall id :: id in answers ==> id in QuestionIds
    requires k < |ConditionTable| && ConditionTable[k].cond in UnaskedConditions
    ensures RowEmissions(answers, ConditionTable[k]) == []
  {
    UnaskedNotListed();
  }
}
