# MEC contraceptive eligibility engine — Dafny model

This project models the core of a web tool that applies the medical eligibility
criteria for contraceptive use ("US MEC 2024") to a questionnaire. The tool
gives every contraceptive method a category from 1 (no restriction) to 4
(unacceptable risk), together with the reasons that raised it.

The model covers:

- **The engine** (`Engine`, `Mappings`).
  - The accumulator starts with one slot per evaluated method, each at category 1 with no reasons.
  - A static pass walks the condition table. A row whose answer is truthy raises each of its methods to the row's category, and appends `condId:cat` when that category is 3 or more.
  - The six dynamic rules then update the same accumulator through `worsenOne`, in source order: smoking at 35+, the `ABORTO_RECENTE` string test, the lactation interval, septic abortion, the postpartum interval and heavy bleeding.
  - The output has one result per evaluated method.
  - The imperative code is modelled imperatively:
    - `PerMethod` is a class whose `slots` map the methods update in place.
    - `WorsenOne`, one method per dynamic-rule block, `ApplyDynamicRules`, the static loops (`ApplyRow`, `StaticPass`), `InitPerMethod`, `EvaluateFromAnswers` and `EvaluateMec`.
    - Each is proved against `Apply`, a fold of *emissions*: one `(method, category, label)` per `worsenOne` or per static cell. `Evaluation(answers)` is the specification of the whole computation.
  - The lemmas then state what a result means: maximum, reasons, order independence, the scenarios and the table facts.
- **The JavaScript coercions the core relies on** (`JsCoerce`): truthiness, `??`, `String()` and `Number()`.
- **The question catalog** (`Questions`): ids, kinds, bounds, option values and `when` clauses.
- **The test page's state and logic** (`TestPage`): visibility, the answered count, the input handlers, submit and clear, the badge, and the `answers`/`results` fields as a class.
- **The comparator** (`Compare`): the toggled selection as a class, the column filter, the table threshold and the cell texts.
- **The method metadata** (`MethodsMeta`): the table, `ALL_SLUGS` and `findBySlug`.

One consequence of the rule order is easy to miss. With `POSPARTO_PERIODO` "21-42" and a truthy `HTA_160_100`, the postpartum rule applies 3 to the combined hormonal (CHC) methods. The static `HTA_160_100` row has already put them at 4, and categories only rise, so the result is 4 (`Engine.SevereHypertensionContraindicatesChc`).

Several source quirks are kept as written:

- `NATURALES` is a `MethodKey` but is never evaluated.
- The static `SANGRADO_ABUNDANTE` row fires on any non-empty selection, "NINGUNO" included.
- The `ABORTO_RECENTE` string test cannot fire from the boolean form question.
- The metadata uses the keys `IMPLANTE_3A` and `IMPLANTE_5A`, which are not method keys. As a result those two never get a comparator column.
- The badge shows category 2 as "3 (precaución)" and category 3 as "4 (contraindicado)".

## Model

| member | source | states |
|---|---|---|
| MecTypes.MethodKeyClosed | src/types/mec.ts:5-17 | the key type has exactly twelve members, `NATURALES` among them, and their run-time names are distinct |
| JsCoerce.ParseNumberDecimalString | src/app/test/page.tsx:63 | `Number(String(n)) === n` for every integer: the decimal form parses back to the same number |
| JsCoerce.DigitsValueOfDigits | src/app/test/page.tsx:63 | the digit string of a natural number has that number as its value |
| JsCoerce.Truthy | src/lib/mec/engine.ts:20-21 | `!v` as the static pass tests it: a truthy answer is present and not null, and every non-empty string is truthy |
| JsCoerce.Coalesce | src/lib/mec/mappings.ts:114-116 | `v ?? d` is either the default or the answer itself, and never null when the default is not |
| JsCoerce.DecimalString | src/app/comparar/page.tsx:182-183 | `String(n)` of an integer is non-empty, starts with "-" exactly for negatives and is otherwise all digits |
| JsCoerce.ParseNumber | src/app/test/page.tsx:63 | `Number("")` is 0, a string ending in a non-digit is NaN, a digit string is a non-negative integer |
| JsCoerce.ToStr | src/app/test/page.tsx:23 | `String(v)` shows a string as is, and is "undefined" exactly for an absent answer or the string "undefined" |
| Mappings.AllMethodsShape | src/lib/mec/mappings.ts:5-12 | `ALL_METHODS` has eleven distinct methods, holds every key except `NATURALES`, and omits `NATURALES` |
| Mappings.Worsen | src/lib/mec/mappings.ts:15-18 | the result is at least both arguments and equal to one of them: the larger category |
| Mappings.WorsenLaws | src/lib/mec/mappings.ts:15-18 | `worsen` is commutative, idempotent and associative |
| Mappings.ConditionIdsDistinct | src/lib/mec/mappings.ts:21-107 | the static table has 25 rows with pairwise distinct condition ids |
| Mappings.PregnancyAndAuraRows | src/lib/mec/mappings.ts:26-98 | `EMBARAZO_ACTUAL` gives 4 to each of the eleven evaluated methods; `MIGRAÑA_AURA` holds exactly the three CHC methods at 4 |
| Mappings.HypertensionAndBleedingRows | src/lib/mec/mappings.ts:42-101 | `HTA_160_100` gives the CHC methods 4; `SANGRADO_ABUNDANTE` gives `DIU_CU` 3 |
| Mappings.Step | src/lib/mec/mappings.ts:189-192 | one `worsenOne` on a slot: the category becomes the larger of the old one and `cat`; the label is appended exactly when `cat` is 3 or more |
| Mappings.Apply | src/lib/mec/mappings.ts:189-192 | folding applications keeps the accumulator's key set and a slot for every evaluated method |
| Mappings.ApplyConcat | src/lib/mec/mappings.ts:110-193 | running two batches of applications one after the other equals running their concatenation |
| Mappings.ApplyAt | src/lib/mec/mappings.ts:189-192 | each method's slot depends only on the applications addressed to it: `worsenOne` changes only `perMethod[key]` |
| Mappings.FoldKeyIsMax | src/lib/mec/mappings.ts:189-192 | a method's final category is the maximum of its start and every category applied to it; its reasons are the start reasons plus the labels applied at 3 or more, in order |
| Mappings.LabelsNonEmpty | src/lib/mec/mappings.ts:191 | a method has a label exactly when some application to it has category 3 or more |
| Mappings.LabelsContain | src/lib/mec/mappings.ts:191 | every application at 3 or more contributes its label |
| Mappings.MaxIsOrderIndependent | src/lib/mec/mappings.ts:189-192 | the final category does not depend on the order of the applications |
| Mappings.ReasonsIffSevere | src/lib/mec/mappings.ts:189-192 | starting from category 1, the reasons are non-empty exactly when the final category is 3 or more |
| Mappings.IntervalCategory | src/lib/mec/mappings.ts:149-153 | only "<21", "21-42" and ">42" get a category; the category is 2 exactly for "21-42" without VTE risk |
| Mappings.HasVTERisk | src/lib/mec/mappings.ts:137 | the VTE risk flag is raised only when one of its five conditions (smoking needing both `FUMA` and `EDAD_YEARS`) is answered |
| Mappings.DynamicReadsOnly | src/lib/mec/mappings.ts:114-186 | the dynamic rules read only the twelve ids they name: answers that agree on those give the same applications |
| Mappings.SmokingEdgeCases | src/lib/mec/mappings.ts:114-125 | a missing or null age never fires the smoking rule; a smoker at 35+ with fewer than 15 cigarettes, a missing count or a non-numeric one gets exactly the three CHC applications at 3 with "FUMA_≥35_<15:3"; with 15+ cigarettes, at 4 with "FUMA_≥35_15+:4" |
| Mappings.RecentAbortionNeedsString | src/lib/mec/mappings.ts:128-132 | the `ABORTO_RECENTE` string test never fires for a missing or boolean answer |
| Mappings.BooleanAnswersNoDynamic | src/lib/mec/mappings.ts:114-186 | an answers map of booleans only triggers no dynamic rule |
| Mappings.IntervalCategoryTwo | src/lib/mec/mappings.ts:147-158 | an interval rule touches only CHC methods and emits 2 only for "21-42" without VTE risk |
| Mappings.DynamicCategoryTwo | src/lib/mec/mappings.ts:147-179 | the dynamic rules emit 2 only on a CHC method, without VTE risk, when the lactation or postpartum interval is "21-42" |
| Mappings.PerMethod.constructor | src/lib/mec/engine.ts:15 | the accumulator starts as the empty record |
| Mappings.PerMethod.WorsenOne | src/lib/mec/mappings.ts:189-192 | the new accumulator is the old one with only `key`'s slot stepped by `(cat, because)` |
| Mappings.SmokingRule | src/lib/mec/mappings.ts:120-125 | the accumulator after the smoking block is the old one with the smoking applications folded in |
| Mappings.RecentAbortionRule | src/lib/mec/mappings.ts:128-132 | the accumulator after the `ABORTO_RECENTE` block is the old one with that block's applications folded in |
| Mappings.IntervalRule | src/lib/mec/mappings.ts:147-158 | the accumulator after a lactation or postpartum block is the old one with the interval applications (`prefix + sel`, category from `IntervalCategory`) folded in |
| Mappings.SepticRule | src/lib/mec/mappings.ts:161-165 | the accumulator after the septic-abortion block is the old one with both IUDs' applications at 4 folded in |
| Mappings.BleedingRule | src/lib/mec/mappings.ts:182-186 | the accumulator after the bleeding block is the old one with `DIU_CU` at 3 and `DIU_LNG` at 1 folded in |
| Mappings.ApplyDynamicRules | src/lib/mec/mappings.ts:110-193 | the accumulator after `applyDynamicRules` is the old one with all six rules' applications folded in, in source order |
| Engine.InitSlots | src/lib/mec/engine.ts:10-16 | the starting accumulator has a slot for each evaluated method, none for `NATURALES`, all at category 1 with no reasons |
| Engine.TrueMap | src/lib/mec/engine.ts:50-51 | the answers built from a list hold exactly the listed ids, each `true` |
| Engine.StaticEmissions | src/lib/mec/engine.ts:19-28 | the static pass as applications: the cells of every truthy row, in row order; `StaticMemberIntro` and `StaticMemberElim` state it |
| Engine.Evaluation | src/lib/mec/engine.ts:9-42 | the results of one evaluation: the outputs of the fold of the static then the dynamic applications over the starting accumulator; `EvaluationShape` and `ResultIsMaximum` state what they are |
| Engine.InitPerMethod | src/lib/mec/engine.ts:10-16 | the loop builds a fresh accumulator equal to the starting one |
| Engine.ApplyRow | src/lib/mec/engine.ts:22-27 | the inner loop leaves the accumulator equal to the old one with the row's cell applications folded in |
| Engine.StaticPass | src/lib/mec/engine.ts:19-28 | the outer loop leaves the accumulator equal to the old one with the applications of every truthy row folded in, in row order |
| Engine.EvaluateFromAnswers | src/lib/mec/engine.ts:9-42 | `evaluateMECFromAnswers` returns `Evaluation(answers)` |
| Engine.ListAnswers | src/lib/mec/engine.ts:50-51 | the loop sets exactly the listed ids, each to `true` |
| Engine.EvaluateMec | src/lib/mec/engine.ts:48-53 | `evaluateMEC` on a map evaluates it; on a list it evaluates the map setting each listed id to `true` |
| Engine.StaticTagDigits | src/lib/mec/engine.ts:26 | a static reason is `condId + ":3"` or `condId + ":4"` |
| Engine.EvaluationShape | src/lib/mec/engine.ts:37-41 | eleven results, one per method in `ALL_METHODS` order, distinct keys, never `NATURALES` |
| Engine.ResultOf | src/lib/mec/engine.ts:37-41 | a result reports its method's final slot: category and reasons |
| Engine.ResultIsMaximum | src/lib/mec/engine.ts:19-31 | a result's category is the maximum of 1 and every static or dynamic category applied to its method; its reasons are the labels of the applications at 3 or more, in order |
| Engine.ResultOrderIndependent | src/lib/mec/engine.ts:19-31 | any reordering of the applications gives the same category |
| Engine.ResultReasonsIffSevere | src/lib/mec/engine.ts:25-26 | a result has reasons exactly when its category is 3 or 4 |
| Engine.EmissionRaises | src/lib/mec/engine.ts:19-31 | every application puts its method's result at least at its category and, at 3 or more, lists its label |
| Engine.CellEmissionsAt | src/lib/mec/engine.ts:22-26 | a fired row applies each cell's category under the label `condId:cat`, in cell order |
| Engine.StaticMemberIntro | src/lib/mec/engine.ts:19-22 | the cell applications of a row with a truthy answer are in the static pass |
| Engine.StaticMemberElim | src/lib/mec/engine.ts:19-22 | every static application comes from a row whose answer is truthy |
| Engine.StaticNeverTwo | src/lib/mec/mappings.ts:26-104 | static rows never apply category 2 |
| Engine.StaticReadsOnly | src/lib/mec/engine.ts:19-21 | the static pass reads only the answers to the table's conditions |
| Engine.StaticUnanswered | src/lib/mec/engine.ts:20-21 | with no condition answered, the static pass applies nothing |
| Engine.RowRaises | src/lib/mec/engine.ts:19-27 | a fired row's cell raises its method's result to at least the cell's category and, at 3 or more, lists `condId:cat`, even when the category was already that high |
| Engine.EmptyAnswersIdentity | src/lib/mec/engine.ts:10-31 | empty answers leave every method at 1 with no reasons |
| Engine.PregnancyContraindicatesAll | src/lib/mec/mappings.ts:95-98 | a truthy `EMBARAZO_ACTUAL` puts all eleven methods at 4, each with "EMBARAZO_ACTUAL:4" |
| Engine.BleedingRowFiresOnAnyString | src/lib/mec/mappings.ts:101 | any non-empty `SANGRADO_ABUNDANTE` string, "NINGUNO" included, puts `DIU_CU` at 3 or more with "SANGRADO_ABUNDANTE:3" |
| Engine.SevereHypertensionContraindicatesChc | src/lib/mec/mappings.ts:42 | a truthy `HTA_160_100` puts the CHC methods at exactly 4 whatever the interval answers |
| Engine.DynamicRaises | src/lib/mec/engine.ts:31 | every dynamic application puts its method's result at least at its category and, at 3 or more, lists its label |
| Engine.SmokingAt35Result | src/lib/mec/mappings.ts:114-125 | smoking at 35+ puts the CHC methods at 3 or more with the smoking label, and at 4 with 15+ cigarettes |
| Engine.SepticAbortionResult | src/lib/mec/mappings.ts:161-165 | "ABORTO_SEPTICO" as abortion type puts both IUDs at 4 with reason "ABORTO_SEPTICO" |
| Engine.HeavyBleedingResult | src/lib/mec/mappings.ts:182-186 | "ABUNDANTE" puts `DIU_CU` at 3 or more with "SANGRADO:ABUNDANTE:DIU_CU=3" |
| Engine.CategoryTwoOnlyFromInterval | src/lib/mec/mappings.ts:147-179 | a result at 2 is a CHC method, without VTE risk, with a "21-42" lactation or postpartum interval |
| Engine.LightSmokerAt40Alone | src/lib/mec/mappings.ts:114-125 | `{FUMA: true, EDAD_YEARS: 40, CIGARRILLOS_DIA: 5}` gives the CHC methods exactly 3 with "FUMA_≥35_<15:3", and every other method 1 with no reasons |
| Engine.AuraAlone | src/lib/mec/mappings.ts:26 | `{MIGRAÑA_AURA: true}` gives the CHC methods exactly 4 with "MIGRAÑA_AURA:4", and every other method 1 with no reasons |
| Engine.PostpartumIntervalAlone | src/lib/mec/mappings.ts:168-179 | answering only "21-42" postpartum gives the CHC methods 2 and the others 1, with no reasons |
| Engine.ListInputOnlyStatic | src/lib/mec/engine.ts:44-53 | for the list form, the applications are exactly the static ones |
| Engine.UnreadAnswerIgnored | src/lib/mec/engine.ts:19-31 | changing an answer no row and no dynamic rule reads leaves the results unchanged |
| Questions.QuestionIdsDistinct | src/lib/mec/questions.ts:5-92 | the 35 listed question ids are pairwise distinct |
| Questions.CatalogIdsListed | src/lib/mec/questions.ts:5-92 | the catalog's ids, in order, are the listed ids |
| Questions.CatalogIdsDistinct | src/lib/mec/questions.ts:5-92 | the catalog has 35 questions with pairwise distinct ids |
| Questions.WhenRefersEarlier | src/lib/mec/questions.ts:15-47 | every `when` clause names a question that comes earlier in the catalog |
| Questions.IntervalOptionsMatchRules | src/lib/mec/questions.ts:16-30 | both interval questions offer exactly "<21", "21-42", ">42", the selections that get a category |
| Questions.AbortionQuestions | src/lib/mec/questions.ts:33-39 | `ABORTO_RECENTE` is boolean, so its string test never fires; "ABORTO_SEPTICO" is offered by `ABORTO_RECIENTE_TIPO`, shown when `ABORTO_RECENTE` is true |
| Questions.NumberBounds | src/lib/mec/questions.ts:8-47 | `EDAD_YEARS` is a number in 14–55; `CIGARRILLOS_DIA` is a number in 1–60 shown only when `FUMA` is true |
| Questions.EveryBleedingOptionFiresRow | src/lib/mec/questions.ts:74-81 | choosing any bleeding option fires the static row: `DIU_CU` at 3 or more |
| Questions.UnreadAnswersIgnored | src/lib/mec/questions.ts:7-91 | answering one of the eight catalog questions no rule reads (six only asked, plus `POSPARTO_RECENTE` and `LACTANCIA_ACTUAL`, which only gate visibility) never changes any result |
| Questions.UnaskedNotListed | src/lib/mec/questions.ts:5-92 | five table conditions are not catalog questions |
| Questions.UnaskedRowsNeverFire | src/lib/mec/mappings.ts:67-104 | answers keyed by catalog ids never fire the rows of those five conditions |
| TestPage.EveryIff | src/app/test/page.tsx:18-24 | `every` holds exactly when each clause holds |
| TestPage.IsVisible | src/app/test/page.tsx:15-25 | `isVisible`: no `when`, or every clause holds; `VisibleIff` states it clause by clause |
| TestPage.VisibleIff | src/app/test/page.tsx:15-25 | a question is visible exactly when it has no `when` or all its clauses hold |
| TestPage.StringCoercedClauses | src/app/test/page.tsx:21-23 | number 0 matches "0"; an absent answer matches only "undefined" and never a number; "true" does not match boolean `true` |
| TestPage.StaleParentKeepsChildVisible | src/app/test/page.tsx:18-24 | with `NULIPARA` true and a stale `POSPARTO_RECENTE` true, `POSPARTO_RECENTE` is hidden yet `LACTANCIA_ACTUAL` is shown |
| TestPage.VisibleQuestionsMember | src/app/test/page.tsx:93 | the visible list holds exactly the visible questions and is no longer than the catalog |
| TestPage.VisibleQuestions | src/app/test/page.tsx:93 | `QUESTIONS.filter(isVisible)` in catalog order; `VisibleQuestionsMember` states its members |
| TestPage.AnsweredCount | src/app/test/page.tsx:94 | the `reduce` adding one per question whose answer is neither undefined nor ""; `AnsweredCountBounds` bounds it |
| TestPage.UnconditionalAlwaysVisible | src/app/test/page.tsx:16 | a question without `when` is always in the visible list |
| TestPage.AnsweredCountBounds | src/app/test/page.tsx:94 | the count is at most the number of questions, and equal to it exactly when all are answered |
| TestPage.ProgressBounded | src/app/test/page.tsx:93-94 | 0 ≤ answered count ≤ visible questions ≤ catalog size |
| TestPage.NumberFieldValue | src/app/test/page.tsx:63 | a number field always stores a number, and 0 for the empty text |
| TestPage.NumberFieldRoundTrip | src/app/test/page.tsx:63 | typing an integer's decimal form stores that integer |
| TestPage.SelectDisplay | src/app/test/page.tsx:71 | a select shows the stored answer, or its first option while nothing or null is stored; `SelectDefaultNotStored` uses it |
| TestPage.SelectDefaultNotStored | src/app/test/page.tsx:71 | an untouched postpartum select shows "<21", yet the postpartum rule applies nothing |
| TestPage.BadgeOf | src/app/test/page.tsx:154-160 | the "apto" badge exactly for 1, "precaución" exactly for 2, "contraindicado" exactly for 3 and 4 |
| TestPage.BadgeText | src/app/test/page.tsx:155-159 | the text of each badge: "✅ 1–2 (apto)", "⚠ 3 (precaución)", "❌ 4 (contraindicado)"; `BadgeTextOf` states it per category |
| TestPage.BadgeTextOf | src/app/test/page.tsx:154-160 | category 1 shows "✅ 1–2 (apto)", category 2 "⚠ 3 (precaución)", categories 3 and 4 "❌ 4 (contraindicado)" |
| TestPage.ReasonsShownIffContraindicated | src/app/test/page.tsx:154-165 | for each evaluated result, the reasons line appears exactly under the "contraindicado" badge |
| TestPage.TestForm.constructor | src/app/test/page.tsx:8-9 | answers start empty and results null |
| TestPage.TestForm.OnChange | src/app/test/page.tsx:11-13 | the answers become the old ones with only `id` replaced; results unchanged |
| TestPage.TestForm.OnNumberInput | src/app/test/page.tsx:63 | the number field stores `Number(text)` under its id |
| TestPage.TestForm.Clear | src/app/test/page.tsx:134-137 | answers become empty and results null |
| TestPage.TestForm.Submit | src/app/test/page.tsx:86-91 | results become the evaluation of all stored answers; answers unchanged |
| TestPage.EmptiedNumberFieldStoresZero | src/app/test/page.tsx:63 | an emptied number field stores 0 and still counts as answered |
| TestPage.HiddenAnswersStillCount | src/app/test/page.tsx:89 | a hidden postpartum answer "<21" (after `POSPARTO_RECENTE` became false) still puts the CHC methods at 4 |
| MethodsMeta.Values | src/data/methods.meta.ts:101 | `Object.values` lists the records in declaration order |
| MethodsMeta.AllSlugsListed | src/data/methods.meta.ts:101 | `ALL_SLUGS` has twelve slugs, one per record, in record order |
| MethodsMeta.KeysConsistent | src/data/methods.meta.ts:14-99 | each record's `key` equals its record key |
| MethodsMeta.SlugsDistinct | src/data/methods.meta.ts:14-99 | the slugs are pairwise distinct |
| MethodsMeta.MetaKeysDistinct | src/data/methods.meta.ts:14-99 | the record keys are pairwise distinct |
| MethodsMeta.FindInFirst | src/data/methods.meta.ts:103 | `find` returns the first record with the slug, and nothing exactly when none has it |
| MethodsMeta.FindIn | src/data/methods.meta.ts:103 | `find` returns only a record of the list that has the slug |
| MethodsMeta.FindBySlug | src/data/methods.meta.ts:102-104 | `findBySlug(s)` returns only a table record whose slug is `s` |
| MethodsMeta.FindBySlugFirst | src/data/methods.meta.ts:102-104 | `findBySlug(s)` is the first record with slug `s`, and null exactly when `s` is not in `ALL_SLUGS` |
| MethodsMeta.FindBySlugRoundTrip | src/data/methods.meta.ts:102-104 | looking up any record's slug gives back that record |
| MethodsMeta.MetaOf | src/app/comparar/page.tsx:56 | a record found under key `k` has `key == k` |
| MethodsMeta.MetaOfFound | src/data/methods.meta.ts:14-99 | `METHODS_META[k]` is a table record exactly when `k` is a record key |
| MethodsMeta.ImplantVariantsAreNoMethodKey | src/data/methods.meta.ts:29-42 | `IMPLANTE_3A` and `IMPLANTE_5A` are the name of no `MethodKey` |
| MethodsMeta.MetaKeysVersusMethodKeys | src/data/methods.meta.ts:29-42 | the implant variants have records; the method keys `IMPLANTE` and `NATURALES` have none |
| Compare.WithoutMembers | src/app/comparar/page.tsx:47 | filtering out a key keeps exactly the other keys, never grows the list, and keeps it duplicate-free |
| Compare.WithoutAt | src/app/comparar/page.tsx:47 | removing a key found once at index i gives the list without index i |
| Compare.ToggleSel | src/app/comparar/page.tsx:45-51 | toggling changes no other key's membership; the key ends up selected exactly when it was not and fewer than three were; a new key is appended at the end, and a full selection is returned unchanged |
| Compare.ToggleRemoves | src/app/comparar/page.tsx:47 | toggling a selected key removes it and keeps the others in order |
| Compare.TogglePreservesValid | src/app/comparar/page.tsx:45-50 | toggling keeps a selection of at most three keys, none twice |
| Compare.ToggleTwiceRestores | src/app/comparar/page.tsx:47-49 | adding a new key when there is room, then toggling it again, restores the selection |
| Compare.ReachableValid | src/app/comparar/page.tsx:43-51 | every selection reachable from the empty list by toggles has at most three keys and no duplicates |
| Compare.ComparePage.constructor | src/app/comparar/page.tsx:43 | the selection starts empty (and valid) |
| Compare.ComparePage.Toggle | src/app/comparar/page.tsx:45-51 | the selection becomes its toggled form; a valid selection stays valid |
| Compare.ColsConcat | src/app/comparar/page.tsx:53-59 | the columns of a concatenated selection are the concatenated columns, so selection order is kept |
| Compare.Cols | src/app/comparar/page.tsx:53-59 | `cols`: each selected key with both a meta and a detail entry, in selection order; `ColsConcat` and `ColsMembers` state it |
| Compare.ShowTable | src/app/comparar/page.tsx:110 | the table is shown from two columns on; `ImplantsAloneShowNoTable` uses it |
| Compare.ColsMembers | src/app/comparar/page.tsx:53-59 | a key has a column exactly when it is selected and has both a meta and a detail entry; each column holds that key's entries |
| Compare.ImplantVariantsHaveNoColumn | src/app/comparar/page.tsx:23-36 | with the detail table keyed by method keys, the implant variants never get a column |
| Compare.ImplantsAloneShowNoTable | src/app/comparar/page.tsx:110 | selecting both implant variants and one method gives fewer than two columns: no table |
| Compare.RowCell | src/app/comparar/page.tsx:263 | a cell is never empty, and shows a non-empty value as is |
| Compare.QuickCell | src/app/comparar/page.tsx:163-177 | a quick-facts cell is never empty |
| Compare.QuickCellShows | src/app/comparar/page.tsx:163-177 | a non-empty field is shown as is; a missing field or quick block shows "—", or "No" for STI protection |
| Compare.RateCell | src/app/comparar/page.tsx:181-193 | a rate cell is "—" exactly when the rate is missing |
| Compare.RatePct | src/app/comparar/page.tsx:182-190 | `efficacy?.typical_failure_rate_pct` (or the perfect-use rate): missing whenever the efficacy block is |
| Compare.EmergencyCell | src/app/comparar/page.tsx:195-199 | the emergency cell is never empty, and is "No" exactly when the method is not for emergency use |
| Compare.RateCellRoundTrip | src/app/comparar/page.tsx:182-183 | a present rate shows as its decimal form plus "%", and reading that back gives the rate |
| Compare.TakeThree | src/app/comparar/page.tsx:205 | the slice has at most three items |
| Compare.JoinSmall | src/app/comparar/page.tsx:206 | joining one, two or three items puts the separator between them |
| Compare.ListCell | src/app/comparar/page.tsx:204-215 | an advantages or disadvantages cell is never empty |
| Compare.ListCellFirstThree | src/app/comparar/page.tsx:204-215 | a missing or empty list shows "—"; items after the third never change the cell |
| Compare.ListCellShows | src/app/comparar/page.tsx:204-206 | one non-empty item is shown as is; two items are shown joined by " · " |

## Left out

- JSX rendering, CSS classes, links, the comparator's tag badges and row captions: presentation only.
- Question labels, help texts and option labels: display text only. Option values are modelled.
- The consent modal, the privacy tools, and the method list and detail pages: browser storage, DOM and locale-dependent text search, outside the core.
- The comparator's option list, sorted with `localeCompare(…, "es")`: locale collation.
- The contents of the method detail JSON files. The detail table is a parameter map, and only the fields the comparator reads are modelled.
- Compare.RateCell: failure rates are integers; fractional percentages are not modelled.
- Compare.Detail: `emergency` is modelled by its truthiness, and list and quick fields by strings.
- The progress-bar percentage: floating-point arithmetic.
- JsCoerce.ParseNumber: `Number()` is modelled for the empty string, optional sign and decimal digits only. Every other text becomes NaN here, although `Number()` gives it a value: surrounding whitespace (" 40" is 40), fractions ("35.5"), exponents, hexadecimal and "Infinity". So typing 35.5 as `EDAD_YEARS` gives a NaN age and no smoking rule in the model, while the source applies the rule.
- JsCoerce.ParseNumber and JsCoerce.DecimalString: integers are unbounded. The rounding of doubles above 2^53 and the exponent form of `String()` at 1e21 and above are not modelled. The thresholds the rules compare with (35 and 15) are far below either.
- `selToDays` and its unused result: dead code.
- React plumbing (`useState` updaters, re-rendering): state is the plain fields of `TestForm` and `ComparePage`, assigned directly.
- The boolean and select handlers: they are `OnChange` with `Bool(b)` or `Str(value)` and have no method of their own.
- The `if (!cat) continue` guard in the static loop: the table holds only categories 1, 3 and 4, so it is never taken.
- Mappings.PerMethod: the per-method `{cat, why}` objects are held by value in a map. No object is ever shared, so aliasing is not modelled.
- Clinical correctness of the category values: the model checks that the tables are applied consistently, not that they are medically right.
