/**
 * The method metadata table: one record per catalogued method (its record key,
 * display name, URL slug, tags and summary), the list of all slugs and the
 * lookup by slug.
 */
module MethodsMeta {
  import opened Wrappers
  import opened MecTypes

  datatype MethodTag = Hormonal | NoHormonal | Larc | Emergencia

  /** One metadata record. `key` is a plain string: two records use keys outside `MethodKey`. */
  datatype MethodMeta = MethodMeta(key: string, name: string, slug: string, tags: seq<MethodTag>, blurb: string)

  /** The record as (record key, value) pairs, in declaration order. */
  const Entries: seq<(string, MethodMeta)> := [
    ("DIU_CU", MethodMeta("DIU_CU", "DIU de Cobre", "diu-cobre", [NoHormonal, Larc, Emergencia],
      "No hormonal, larga duración (hasta 10 años). También útil como anticoncepción de emergencia.")),
    ("DIU_LNG", MethodMeta("DIU_LNG", "DIU hormonal (LNG)", "diu-hormonal", [Hormonal, Larc],
      "Libera levonorgestrel localmente; reduce sangrado en muchas usuarias.")),
    ("IMPLANTE_3A", MethodMeta("IMPLANTE_3A", "Implante subdérmico (3 años)", "implante-3-anos", [Hormonal, Larc],
      "Varilla subdérmica con progestágeno por 3 años. Muy eficaz.")),
    ("IMPLANTE_5A", MethodMeta("IMPLANTE_5A", "Implante subdérmico (5 años)", "implante-5-anos", [Hormonal, Larc],
      "Varillas subdérmicas con progestágeno por 5 años.")),
    ("AMPD_MENSUAL", MethodMeta("AMPD_MENSUAL", "Inyectable mensual", "inyectable-mensual", [Hormonal],
      "Esquema combinado mensual; requiere adherencia en controles.")),
    ("AMPD_3M", MethodMeta("AMPD_3M", "Inyectable trimestral", "inyectable-trimestral", [Hormonal],
      "DMPA cada 3 meses; eficacia alta si se aplica a tiempo.")),
    ("PPS", MethodMeta("PPS", "Píldora solo progestina", "pildora-solo-progestina", [Hormonal],
      "Opción diaria sin estrógeno; útil cuando AHC no es elegible.")),
    ("AHC_PILDORA", MethodMeta("AHC_PILDORA", "Píldora combinada", "pildora-combinada", [Hormonal],
      "Estrógeno + progestina; requiere criterios de elegibilidad.")),
    ("AHC_PARCHE", MethodMeta("AHC_PARCHE", "Parche combinado", "parche-combinado", [Hormonal],
      "Aplicación semanal con estrógeno + progestina.")),
    ("AHC_ANILLO", MethodMeta("AHC_ANILLO", "Anillo vaginal combinado", "anillo-combinado", [Hormonal],
      "Colocación mensual con estrógeno + progestina.")),
    ("BARRERA", MethodMeta("BARRERA", "Métodos de barrera", "barrera", [NoHormonal],
      "Preservativo externo/interno, diafragma; protección ITS (preservativo).")),
    ("EC", MethodMeta("EC", "Anticoncepción de emergencia", "anticoncepcion-de-emergencia", [Emergencia],
      "Uso puntual tras relación sin protección. No es método de uso regular."))
  ]

  /** `Object.values(METHODS_META)`. */
  function Values(): (r: seq<MethodMeta>)
    ensures |r| == |Entries|
    ensures forall i :: 0 <= i < |r| ==> r[i] == Entries[i].1
  {
    seq(|Entries|, i requires 0 <= i < |Entries| => Entries[i].1)
  }

  /** `ALL_SLUGS`. */
  function AllSlugs(): seq<string> {
    seq(|Entries|, i requires 0 <= i < |Entries| => Entries[i].1.slug)
  }

  /** The record keys, in order. */
  function RecordKeys(): seq<string> {
    seq(|Entries|, i requires 0 <= i < |Entries| => Entries[i].0)
  }

  /**
   * The slugs as a plain list. It repeats `AllSlugs()` (`AllSlugsListed` proves
   * the two equal) so that facts about the slugs need not unfold the table.
   */
  const Slugs: seq<string> := [
    "diu-cobre", "diu-hormonal", "implante-3-anos", "implante-5-anos", "inyectable-mensual",
    "inyectable-trimestral", "pildora-solo-progestina", "pildora-combinada", "parche-combinado",
    "anillo-combinado", "barrera", "anticoncepcion-de-emergencia"
  ]

  /** The record keys as a plain list, repeating `RecordKeys()` (see `KeysConsistent`) for the same reason. */
  const MetaKeys: seq<string> := [
    "DIU_CU", "DIU_LNG", "IMPLANTE_3A", "IMPLANTE_5A", "AMPD_MENSUAL", "AMPD_3M",
    "PPS", "AHC_PILDORA", "AHC_PARCHE", "AHC_ANILLO", "BARRERA", "EC"
  ]

  /** `ALL_SLUGS` has one slug per record, in record order. */
  lemma AllSlugsListed()
    ensures |AllSlugs()| == |Values()| == 12
    ensures forall i :: 0 <= i < |Values()| ==> AllSlugs()[i] == Values()[i].slug
    ensures AllSlugs() == Slugs
  {
  }

  /** Every record's `key` field equals its record key, and the record keys are those listed. */
  lemma KeysConsistent()
    ensures forall i :: 0 <= i < |Entries| ==> Entries[i].0 == Entries[i].1.key
    ensures RecordKeys() == MetaKeys
  {
  }

  lemma SlugsDistinct()
    ensures Distinct(Slugs)
  {
  }

  lemma MetaKeysDistinct()
    ensures Distinct(MetaKeys)
  {
  }

  /** `Array.prototype.find` on slugs: the first record with that slug, or nothing. */
  function FindIn(ms: seq<MethodMeta>, slug: string): (r: Option<MethodMeta>)
    ensures r.Some? ==> r.value in ms && r.value.slug == slug
    decreases |ms|
  {
    if ms == [] then None
    else if ms[0].slug == slug then Some(ms[0])
    else FindIn(ms[1..], slug)
  }

  /** `findBySlug`. */
  function FindBySlug(slug: string): (r: Option<MethodMeta>)
    ensures r.Some? ==> r.value in Values() && r.value.slug == slug
  {
    FindIn(Values(), slug)
  }

  /** `find` returns the first matching record, and nothing exactly when none matches. */
  lemma {:induction false} FindInFirst(ms: seq<MethodMeta>, slug: string)
    ensures FindIn(ms, slug).None? <==> forall i :: 0 <= i < |ms| ==> ms[i].slug != slug
    ensures FindIn(ms, slug).Some? ==>
      exists i :: 0 <= i < |ms| && FindIn(ms, slug) == Some(ms[i]) && ms[i].slug == slug
        && forall j :: 0 <= j < i ==> ms[j].slug != slug
    decreases |ms|
  {
    if ms != [] && ms[0].slug != slug {
      FindInFirst(ms[1..], slug);
      if FindIn(ms, slug).Some? {
        var i :| 0 <= i < |ms[1..]| && FindIn(ms[1..], slug) == Some(ms[1..][i]) && ms[1..][i].slug == slug
          && forall j :: 0 <= j < i ==> ms[1..][j].slug != slug;
        assert ms[i + 1] == ms[1..][i];
        assert forall j :: 0 < j < i + 1 ==> ms[j] == ms[1..][j - 1];
      }
    } else if ms != [] {
      assert FindIn(ms, slug) == Some(ms[0]);
    }
  }

  /** `findBySlug(s)` is the first record with slug `s`, and null exactly when no record has it. */
  lemma FindBySlugFirst(slug: string)
    ensures FindBySlug(slug).None? <==> slug !in AllSlugs()
    ensures FindBySlug(slug).Some? ==>
      exists i :: 0 <= i < |Values()| && FindBySlug(slug) == Some(Values()[i]) && Values()[i].slug == slug
        && forall j :: 0 <= j < i ==> Values()[j].slug != slug
  {
    FindInFirst(Values(), slug);
    AllSlugsListed();
  }

  /** Because slugs are distinct, looking up any record's slug gives back that record. */
  lemma FindBySlugRoundTrip(m: MethodMeta)
    requires m in Values()
    ensures FindBySlug(m.slug) == Some(m)
  {
    AllSlugsListed();
    SlugsDistinct();
    var k :| 0 <= k < |Values()| && Values()[k] == m;
    FindBySlugFirst(m.slug);
    var i :| 0 <= i < |Values()| && FindBySlug(m.slug) == Some(Values()[i]) && Values()[i].slug == m.slug
      && forall j :: 0 <= j < i ==> Values()[j].slug != m.slug;
    assert Slugs[i] == Slugs[k];
  }

  /** `METHODS_META[k]`: the record stored under record key `k`, if any. */
  function MetaOf(k: string): (r: Option<MethodMeta>)
    ensures r.Some? ==> r.value.key == k
  {
    KeysConsistent();
    LookupIn(Entries, k)
  }

  function LookupIn(es: seq<(string, MethodMeta)>, k: string): (r: Option<MethodMeta>)
    requires forall i :: 0 <= i < |es| ==> es[i].0 == es[i].1.key
    ensures r.Some? ==> r.value.key == k
    decreases |es|
  {
    if es == [] then None
    else if es[0].0 == k then Some(es[0].1)
    else LookupIn(es[1..], k)
  }

  /** A lookup finds the first pair with that key, and nothing exactly when no pair has it. */
  lemma {:induction false} LookupInFound(es: seq<(string, MethodMeta)>, k: string)
    requires forall i :: 0 <= i < |es| ==> es[i].0 == es[i].1.key
    ensures LookupIn(es, k).None? <==> forall i :: 0 <= i < |es| ==> es[i].0 != k
    ensures LookupIn(es, k).Some? ==> exists i :: 0 <= i < |es| && es[i] == (k, LookupIn(es, k).value)
    decreases |es|
  {
    if es != [] && es[0].0 != k {
      LookupInFound(es[1..], k);
      if LookupIn(es, k).Some? {
        var i :| 0 <= i < |es[1..]| && es[1..][i] == (k, LookupIn(es, k).value);
        assert es[i + 1] == es[1..][i];
      }
    } else if es != [] {
      assert es[0] == (k, LookupIn(es, k).value);
    }
  }

  /** `METHODS_META[k]` is a record of the table exactly when `k` is one of its record keys. */
  lemma MetaOfFound(k: string)
    ensures MetaOf(k).None? <==> k !in MetaKeys
    ensures MetaOf(k).Some? ==> MetaOf(k).value in Values()
  {
    KeysConsistent();
    LookupInFound(Entries, k);
    assert forall i :: 0 <= i < |Entries| ==> Entries[i].0 == MetaKeys[i];
    if MetaOf(k).Some? {
      var i :| 0 <= i < |Entries| && Entries[i] == (k, MetaOf(k).value);
      assert Values()[i] == MetaOf(k).value;
    }
  }

  /** The two implant record keys name no `MethodKey`. */
  lemma ImplantVariantsAreNoMethodKey()
    ensures forall k: MethodKey :: KeyName(k) != "IMPLANTE_3A" && KeyName(k) != "IMPLANTE_5A"
  {
    forall k: MethodKey ensures KeyName(k) != "IMPLANTE_3A" && KeyName(k) != "IMPLANTE_5A" {
      NotImplantVariant(k);
    }
  }

  lemma NotImplantVariant(k: MethodKey)
    ensures KeyName(k) != "IMPLANTE_3A" && KeyName(k) != "IMPLANTE_5A"
  {
  }

  lemma MetaKeysMembers()
    ensures "IMPLANTE_3A" in MetaKeys && "IMPLANTE_5A" in MetaKeys
    ensures "IMPLANTE" !in MetaKeys && "NATURALES" !in MetaKeys
  {
    assert MetaKeys[2] == "IMPLANTE_3A" && MetaKeys[3] == "IMPLANTE_5A";
  }

  /**
   * The record keys and the engine's keys differ: the two implant keys have a
   * record, while the engine keys `IMPLANTE` and `NATURALES` have none.
   */
  lemma MetaKeysVersusMethodKeys()
    ensures MetaOf("IMPLANTE_3A").Some? && MetaOf("IMPLANTE_5A").Some?
    ensures MetaOf("IMPLANTE").None? && MetaOf("NATURALES").None?
  {
    MetaKeysMembers();
    MetaOfFound("IMPLANTE_3A");
    MetaOfFound("IMPLANTE_5A");
    MetaOfFound("IMPLANTE");
    MetaOfFound("NATURALES");
  }
}
