/**
 * The method comparator: the selection of up to three method keys, toggled one
 * key at a time, the columns assembled from the selection through the metadata
 * and detail tables, and the text of the table cells.
 */
module Compare {
  import opened Wrappers
  import opened MecTypes
  import opened JsCoerce
  import opened MethodsMeta

  // ---------------------------------------------------------------------------
  // Selection.
  // ---------------------------------------------------------------------------

  /** The most keys the comparator holds at once. */
  const MaxSelected := 3

  /** `prev.filter(k => k !== key)`. */
  function Without(s: seq<string>, key: string): seq<string>
    decreases |s|
  {
    if s == [] then []
    else if s[0] == key then Without(s[1..], key)
    else [s[0]] + Without(s[1..], key)
  }

  /** The update `toggle` applies: remove a present key, ignore a new one when full, else append. */
  function ToggleSel(prev: seq<string>, key: string): (r: seq<string>)
    ensures forall k :: k != key ==> (k in r <==> k in prev)
    ensures key in r <==> key !in prev && |prev| < MaxSelected
    ensures key !in prev && |prev| >= MaxSelected ==> r == prev
    ensures key !in prev && |prev| < MaxSelected ==> r == prev + [key]
  {
    WithoutMembers(prev, key);
    if key in prev then Without(prev, key)
    else if |prev| >= MaxSelected then prev
    else prev + [key]
  }

  /** What every reachable selection satisfies: at most three keys, none twice. */
  predicate ValidSelection(s: seq<string>) {
    |s| <= MaxSelected && Distinct(s)
  }

  /** Filtering out a key keeps exactly the other keys and never grows the list. */
  lemma {:induction false} WithoutMembers(s: seq<string>, key: string)
    ensures forall x :: x in Without(s, key) <==> x in s && x != key
    ensures |Without(s, key)| <= |s|
    ensures Distinct(s) ==> Distinct(Without(s, key))
    decreases |s|
  {
    if s != [] {
      WithoutMembers(s[1..], key);
      assert forall x :: x in s <==> x == s[0] || x in s[1..];
      if Distinct(s) {
        assert s[0] !in s[1..];
        var r := Without(s, key);
        if s[0] != key {
          assert r == [s[0]] + Without(s[1..], key);
          forall i, j | 0 <= i < j < |r| ensures r[i] != r[j] {
            if i == 0 {
              assert r[j] in Without(s[1..], key);
            } else {
              assert r[i] == Without(s[1..], key)[i - 1] && r[j] == Without(s[1..], key)[j - 1];
            }
          }
        }
      }
    }
  }

  /** Removing a key that occurs once, at index `i`, keeps the others in their order. */
  lemma {:induction false} WithoutAt(s: seq<string>, key: string, i: nat)
    requires Distinct(s) && i < |s| && s[i] == key
    ensures Without(s, key) == s[..i] + s[i + 1..]
    decreases |s|
  {
    if i == 0 {
      WithoutAbsent(s[1..], key);
    } else {
      WithoutAt(s[1..], key, i - 1);
      assert s[1..][..i - 1] + s[1..][i..] == s[1..i] + s[i + 1..];
      assert s[..i] == [s[0]] + s[1..i];
    }
  }

  /** Filtering out an absent key changes nothing. */
  lemma {:induction false} WithoutAbsent(s: seq<string>, key: string)
    requires key !in s
    ensures Without(s, key) == s
    decreases |s|
  {
    if s != [] {
      WithoutAbsent(s[1..], key);
      assert s == [s[0]] + s[1..];
    }
  }

  /** Toggling a selected key removes it and keeps the others in their order. */
  lemma ToggleRemoves(prev: seq<string>, key: string, i: nat)
    requires Distinct(prev) && i < |prev| && prev[i] == key
    ensures ToggleSel(prev, key) == prev[..i] + prev[i + 1..]
  {
    WithoutAt(prev, key, i);
  }

  /** Toggling keeps a selection valid. */
  lemma TogglePreservesValid(prev: seq<string>, key: string)
    requires ValidSelection(prev)
    ensures ValidSelection(ToggleSel(prev, key))
  {
    WithoutMembers(prev, key);
  }

  /** Toggling a new key into a selection with room, then toggling it again, restores the selection. */
  lemma ToggleTwiceRestores(prev: seq<string>, key: string)
    requires key !in prev && |prev| < MaxSelected
    ensures ToggleSel(ToggleSel(prev, key), key) == prev
  {
    var s := prev + [key];
    assert key in s;
    assert forall j :: 0 <= j < |prev| ==> s[j] != key;
    WithoutAbsent(prev, key);
    WithoutSuffix(prev, key);
  }

  /** Filtering a key out of `s + [key]` gives `s` when `key` is not in `s`. */
  lemma {:induction false} WithoutSuffix(s: seq<string>, key: string)
    requires key !in s
    ensures Without(s + [key], key) == s
    decreases |s|
  {
    if s == [] {
      assert Without([key], key) == Without([], key);
    } else {
      WithoutSuffix(s[1..], key);
      assert (s + [key])[1..] == s[1..] + [key];
      assert s == [s[0]] + s[1..];
    }
  }

  /** The selection after a sequence of clicks on the given keys, starting empty. */
  function ToggleAll(keys: seq<string>): seq<string>
    decreases |keys|
  {
    if keys == [] then [] else ToggleSel(ToggleAll(keys[..|keys| - 1]), keys[|keys| - 1])
  }

  /** Every selection reachable from the empty list has at most three keys and no duplicates. */
  lemma {:induction false} ReachableValid(keys: seq<string>)
    ensures ValidSelection(ToggleAll(keys))
    decreases |keys|
  {
    if keys != [] {
      ReachableValid(keys[..|keys| - 1]);
      TogglePreservesValid(ToggleAll(keys[..|keys| - 1]), keys[|keys| - 1]);
    }
  }

  /** The page's selection state. */
  class ComparePage {
    var selected: seq<string>

    ghost predicate Valid()
      reads this
    {
      ValidSelection(selected)
    }

    /** The selection starts empty. */
    constructor ()
      ensures selected == [] && Valid()
    {
      selected := [];
    }

    /** `toggle(key)`: replace the selection by its toggled form; a valid selection stays valid. */
    method Toggle(key: string)
      modifies this
      ensures selected == ToggleSel(old(selected), key)
      ensures old(Valid()) ==> Valid()
    {
      if Valid() {
        TogglePreservesValid(selected, key);
      }
      selected := ToggleSel(selected, key);
    }
  }

  // ---------------------------------------------------------------------------
  // Columns.
  // ---------------------------------------------------------------------------

  /** The parts of a method's detail file the comparator reads; other contents are not modelled. */
  datatype Quick = Quick(tipo: Option<string>, duracion: Option<string>, hormonas: Option<string>, protegeIts: Option<string>)
  datatype Efficacy = Efficacy(typicalPct: Option<int>, perfectPct: Option<int>)
  datatype Detail = Detail(
    quick: Option<Quick>,
    efficacy: Option<Efficacy>,
    emergency: bool,
    advantages: Option<seq<string>>,
    disadvantages: Option<seq<string>>)

  /** The detail table has one entry per engine key, and no other. */
  predicate DetailDomain(details: map<string, Detail>) {
    details.Keys == set k | k in AllKeys :: KeyName(k)
  }

  datatype Column = Column(key: string, meta: MethodMeta, data: Detail)

  /** A key yields a column when both the metadata and the detail table have it. */
  predicate HasColumn(k: string, details: map<string, Detail>) {
    MetaOf(k).Some? && k in details
  }

  /** The column of one selected key: one entry when it has both, none otherwise. */
  function ColumnOf(k: string, details: map<string, Detail>): (r: seq<Column>)
    ensures |r| <= 1
  {
    if HasColumn(k, details) then [Column(k, MetaOf(k).value, details[k])] else []
  }

  /** `cols`: the selection mapped to its table entries, keeping those that have both. */
  function Cols(selected: seq<string>, details: map<string, Detail>): seq<Column>
    decreases |selected|
  {
    if selected == [] then []
    else Cols(selected[..|selected| - 1], details) + ColumnOf(selected[|selected| - 1], details)
  }

  /** Columns of a concatenation are the concatenated columns: the filter keeps selection order. */
  lemma {:induction false} ColsConcat(a: seq<string>, b: seq<string>, details: map<string, Detail>)
    ensures Cols(a + b, details) == Cols(a, details) + Cols(b, details)
    decreases |b|
  {
    if b == [] {
      assert a + b == a;
    } else {
      var b' := b[..|b| - 1];
      var last := ColumnOf(b[|b| - 1], details);
      ColsConcat(a, b', details);
      assert (a + b)[..|a + b| - 1] == a + b';
      assert (a + b)[|a + b| - 1] == b[|b| - 1];
      calc {
        Cols(a + b, details);
        Cols(a + b', details) + last;
        (Cols(a, details) + Cols(b', details)) + last;
        Cols(a, details) + (Cols(b', details) + last);
      }
    }
  }

  /** A key has a column exactly when it is selected and has both entries; each column is that key's. */
  lemma {:induction false} ColsMembers(selected: seq<string>, details: map<string, Detail>)
    ensures |Cols(selected, details)| <= |selected|
    ensures forall c :: c in Cols(selected, details) ==>
      c.key in selected && HasColumn(c.key, details) && Some(c.meta) == MetaOf(c.key) && c.data == details[c.key]
    ensures forall k :: k in selected && HasColumn(k, details) ==> exists c :: c in Cols(selected, details) && c.key == k
    decreases |selected|
  {
    if selected != [] {
      var init := selected[..|selected| - 1];
      ColsMembers(init, details);
      assert forall k :: k in selected <==> k in init || k == selected[|selected| - 1];
    }
  }

  /** The two implant records have metadata but no detail entry, so they never become columns. */
  lemma ImplantVariantsHaveNoColumn(selected: seq<string>, details: map<string, Detail>)
    requires DetailDomain(details)
    ensures forall c :: c in Cols(selected, details) ==> c.key != "IMPLANTE_3A" && c.key != "IMPLANTE_5A"
  {
    ColsMembers(selected, details);
    ImplantVariantsAreNoMethodKey();
  }

  /** The comparison table is shown only from two columns on. */
  predicate ShowTable(cols: seq<Column>) {
    |cols| >= 2
  }

  /**
   * Selecting both implant variants and one other method shows no table,
   * although three keys are selected.
   */
  lemma ImplantsAloneShowNoTable(details: map<string, Detail>)
    requires DetailDomain(details)
    ensures ValidSelection(["IMPLANTE_3A", "IMPLANTE_5A", "DIU_CU"])
    ensures !ShowTable(Cols(["IMPLANTE_3A", "IMPLANTE_5A", "DIU_CU"], details))
  {
    var s := ["IMPLANTE_3A", "IMPLANTE_5A", "DIU_CU"];
    ImplantVariantsAreNoMethodKey();
    assert "IMPLANTE_3A" !in details && "IMPLANTE_5A" !in details;
    assert ColumnOf("IMPLANTE_3A", details) == [] && ColumnOf("IMPLANTE_5A", details) == [];
    assert s[..2] == ["IMPLANTE_3A", "IMPLANTE_5A"] && s[..2][..1] == ["IMPLANTE_3A"];
    assert Cols(["IMPLANTE_3A"], details) == [];
    assert Cols(s[..2], details) == [];
    assert |Cols(s, details)| <= 1;
  }

  // ---------------------------------------------------------------------------
  // Cells.
  // ---------------------------------------------------------------------------

  /** The row component shows `v || "—"`. */
  function RowCell(v: string): (r: string)
    ensures r != ""
    ensures v != "" ==> r == v
  {
    if v == "" then "—" else v
  }

  datatype QuickField = Tipo | Duracion | Hormonas | ProtegeIts

  /** `c.data.quick?.<field>`. */
  function QuickValue(d: Detail, f: QuickField): Option<string> {
    if d.quick.None? then None
    else
      match f
      case Tipo => d.quick.value.tipo
      case Duracion => d.quick.value.duracion
      case Hormonas => d.quick.value.hormonas
      case ProtegeIts => d.quick.value.protegeIts
  }

  /** The default a missing quick field shows: "No" for STI protection, "—" otherwise. */
  function QuickDefault(f: QuickField): string {
    if f == ProtegeIts then "No" else "—"
  }

  /** A quick-facts cell: the field, or its default when missing, through the row component. */
  function QuickCell(d: Detail, f: QuickField): (r: string)
    ensures r != ""
  {
    RowCell(QuickValue(d, f).GetOr(QuickDefault(f)))
  }

  /** A failure-rate cell: the number followed by "%", or "—" when missing. */
  function RateCell(pct: Option<int>): (r: string)
    ensures pct.None? <==> r == "—"
  {
    RowCell(if pct.Some? then DecimalString(pct.value) + "%" else "—")
  }

  /** `c.data.efficacy?.typical_failure_rate_pct` and its perfect-use counterpart. */
  function RatePct(d: Detail, typical: bool): (r: Option<int>)
    ensures d.efficacy.None? ==> r.None?
  {
    if d.efficacy.None? then None
    else if typical then d.efficacy.value.typicalPct
    else d.efficacy.value.perfectPct
  }

  /** The emergency-use cell. */
  function EmergencyCell(d: Detail): (r: string)
    ensures r != "" && (r == "No" <==> !d.emergency)
  {
    RowCell(if d.emergency then "Sí (ver ficha)" else "No")
  }

  /** `xs.join(sep)`. */
  function Join(xs: seq<string>, sep: string): string
    decreases |xs|
  {
    if xs == [] then ""
    else if |xs| == 1 then xs[0]
    else Join(xs[..|xs| - 1], sep) + sep + xs[|xs| - 1]
  }

  /** `xs.slice(0, 3)`. */
  function TakeThree(xs: seq<string>): (r: seq<string>)
    ensures |r| <= 3
  {
    if |xs| <= 3 then xs else xs[..3]
  }

  /** An advantages or disadvantages cell: the first three items joined by " · ", or "—". */
  function ListCell(items: Option<seq<string>>): (r: string)
    ensures r != ""
  {
    RowCell(Join(TakeThree(items.GetOr([])), " · "))
  }

  /** A quick cell shows a non-empty field as is, and the default when the field is missing. */
  lemma QuickCellShows(d: Detail, f: QuickField)
    ensures QuickValue(d, f).Some? && QuickValue(d, f).value != "" ==> QuickCell(d, f) == QuickValue(d, f).value
    ensures QuickValue(d, f).None? ==> QuickCell(d, f) == QuickDefault(f)
    ensures d.quick.None? ==> QuickCell(d, f) == QuickDefault(f)
  {
  }

  /** A rate cell is the decimal form of the rate plus "%", and reading it back gives the rate. */
  lemma RateCellRoundTrip(n: int)
    ensures |RateCell(Some(n))| >= 2 && RateCell(Some(n))[|RateCell(Some(n))| - 1] == '%'
    ensures ParseNumber(RateCell(Some(n))[..|RateCell(Some(n))| - 1]) == Int(n)
  {
    var s := DecimalString(n) + "%";
    assert RateCell(Some(n)) == s;
    assert s[..|s| - 1] == DecimalString(n);
    ParseNumberDecimalString(n);
  }

  /** Joining two or three items puts the separator between them. */
  lemma JoinSmall(a: string, b: string, c: string, sep: string)
    ensures Join([a], sep) == a
    ensures Join([a, b], sep) == a + sep + b
    ensures Join([a, b, c], sep) == a + sep + b + sep + c
  {
    assert [a, b][..1] == [a];
    assert [a, b, c][..2] == [a, b];
  }

  /** A list cell reads only the first three items, and shows "—" for a missing or empty list. */
  lemma ListCellFirstThree(items: seq<string>, more: seq<string>)
    ensures ListCell(None) == "—" && ListCell(Some([])) == "—"
    ensures |items| >= 3 ==> ListCell(Some(items + more)) == ListCell(Some(items[..3]))
  {
    if |items| >= 3 {
      assert (items + more)[..3] == items[..3];
      assert TakeThree(items + more) == items[..3];
      assert TakeThree(items[..3]) == items[..3];
    }
  }

  /** A non-empty single item is shown as is; two items are shown with the separator between them. */
  lemma ListCellShows(a: string, b: string)
    ensures a != "" ==> ListCell(Some([a])) == a
    ensures ListCell(Some([a, b])) == a + " · " + b
  {
    JoinSmall(a, b, "", " · ");
  }
}
