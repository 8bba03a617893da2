/** From the list of mappings through the tool's table and files to the feeder's translations. */
module ConversionPipeline {
  import opened Text
  import opened PathList
  import opened Json
  import opened ConversionTool
  import opened FeederArray
  import opened Files
  import opened Feeder

  // ---------------------------------------------------------------- the table and the list of scaling texts

  /** What the tool starts from: the unit table, and the library's floating point. */
  datatype Setup = Setup(units: seq<UnitScale>, fl: Floats)

  function Start(u: Setup): Scales {
    Scales([], u.units)
  }

  /** The tool's lists before mapping k is entered. */
  function ScaleAt(ms: seq<Mapping>, u: Setup, k: nat): Scales
    requires k <= |ms|
  {
    match Populate(ms[..k], Start(u), u.fl) case None => Start(u) case Some((_, st)) => st
  }

  /** The conversion index that mapping k gets. */
  function IndexAt(ms: seq<Mapping>, u: Setup, k: nat): nat
    requires k < |ms|
  {
    match Conversion(ms[k], ScaleAt(ms, u, k), u.fl) case None => 0 case Some((c, _)) => c
  }

  predicate Prefix(a: seq<string>, b: seq<string>) {
    |a| <= |b| && b[..|a|] == a
  }

  /** Interned texts are found again under their index, and stay distinct. */
  lemma InternStable(list: seq<string>, text: string)
    requires Distinct(list)
    ensures var (i, grown) := Intern(list, text);
            i < |grown| <= |list| + 1 && grown[i] == text && Prefix(list, grown) && Distinct(grown)
  {
    IndexInFinds(list, text, 0);
  }

  lemma {:induction false} IndexInFinds(list: seq<string>, text: string, i: nat)
    requires i <= |list|
    ensures var r := IndexIn(list, text, i);
            (forall k :: i <= k < r ==> list[k] != text) && (r < |list| ==> list[r] == text)
    decreases |list| - i
  {
    if i < |list| && list[i] != text {
      IndexInFinds(list, text, i + 1);
    }
  }

  lemma ConversionGrows(m: Mapping, st: Scales, fl: Floats)
    requires Distinct(st.texts) && Conversion(m, st, fl).Some?
    ensures var (c, grown) := Conversion(m, st, fl).value;
            Prefix(st.texts, grown.texts) && Distinct(grown.texts) && |grown.texts| <= |st.texts| + 1
            && (c == MAXUINT16 || c < |grown.texts| + 2)
  {
    hide Distinct, Intern, EnumText, CoefficientText, UnitUsed;
    var n, s := m.north, m.south;
    if n.enumValues != "" && s.enumValues != "" {
      match (ParseStrings(n.enumValues), ParseStrings(s.enumValues)) {
        case (Some(north), Some(south)) =>
          if |north| == |south| {
            InternStable(st.texts, EnumText(north, south));
          }
        case _ =>
      }
    } else if UnitUsed(n.unit, s.unit, st, fl).Some? {
      InternStable(st.texts, CoefficientText(UnitUsed(n.unit, s.unit, st, fl).value));
    }
  }

  /** The list only grows, by one text per mapping at most, and holds none twice. */
  lemma {:induction false} ScaleGrows(ms: seq<Mapping>, u: Setup, k: nat)
    requires k <= |ms| && Populate(ms, Start(u), u.fl).Some?
    ensures Populate(ms[..k], Start(u), u.fl).Some?
            && Prefix(ScaleAt(ms, u, k).texts, Populate(ms, Start(u), u.fl).value.1.texts)
    ensures Distinct(ScaleAt(ms, u, k).texts) && |ScaleAt(ms, u, k).texts| <= k
    decreases |ms|
  {
    hide Conversion;
    if ms == [] {
      assert ms[..k] == [];
    } else if k < |ms| {
      var n := |ms| - 1;
      ScaleGrows(ms[..n], u, k);
      assert ms[..n][..k] == ms[..k];
      ScaleGrows(ms[..n], u, n);
      assert ms[..n][..n] == ms[..n];
      if Complete(ms[n]) {
        ConversionGrows(ms[n], ScaleAt(ms[..n], u, n), u.fl);
      }
    } else {
      var n := |ms| - 1;
      ScaleGrows(ms[..n], u, n);
      assert ms[..n][..n] == ms[..n] && ms[..k] == ms;
      if Complete(ms[n]) {
        ConversionGrows(ms[n], ScaleAt(ms[..n], u, n), u.fl);
      }
    }
  }

  /** What mapping k has interned is in the final list. */
  lemma {:induction false} IndexGrows(ms: seq<Mapping>, u: Setup, k: nat)
    requires k < |ms| && Complete(ms[k]) && Populate(ms, Start(u), u.fl).Some?
    ensures Conversion(ms[k], ScaleAt(ms, u, k), u.fl).Some?
    ensures Prefix(Conversion(ms[k], ScaleAt(ms, u, k), u.fl).value.1.texts, Populate(ms, Start(u), u.fl).value.1.texts)
    ensures IndexAt(ms, u, k) == MAXUINT16 || IndexAt(ms, u, k) < |ms| + 2
  {
    hide Conversion;
    ScaleGrows(ms, u, k);
    ScaleGrows(ms, u, k + 1);
    assert ms[..k + 1][..k] == ms[..k];
    ConversionGrows(ms[k], ScaleAt(ms, u, k), u.fl);
  }

  /** Mapping k has put this row into the table. */
  predicate RowOf(ms: seq<Mapping>, u: Setup, k: nat, row: Row) {
    k < |ms| && Complete(ms[k]) && row in RowsFor(ms[k], k, IndexAt(ms, u, k))
  }

  lemma RowOfPrefix(ms: seq<Mapping>, u: Setup, n: nat, k: nat, row: Row)
    requires k < n <= |ms|
    ensures RowOf(ms[..n], u, k, row) <==> RowOf(ms, u, k, row)
  {
    hide Conversion;
    assert ms[..n][..k] == ms[..k];
  }

  lemma {:induction false} TableRows(ms: seq<Mapping>, u: Setup, row: Row)
    requires Populate(ms, Start(u), u.fl).Some?
    ensures row in Populate(ms, Start(u), u.fl).value.0 <==> exists k: nat :: RowOf(ms, u, k, row)
  {
    hide Conversion;
    if ms != [] {
      var n := |ms| - 1;
      TableRows(ms[..n], u, row);
      if k: nat :| RowOf(ms, u, k, row) && k < n {
        RowOfPrefix(ms, u, n, k, row);
      }
      if k: nat :| RowOf(ms[..n], u, k, row) {
        RowOfPrefix(ms, u, n, k, row);
      }
      if Complete(ms[n]) {
        assert RowOf(ms, u, n, row) <==> row in RowsFor(ms[n], n, IndexAt(ms, u, n));
      }
    }
  }

  /** No signal name occurs twice in the complete mappings. */
  predicate DistinctNames(ms: seq<Mapping>) {
    forall k, l :: 0 <= k < |ms| && 0 <= l < |ms| && Complete(ms[k]) && Complete(ms[l]) ==>
      ms[k].north.name != ms[l].south.name
      && (k != l ==> ms[k].north.name != ms[l].north.name && ms[k].south.name != ms[l].south.name)
  }

  predicate DistinctRows(rows: seq<Row>) {
    forall i, j :: 0 <= i < j < |rows| ==> rows[i].name != rows[j].name
  }

  lemma {:induction false} TableDistinct(ms: seq<Mapping>, u: Setup)
    requires DistinctNames(ms) && Populate(ms, Start(u), u.fl).Some?
    ensures DistinctRows(Populate(ms, Start(u), u.fl).value.0) && |Populate(ms, Start(u), u.fl).value.0| <= 2 * |ms|
  {
    hide Conversion;
    if ms != [] {
      var n := |ms| - 1;
      var rows := Populate(ms[..n], Start(u), u.fl).value.0;
      assert DistinctNames(ms[..n]);
      TableDistinct(ms[..n], u);
      if Complete(ms[n]) {
        forall i | 0 <= i < |rows| ensures rows[i].name != ms[n].north.name && rows[i].name != ms[n].south.name {
          TableRows(ms[..n], u, rows[i]);
          var k: nat :| RowOf(ms[..n], u, k, rows[i]);
          assert ms[..n][k] == ms[k];
        }
      }
    }
  }

  // ---------------------------------------------------------------- the query

  /** The rows in the order of the names. */
  ghost predicate Query(rows: seq<Row>, sorted: seq<Row>) {
    multiset(sorted) == multiset(rows) && forall i, j :: 0 <= i <= j < |sorted| ==> Leq(sorted[i].name, sorted[j].name)
  }

  lemma {:induction false} CountsOne(rows: seq<Row>, row: Row)
    requires DistinctRows(rows)
    ensures multiset(rows)[row] <= 1
  {
    if rows != [] {
      var n := |rows| - 1;
      CountsOne(rows[..n], row);
      assert rows == rows[..n] + [rows[n]];
      if rows[n] == row {
        assert forall i :: 0 <= i < n ==> rows[..n][i] != row;
        assert row !in multiset(rows[..n]);
      }
    }
  }

  lemma QueryDistinct(rows: seq<Row>, sorted: seq<Row>)
    requires DistinctRows(rows) && Query(rows, sorted)
    ensures DistinctRows(sorted) && |sorted| == |rows|
    ensures forall row :: row in sorted <==> row in rows
  {
    assert |multiset(sorted)| == |multiset(rows)|;
    forall row ensures row in sorted <==> row in rows {
      assert row in sorted <==> row in multiset(sorted);
      assert row in rows <==> row in multiset(rows);
    }
    forall i, j | 0 <= i < j < |sorted| ensures sorted[i].name != sorted[j].name {
      var a, b := sorted[i], sorted[j];
      assert a in rows && b in rows;
      if a == b {
        CountsOne(rows, a);
        CountedTwice(sorted, i, j);
      }
    }
  }

  lemma CountedTwice(s: seq<Row>, i: nat, j: nat)
    requires i < j < |s| && s[i] == s[j]
    ensures multiset(s)[s[i]] >= 2
  {
    assert s == s[..j] + [s[j]] + s[j + 1..];
    assert s[i] in s[..j];
    assert multiset(s) == multiset(s[..j]) + multiset{s[j]} + multiset(s[j + 1..]);
  }

  // ---------------------------------------------------------------- names through the file

  predicate Entry(ms: seq<Mapping>, u: Setup, k: nat, e: Element) {
    k < |ms| && Complete(ms[k]) && e.mapIndex == k && e.convertIndex == IndexAt(ms, u, k)
    && (IsSignal(e, ms[k].north) || IsSignal(e, ms[k].south))
  }

  /** The element has the name, the type and the datatype of the signal. */
  predicate IsSignal(e: Element, d: ToolData) {
    e.name == d.name && e.kind == TypeIndex(d.kind) && e.datatype_ == DatatypeIndex(d.datatype_)
  }

  ghost predicate IsEntry(ms: seq<Mapping>, u: Setup, e: Element) {
    exists k: nat :: Entry(ms, u, k, e)
  }

  ghost predicate AllEntries(ms: seq<Mapping>, u: Setup, es: seq<Element>) {
    forall i :: 0 <= i < |es| ==> IsEntry(ms, u, es[i])
  }

  predicate Holds(es: seq<Element>, name: string) {
    exists i :: 0 <= i < |es| && es[i].name == name
  }

  predicate AllHeld(ms: seq<Mapping>, es: seq<Element>) {
    forall k :: 0 <= k < |ms| && Complete(ms[k]) ==> Holds(es, ms[k].north.name) && Holds(es, ms[k].south.name)
  }

  predicate NamesAscend(es: seq<Element>) {
    forall i, j :: 0 <= i < j < |es| ==> es[i].name != es[j].name && Leq(es[i].name, es[j].name)
  }

  predicate NamesDiffer(es: seq<Element>) {
    forall i, j :: 0 <= i < j < |es| ==> es[i].name != es[j].name
  }

  lemma AscendDiffer(es: seq<Element>)
    requires NamesAscend(es)
    ensures NamesDiffer(es)
  {
  }

  /** What the tool has put into the array before it links it. */
  ghost predicate Loaded(ms: seq<Mapping>, u: Setup, es: seq<Element>) {
    AllEntries(ms, u, es) && AllHeld(ms, es) && NamesAscend(es)
  }

  lemma RowBecomesEntry(ms: seq<Mapping>, u: Setup, row: Row)
    requires Populate(ms, Start(u), u.fl).Some? && |ms| <= 32767 && row in Populate(ms, Start(u), u.fl).value.0
    ensures ElementOf(row).Some? && IsEntry(ms, u, ElementOf(row).value)
  {
    hide Conversion, Populate, IndexAt;
    TableRows(ms, u, row);
    var k: nat :| RowOf(ms, u, k, row);
    IndexGrows(ms, u, k);
    assert Entry(ms, u, k, ElementOf(row).value);
  }

  lemma TableHolds(ms: seq<Mapping>, u: Setup, k: nat, sorted: seq<Row>)
    requires Populate(ms, Start(u), u.fl).Some? && k < |ms| && Complete(ms[k])
    requires forall row :: row in Populate(ms, Start(u), u.fl).value.0 ==> row in sorted
    ensures exists i :: 0 <= i < |sorted| && sorted[i].name == ms[k].north.name
    ensures exists i :: 0 <= i < |sorted| && sorted[i].name == ms[k].south.name
  {
    hide Conversion, Populate, IndexAt;
    var pair := RowsFor(ms[k], k, IndexAt(ms, u, k));
    assert RowOf(ms, u, k, pair[0]) && RowOf(ms, u, k, pair[1]);
    TableRows(ms, u, pair[0]);
    TableRows(ms, u, pair[1]);
    assert pair[0] in sorted && pair[1] in sorted;
  }

  lemma TableLoads(ms: seq<Mapping>, u: Setup, sorted: seq<Row>)
    requires |ms| <= 32767 && DistinctNames(ms) && Populate(ms, Start(u), u.fl).Some?
    requires Query(Populate(ms, Start(u), u.fl).value.0, sorted)
    ensures ElementsOf(sorted).Some? && Loaded(ms, u, ElementsOf(sorted).value)
    ensures |ElementsOf(sorted).value| <= 2 * |ms|
  {
    hide Populate, Leq, Complete, DistinctNames, IsEntry;
    TableDistinct(ms, u);
    QueryDistinct(Populate(ms, Start(u), u.fl).value.0, sorted);
    forall i | 0 <= i < |sorted| ensures ElementOf(sorted[i]).Some? && IsEntry(ms, u, ElementOf(sorted[i]).value) {
      RowBecomesEntry(ms, u, sorted[i]);
    }
    ElementsOfAll(sorted);
    var es := ElementsOf(sorted).value;
    forall i | 0 <= i < |es| ensures es[i].name == sorted[i].name {
      ElementKeepsName(sorted[i]);
    }
    hide ElementsOf, ElementOf;
    forall k | 0 <= k < |ms| && Complete(ms[k]) ensures Holds(es, ms[k].north.name) && Holds(es, ms[k].south.name) {
      TableHolds(ms, u, k, sorted);
      var i :| 0 <= i < |sorted| && sorted[i].name == ms[k].north.name;
      var j :| 0 <= j < |sorted| && sorted[j].name == ms[k].south.name;
      assert es[i].name == ms[k].north.name && es[j].name == ms[k].south.name;
    }
  }

  lemma ElementKeepsName(row: Row)
    requires ElementOf(row).Some?
    ensures ElementOf(row).value.name == row.name
  {
  }

  lemma EntryAt(ms: seq<Mapping>, u: Setup, es: seq<Element>, i: nat) returns (k: nat)
    requires AllEntries(ms, u, es) && i < |es|
    ensures Entry(ms, u, k, es[i])
  {
    hide Entry;
    assert IsEntry(ms, u, es[i]);
    k :| Entry(ms, u, k, es[i]);
  }

  lemma HeldAt(ms: seq<Mapping>, es: seq<Element>, k: nat, name: string) returns (i: nat)
    requires AllHeld(ms, es) && k < |ms| && Complete(ms[k])
    requires name == ms[k].north.name || name == ms[k].south.name
    ensures i < |es| && es[i].name == name
  {
    i :| i < |es| && es[i].name == name;
  }

  /** Elements with a common name come from one mapping. */
  lemma SameMapping(ms: seq<Mapping>, k: nat, l: nat, name: string)
    requires DistinctNames(ms) && k < |ms| && l < |ms| && Complete(ms[k]) && Complete(ms[l])
    requires name == ms[k].north.name || name == ms[k].south.name
    requires name == ms[l].north.name || name == ms[l].south.name
    ensures k == l && ms[k].north.name != ms[k].south.name
  {
  }

  lemma PartnerExists(ms: seq<Mapping>, u: Setup, es: seq<Element>, i: nat)
    requires DistinctNames(ms) && AllEntries(ms, u, es) && AllHeld(ms, es) && i < |es|
    ensures HasPartner(es, i)
  {
    var k := EntryAt(ms, u, es, i);
    hide AllHeld, AllEntries, DistinctNames, IndexAt;
    var other := if es[i].name == ms[k].north.name then ms[k].south.name else ms[k].north.name;
    var j := HeldAt(ms, es, k, other);
    var l := EntryAt(ms, u, es, j);
    SameMapping(ms, k, l, other);
    assert es[j].mapIndex == es[i].mapIndex;
  }

  lemma NotThree(ms: seq<Mapping>, u: Setup, es: seq<Element>, i: nat, j: nat, l: nat)
    requires AllEntries(ms, u, es) && NamesDiffer(es) && i < j < l < |es|
    ensures !(es[i].mapIndex == es[j].mapIndex && es[j].mapIndex == es[l].mapIndex)
  {
    var a := EntryAt(ms, u, es, i);
    var b := EntryAt(ms, u, es, j);
    var c := EntryAt(ms, u, es, l);
    hide AllEntries, IndexAt;
  }

  lemma LoadedLinks(ms: seq<Mapping>, u: Setup, es: seq<Element>)
    requires DistinctNames(ms) && Loaded(ms, u, es) && |es| <= 0xFFFF
    ensures AllPartnered(es) && Linked(Reordered(es))
  {
    AscendDiffer(es);
    hide NamesAscend, NamesDiffer, AllEntries, AllHeld, HasPartner, Linked, Reordered, AllPartnered;
    forall i | 0 <= i < |es| ensures HasPartner(es, i) {
      PartnerExists(ms, u, es, i);
    }
    forall i, j, l | 0 <= i < j < l < |es|
      ensures !(es[i].mapIndex == es[j].mapIndex && es[j].mapIndex == es[l].mapIndex)
    {
      NotThree(ms, u, es, i, j, l);
    }
    PartneredReordered(es);
    LinkedIff(es);
  }

  /** The feeder's search takes name `a` to name `b` with conversion index c. */
  predicate Mapped(fmap: seq<Element>, a: string, b: string, c: nat) {
    var i := MatchIndex(fmap, a);
    i >= 0 && fmap[i].mapIndex < |fmap| && fmap[fmap[i].mapIndex].name == b && fmap[i].convertIndex == c
  }

  lemma NamesSorted(fmap: seq<Element>)
    requires NamesAscend(fmap)
    ensures Sorted(Names(fmap)) && Distinct(Names(fmap))
  {
    hide Leq;
    forall i, j | 0 <= i <= j < |fmap| ensures Leq(Names(fmap)[i], Names(fmap)[j]) {
      LeqRefl(fmap[i].name);
    }
  }

  lemma NameFound(fmap: seq<Element>, i: nat)
    requires NamesAscend(fmap) && i < |fmap|
    ensures MatchIndex(fmap, fmap[i].name) == i
  {
    NamesSorted(fmap);
    hide NamesAscend, Sorted;
    SearchFindsIndex(Names(fmap), i);
  }

  lemma ReorderedAscends(es: seq<Element>)
    requires NamesAscend(es)
    ensures NamesAscend(Reordered(es))
  {
    hide Leq, Partner;
    var r := Reordered(es);
    forall i, j | 0 <= i < j < |r| ensures r[i].name != r[j].name && Leq(r[i].name, r[j].name) {
      assert r[i].name == es[i].name && r[j].name == es[j].name;
    }
  }

  lemma ReorderedAt(es: seq<Element>, i: nat)
    requires AllPartnered(es) && i < |es|
    ensures Reordered(es)[i] == es[i].(mapIndex := Partner(es, i))
  {
  }

  lemma PartnerAt(es: seq<Element>, i: nat)
    requires i < |es| <= 0xFFFF && AllPartnered(es)
    ensures var p := Partner(es, i); p < |es| && p != i && es[p].mapIndex == es[i].mapIndex
  {
    PartnerFinds(es, i, es[i].mapIndex, 0);
  }

  lemma LoadedMaps(ms: seq<Mapping>, u: Setup, es: seq<Element>, a: string, b: string, k: nat)
    requires DistinctNames(ms) && Loaded(ms, u, es) && |es| <= 0xFFFF
    requires k < |ms| && Complete(ms[k])
    requires (a, b) == (ms[k].north.name, ms[k].south.name) || (a, b) == (ms[k].south.name, ms[k].north.name)
    ensures Mapped(Reordered(es), a, b, IndexAt(ms, u, k))
  {
    hide IndexAt, DistinctNames, AllEntries, AllHeld, NamesAscend, MatchIndex, Reordered, Partner, AllPartnered;
    LoadedLinks(ms, u, es);
    ReorderedAscends(es);
    AscendDiffer(es);
    var i := HeldAt(ms, es, k, a);
    var l := EntryAt(ms, u, es, i);
    SameMapping(ms, k, l, a);
    NameFound(Reordered(es), i);
    PartnerAt(es, i);
    ReorderedAt(es, i);
    var p := Partner(es, i);
    ReorderedAt(es, p);
    var m := EntryAt(ms, u, es, p);
    assert es[p].name != es[i].name;
  }

  /** Nothing is left over in a file that held `was` before n bytes were written over it. */
  predicate NoLeftover(was: string, n: nat) {
    |was| < n + 3 || N(was[n + 2]) % 256 == 0
  }

  /** The array that the feeder reads after the tool has written it. */
  function FeederMap(es: seq<Element>, was: string): seq<Element> {
    ReadArray(Overwritten(was, 0, ArrayBytes(Reordered(es))))
  }

  predicate NamesFit(ms: seq<Mapping>) {
    forall k :: 0 <= k < |ms| && Complete(ms[k]) ==> |ms[k].north.name| <= 255 && |ms[k].south.name| <= 255
  }

  lemma ArrayArrives(ms: seq<Mapping>, u: Setup, es: seq<Element>, was: string)
    requires NamesFit(ms) && Loaded(ms, u, es) && NoLeftover(was, |ArrayBytes(Reordered(es))|)
    ensures FeederMap(es, was) == Reordered(es)
  {
    var r := Reordered(es);
    hide AllHeld, NamesAscend, AllEntries, ArrayBytes, Overwritten, ReadArray, IndexAt, Partner;
    forall i | 0 <= i < |r| ensures GoodName(r[i]) {
      var k := EntryAt(ms, u, es, i);
      assert r[i].name == es[i].name;
    }
    hide Reordered, GoodName, NamesFit;
    FileRoundTripIff(r, was);
  }

  lemma LoadedSignal(ms: seq<Mapping>, u: Setup, es: seq<Element>, a: ToolData, k: nat)
    requires DistinctNames(ms) && Loaded(ms, u, es) && |es| <= 0xFFFF
    requires k < |ms| && Complete(ms[k]) && (a == ms[k].north || a == ms[k].south)
    ensures var i := MatchIndex(Reordered(es), a.name); i >= 0 && IsSignal(Reordered(es)[i], a)
  {
    hide IndexAt, AllEntries, AllHeld, NamesAscend, MatchIndex, Reordered, Partner, AllPartnered, TypeIndex;
    hide DatatypeIndex;
    LoadedLinks(ms, u, es);
    ReorderedAscends(es);
    var i := HeldAt(ms, es, k, a.name);
    var l := EntryAt(ms, u, es, i);
    SameMapping(ms, k, l, a.name);
    NameFound(Reordered(es), i);
    ReorderedAt(es, i);
  }

  /** Each signal of a complete mapping arrives with its type and its datatype. */
  lemma SignalsArrive(ms: seq<Mapping>, u: Setup, sorted: seq<Row>, was: string, k: nat)
    requires |ms| <= 32767 && DistinctNames(ms) && NamesFit(ms) && Populate(ms, Start(u), u.fl).Some?
    requires Query(Populate(ms, Start(u), u.fl).value.0, sorted)
    requires ElementsOf(sorted).Some? ==> NoLeftover(was, |ArrayBytes(Reordered(ElementsOf(sorted).value))|)
    requires k < |ms| && Complete(ms[k])
    ensures ElementsOf(sorted).Some?
    ensures var fmap := FeederMap(ElementsOf(sorted).value, was);
            var i, j := MatchIndex(fmap, ms[k].north.name), MatchIndex(fmap, ms[k].south.name);
            i >= 0 && IsSignal(fmap[i], ms[k].north) && j >= 0 && IsSignal(fmap[j], ms[k].south)
  {
    hide Populate, ElementsOf, Query, IndexAt, NamesFit, Loaded, ArrayBytes, FeederMap, Reordered, MatchIndex, IsSignal;
    hide DistinctNames;
    TableLoads(ms, u, sorted);
    var es := ElementsOf(sorted).value;
    ArrayArrives(ms, u, es, was);
    LoadedSignal(ms, u, es, ms[k].north, k);
    LoadedSignal(ms, u, es, ms[k].south, k);
  }

  /** Whatever order the database gives equal names, whatever the mappings convert: every name of a complete mapping
      translates to its partner, both ways, under one conversion index; and no other name is found. */
  lemma NamesTranslate(ms: seq<Mapping>, u: Setup, sorted: seq<Row>, was: string)
    requires |ms| <= 32767 && DistinctNames(ms) && NamesFit(ms) && Populate(ms, Start(u), u.fl).Some?
    requires Query(Populate(ms, Start(u), u.fl).value.0, sorted)
    requires ElementsOf(sorted).Some? ==> NoLeftover(was, |ArrayBytes(Reordered(ElementsOf(sorted).value))|)
    ensures ElementsOf(sorted).Some?
    ensures var fmap := FeederMap(ElementsOf(sorted).value, was);
            && Linked(fmap)
            && (forall k :: 0 <= k < |ms| && Complete(ms[k]) ==>
                  Mapped(fmap, ms[k].north.name, ms[k].south.name, IndexAt(ms, u, k))
                  && Mapped(fmap, ms[k].south.name, ms[k].north.name, IndexAt(ms, u, k)))
            && (forall name :: MatchIndex(fmap, name) < 0
                  <==> forall k :: 0 <= k < |ms| && Complete(ms[k]) ==>
                      name != ms[k].north.name && name != ms[k].south.name)
  {
    hide Populate, ElementsOf, Query, IndexAt, NamesFit, Loaded, ArrayBytes, FeederMap, Reordered, Mapped, Linked,
        MatchIndex;
    hide DistinctNames;
    TableLoads(ms, u, sorted);
    var es := ElementsOf(sorted).value;
    ArrayArrives(ms, u, es, was);
    LoadedLinks(ms, u, es);
    var fmap := FeederMap(es, was);
    forall k | 0 <= k < |ms| && Complete(ms[k])
      ensures Mapped(fmap, ms[k].north.name, ms[k].south.name, IndexAt(ms, u, k))
      ensures Mapped(fmap, ms[k].south.name, ms[k].north.name, IndexAt(ms, u, k))
    {
      LoadedMaps(ms, u, es, ms[k].north.name, ms[k].south.name, k);
      LoadedMaps(ms, u, es, ms[k].south.name, ms[k].north.name, k);
    }
    forall name | MatchIndex(fmap, name) >= 0
      ensures exists k :: 0 <= k < |ms| && Complete(ms[k]) && (name == ms[k].north.name || name == ms[k].south.name)
    {
      MatchIsListed(ms, u, es, name);
    }
    forall name, k | 0 <= k < |ms| && Complete(ms[k]) && (name == ms[k].north.name || name == ms[k].south.name)
      ensures MatchIndex(fmap, name) >= 0
    {
      MappedMatches(fmap, ms[k].north.name, ms[k].south.name, IndexAt(ms, u, k));
      MappedMatches(fmap, ms[k].south.name, ms[k].north.name, IndexAt(ms, u, k));
    }
  }

  lemma MappedMatches(fmap: seq<Element>, a: string, b: string, c: nat)
    requires Mapped(fmap, a, b, c)
    ensures MatchIndex(fmap, a) >= 0
  {
  }

  lemma MatchIsListed(ms: seq<Mapping>, u: Setup, es: seq<Element>, name: string)
    requires Loaded(ms, u, es) && MatchIndex(Reordered(es), name) >= 0
    ensures exists k :: 0 <= k < |ms| && Complete(ms[k]) && (name == ms[k].north.name || name == ms[k].south.name)
  {
    hide AllHeld, NamesAscend, AllEntries, IndexAt, Partner;
    var i := MatchIndex(Reordered(es), name);
    assert Reordered(es)[i].name == name && es[i].name == name;
    var k := EntryAt(ms, u, es, i);
  }
}
