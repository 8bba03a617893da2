/** Values end to end: through the tool's scaling texts, both files and the feeder's conversions. */
module ConversionValues {
  import opened Text
  import opened Json
  import opened ConversionTool
  import opened FeederArray
  import opened Files
  import opened ScalingFile
  import opened ScalingRoundTrip
  import opened Feeder
  import opened ConversionPipeline
  import opened ConversionUnits

  // ---------------------------------------------------------------- what the feeder finds

  /** A mapping between enumerations of the same size. */
  predicate Enumerated(m: Mapping, north: seq<string>, south: seq<string>) {
    && |north| == |south|
    && north != []
    && m.north.enumValues != "" && m.south.enumValues != ""
    && !(m.south.datatype_ == m.north.datatype_ && m.north.datatype_ == "boolean")
    && ParseStrings(m.north.enumValues) == Some(north)
    && ParseStrings(m.south.enumValues) == Some(south)
  }

  /** The tool's offset of two, the boolean entry in front and the feeder's offset of one agree: the feeder finds the
      interned map of the two lists under the conversion index. */
  lemma EnumIndexAgrees(ms: seq<Mapping>, u: Setup, k: nat, north: seq<string>, south: seq<string>)
    requires Populate(ms, Start(u), u.fl).Some? && |ms| <= 32767
    requires k < |ms| && Complete(ms[k]) && Enumerated(ms[k], north, south)
    ensures var scaling, c := [BOOLEAN] + Populate(ms, Start(u), u.fl).value.1.texts, IndexAt(ms, u, k);
            2 <= c <= |scaling| && c <= MAXUINT16 && scaling[c - 1] == EnumText(north, south)
  {
    hide ParseStrings, EnumText, BOOLEAN, Populate, ScaleAt;
    IndexGrows(ms, u, k);
    ScaleGrows(ms, u, k);
    InternStable(ScaleAt(ms, u, k).texts, EnumText(north, south));
    ScaleGrowsWhole(ms, u);
    var (c, grown) := Conversion(ms[k], ScaleAt(ms, u, k), u.fl).value;
    assert grown.texts[c - 2] == EnumText(north, south);
  }

  lemma ScaleGrowsWhole(ms: seq<Mapping>, u: Setup)
    requires Populate(ms, Start(u), u.fl).Some?
    ensures |Populate(ms, Start(u), u.fl).value.1.texts| <= |ms|
  {
    ScaleGrows(ms, u, |ms|);
    assert ms[..|ms|] == ms;
  }

  /** The same for the coefficients of two units. */
  lemma UnitIndexAgrees(ms: seq<Mapping>, u: Setup, k: nat)
    requires Populate(ms, Start(u), u.fl).Some? && |ms| <= 32767
    requires k < |ms| && Complete(ms[k]) && Scaled(ms[k]) && UnitAt(ms, u, k).Some?
    ensures var scaling, c := [BOOLEAN] + Populate(ms, Start(u), u.fl).value.1.texts, IndexAt(ms, u, k);
            2 <= c <= |scaling| && c <= MAXUINT16 && scaling[c - 1] == CoefficientText(UnitAt(ms, u, k).value)
  {
    hide CoefficientText, BOOLEAN, Populate, ScaleAt, UnitUsed;
    IndexGrows(ms, u, k);
    ScaleGrows(ms, u, k);
    InternStable(ScaleAt(ms, u, k).texts, CoefficientText(UnitAt(ms, u, k).value));
    ScaleGrowsWhole(ms, u);
    var (c, grown) := Conversion(ms[k], ScaleAt(ms, u, k), u.fl).value;
    assert grown.texts[c - 2] == CoefficientText(UnitAt(ms, u, k).value);
  }

  lemma ValueFollows(north2South: bool, inData: DomainData, fmap: seq<Element>, scaling: seq<string>, fl: Floats,
                     out: Option<DomainData>, b: string, c: nat, j: Json)
    requires DataConverted(north2South, inData, fmap, scaling, fl, out)
    requires Mapped(fmap, inData.name, b, c)
    requires 1 <= c <= |scaling| && Parse(scaling[c - 1]) == Some(j) && InRange(j, fl)
    ensures var value := if out == None then None else Some(out.value.value);
            && (j.Obj? ==> EnumConverted(MapOf(j.members), north2South, inData.value, value))
            && (j.Arr? ==> value == Linear(j.items, north2South, inData.value, fl))
    ensures out.Some? ==> out.value.name == b
  {
    hide EnumConverted, MapOf, Parse, MatchIndex, Linear, InRange;
  }

  predicate AllRaw(list: seq<string>) {
    forall i :: 0 <= i < |list| ==> RawText(list[i])
  }

  lemma PlainTextRead(north: seq<string>, south: seq<string>)
    requires |north| == |south| && AllRaw(north) && AllRaw(south)
    ensures Parse(EnumText(north, south)) == Some(Obj(EnumMembers(north, south)))
  {
    EnumTextRead(north, south);
  }

  lemma EnumInRange(north: seq<string>, south: seq<string>, fl: Floats)
    requires |north| == |south|
    ensures InRange(Obj(EnumMembers(north, south)), fl)
  {
  }

  /** Two mapped signals whose scaling text is the map of two lists without repetitions. */
  lemma MappedTranslates(a: string, b: string, c: nat, north: seq<string>, south: seq<string>, i: nat,
                         fmap: seq<Element>, scaling: seq<string>, fl: Floats, out: Option<DomainData>)
    requires Mapped(fmap, a, b, c) && Mapped(fmap, b, a, c)
    requires i < |north| == |south| && Distinct(north) && Distinct(south)
    requires 1 <= c <= |scaling| && Parse(scaling[c - 1]) == Some(Obj(EnumMembers(north, south)))
    ensures DataConverted(true, DomainData(a, north[i]), fmap, scaling, fl, out) ==>
            out == Some(DomainData(b, south[i]))
    ensures DataConverted(false, DomainData(b, south[i]), fmap, scaling, fl, out) ==>
            out == Some(DomainData(a, north[i]))
  {
    EnumInRange(north, south, fl);
    hide Mapped, DataConverted, Parse, EnumMembers, MapOf, EnumConverted, InRange;
    var members := EnumMembers(north, south);
    var value := if out == None then None else Some(out.value.value);
    EnumForward(north, south, i, value);
    if DataConverted(true, DomainData(a, north[i]), fmap, scaling, fl, out) {
      ValueFollows(true, DomainData(a, north[i]), fmap, scaling, fl, out, b, c, Obj(members));
    }
    if DataConverted(false, DomainData(b, south[i]), fmap, scaling, fl, out) {
      ValueFollows(false, DomainData(b, south[i]), fmap, scaling, fl, out, a, c, Obj(members));
      assert exists l :: 0 <= l < |north| && south[l] == south[i] && value == Some(north[l]);
    }
  }

  /** The tool's files and the feeder's lists, for mappings that the 16-bit indices and the length byte can hold. */
  ghost predicate Converted(ms: seq<Mapping>, u: Setup, sorted: seq<Row>, wasArray: string, wasScaling: string) {
    && |ms| <= 32767 && DistinctNames(ms) && NamesFit(ms) && Populate(ms, Start(u), u.fl).Some?
    && Query(Populate(ms, Start(u), u.fl).value.0, sorted)
    && (ElementsOf(sorted).Some? ==> NoLeftover(wasArray, |ArrayBytes(Reordered(ElementsOf(sorted).value))|))
    && var scale := Populate(ms, Start(u), u.fl).value.1.texts;
       && (forall i :: 0 <= i < |scale| ==> Plain(scale[i]))
       && AllSpaces(Drop(wasScaling, |ScalingText(scale)|))
  }

  function FeederScaling(ms: seq<Mapping>, u: Setup, wasScaling: string): Option<seq<string>>
    requires Populate(ms, Start(u), u.fl).Some?
  {
    ReadScaling(Overwritten(wasScaling, 0, ScalingText(Populate(ms, Start(u), u.fl).value.1.texts)))
  }

  /** End to end over both files: with distinct values in both lists, every listed value of an enumerated signal goes
      to its partner signal and its partner value, in both directions. */
  lemma EnumEndToEnd(ms: seq<Mapping>, u: Setup, sorted: seq<Row>, wasArray: string, wasScaling: string,
                     k: nat, north: seq<string>, south: seq<string>, i: nat, fl: Floats, out: Option<DomainData>)
    requires Converted(ms, u, sorted, wasArray, wasScaling)
    requires k < |ms| && Complete(ms[k]) && Enumerated(ms[k], north, south)
    requires Distinct(north) && Distinct(south) && AllRaw(north) && AllRaw(south) && i < |north|
    ensures ElementsOf(sorted).Some? && FeederScaling(ms, u, wasScaling).Some?
    ensures var fmap, scaling := FeederMap(ElementsOf(sorted).value, wasArray), FeederScaling(ms, u, wasScaling).value;
            && (DataConverted(true, DomainData(ms[k].north.name, north[i]), fmap, scaling, fl, out)
                ==> out == Some(DomainData(ms[k].south.name, south[i])))
            && (DataConverted(false, DomainData(ms[k].south.name, south[i]), fmap, scaling, fl, out)
                ==> out == Some(DomainData(ms[k].north.name, north[i])))
  {
    hide Populate, ElementsOf, Query, DataConverted, FeederMap, Mapped, AllRaw, Distinct, DistinctNames;
    hide ScalingText, Overwritten, Drop, NamesFit, NoLeftover, IndexAt, BOOLEAN, Complete, EnumText, CleanText;
    NamesTranslate(ms, u, sorted, wasArray);
    EnumIndexAgrees(ms, u, k, north, south);
    var scale, c := Populate(ms, Start(u), u.fl).value.1.texts, IndexAt(ms, u, k);
    ScalingRoundTripIff(scale, wasScaling);
    assert |north| == |south|;
    PlainTextRead(north, south);
    hide Parse, EnumMembers, FeederScaling;
    MappedTranslates(ms[k].north.name, ms[k].south.name, c, north, south, i,
                     FeederMap(ElementsOf(sorted).value, wasArray),
                     [BOOLEAN] + scale, fl, out);
  }

  lemma MappedOthers(a: string, b: string, c: nat, north: seq<string>, south: seq<string>, value: string,
                     fmap: seq<Element>, scaling: seq<string>, fl: Floats, out: Option<DomainData>)
    requires Mapped(fmap, a, b, c) && Mapped(fmap, b, a, c) && |north| == |south| && Distinct(north)
    requires 1 <= c <= |scaling| && Parse(scaling[c - 1]) == Some(Obj(EnumMembers(north, south)))
    ensures value !in north && DataConverted(true, DomainData(a, value), fmap, scaling, fl, out) ==>
              out == Some(DomainData(b, ""))
    ensures value !in south && DataConverted(false, DomainData(b, value), fmap, scaling, fl, out) ==>
              out == Some(DomainData(a, ""))
  {
    EnumInRange(north, south, fl);
    hide Mapped, DataConverted, Parse, EnumMembers, MapOf, EnumConverted, InRange;
    var members := EnumMembers(north, south);
    EnumOthers(north, south, value, if out == None then None else Some(out.value.value));
    if DataConverted(true, DomainData(a, value), fmap, scaling, fl, out) {
      ValueFollows(true, DomainData(a, value), fmap, scaling, fl, out, b, c, Obj(members));
    }
    if DataConverted(false, DomainData(b, value), fmap, scaling, fl, out) {
      ValueFollows(false, DomainData(b, value), fmap, scaling, fl, out, a, c, Obj(members));
    }
  }

  /** A value of an enumerated signal that is not listed arrives as the empty text. */
  lemma UnlistedEndToEnd(ms: seq<Mapping>, u: Setup, sorted: seq<Row>, wasArray: string, wasScaling: string,
                         k: nat, north: seq<string>, south: seq<string>, value: string, fl: Floats,
                         out: Option<DomainData>)
    requires Converted(ms, u, sorted, wasArray, wasScaling)
    requires k < |ms| && Complete(ms[k]) && Enumerated(ms[k], north, south)
    requires Distinct(north) && AllRaw(north) && AllRaw(south)
    ensures ElementsOf(sorted).Some? && FeederScaling(ms, u, wasScaling).Some?
    ensures var fmap, scaling := FeederMap(ElementsOf(sorted).value, wasArray), FeederScaling(ms, u, wasScaling).value;
            && (value !in north && DataConverted(true, DomainData(ms[k].north.name, value), fmap, scaling, fl, out)
                ==> out == Some(DomainData(ms[k].south.name, "")))
            && (value !in south && DataConverted(false, DomainData(ms[k].south.name, value), fmap, scaling, fl, out)
                ==> out == Some(DomainData(ms[k].north.name, "")))
  {
    hide Populate, ElementsOf, Query, DataConverted, FeederMap, Mapped, AllRaw, Distinct, DistinctNames;
    hide ScalingText, Overwritten, Drop, NamesFit, NoLeftover, IndexAt, BOOLEAN, Complete, EnumText, CleanText;
    NamesTranslate(ms, u, sorted, wasArray);
    EnumIndexAgrees(ms, u, k, north, south);
    var scale, c := Populate(ms, Start(u), u.fl).value.1.texts, IndexAt(ms, u, k);
    ScalingRoundTripIff(scale, wasScaling);
    assert |north| == |south|;
    PlainTextRead(north, south);
    hide Parse, EnumMembers, FeederScaling;
    MappedOthers(ms[k].north.name, ms[k].south.name, c, north, south, value,
                 FeederMap(ElementsOf(sorted).value, wasArray), [BOOLEAN] + scale, fl, out);
  }

  lemma BooleanRead()
    ensures BOOLEAN == EnumText(["false", "true"], ["0", "1"])
  {
    hide Quoted;
    var ms := EnumMembers(["false", "true"], ["0", "1"]);
    assert ms[1..] == [Member("true", Str("1"))];
    PairPrinted("false", "0");
    PairPrinted("true", "1");
    assert Print(Obj(ms), SPACED) == "{" + "" + PrintMembers(ms, SPACED);
  }

  lemma PairPrinted(key: string, value: string)
    ensures "\"" + key + "\":" + ("\"" + value + "\"") == Quoted(key) + ":" + Quoted(value)
  {
  }

  lemma FixedConversions(m: Mapping, st: Scales, fl: Floats)
    requires Conversion(m, st, fl).Some?
    ensures var booleans := m.south.datatype_ == "boolean" && m.north.datatype_ == "boolean";
            var c := Conversion(m, st, fl).value.0;
            && (c == 1 <==> booleans)
            && (c == 0 <==> !booleans && m.south.unit == m.north.unit && m.north.enumValues == "")
  {
    hide ParseStrings, EnumText;
    var n, s := m.north, m.south;
    assert Booleans(m) <==> s.datatype_ == n.datatype_ && n.datatype_ == "boolean";
    if !Booleans(m) && n.enumValues != "" && s.enumValues != "" {
      assert ConversionTool.EnumConversion(n.enumValues, s.enumValues, st).Some?;
    }
  }

  predicate Booleans(m: Mapping) {
    m.south.datatype_ == "boolean" && m.north.datatype_ == "boolean"
  }

  /** The tool's array and the feeder's, whatever becomes of the scaling file. */
  ghost predicate ArrayWritten(ms: seq<Mapping>, u: Setup, sorted: seq<Row>, wasArray: string) {
    && |ms| <= 32767 && DistinctNames(ms) && NamesFit(ms) && Populate(ms, Start(u), u.fl).Some?
    && Query(Populate(ms, Start(u), u.fl).value.0, sorted)
    && (ElementsOf(sorted).Some? ==> NoLeftover(wasArray, |ArrayBytes(Reordered(ElementsOf(sorted).value))|))
  }

  /** Signals of one unit without an enumeration in the north that are not both boolean: their partner gets every value
      as it is, in both directions, whatever the feeder has read of the scaling file. */
  lemma PlainEndToEnd(ms: seq<Mapping>, u: Setup, sorted: seq<Row>, wasArray: string, k: nat, value: string,
                      scaling: seq<string>, fl: Floats, out: Option<DomainData>)
    requires ArrayWritten(ms, u, sorted, wasArray) && k < |ms| && Complete(ms[k])
    requires ms[k].north.unit == ms[k].south.unit && ms[k].north.enumValues == ""
    requires !(ms[k].north.datatype_ == "boolean" && ms[k].south.datatype_ == "boolean")
    ensures ElementsOf(sorted).Some?
    ensures var fmap := FeederMap(ElementsOf(sorted).value, wasArray);
            && (DataConverted(true, DomainData(ms[k].north.name, value), fmap, scaling, fl, out)
                <==> out == Some(DomainData(ms[k].south.name, value)))
            && (DataConverted(false, DomainData(ms[k].south.name, value), fmap, scaling, fl, out)
                <==> out == Some(DomainData(ms[k].north.name, value)))
  {
    hide Populate, ElementsOf, Query, FeederMap, DistinctNames, NamesFit, NoLeftover, ScaleAt, Conversion, Mapped;
    hide DataConverted, Complete;
    NamesTranslate(ms, u, sorted, wasArray);
    IndexGrows(ms, u, k);
    FixedConversions(ms[k], ScaleAt(ms, u, k), u.fl);
    assert IndexAt(ms, u, k) == 0;
    hide IndexAt;
    var fmap := FeederMap(ElementsOf(sorted).value, wasArray);
    PlainConverts(true, DomainData(ms[k].north.name, value), fmap, scaling, fl, out, ms[k].south.name);
    PlainConverts(false, DomainData(ms[k].south.name, value), fmap, scaling, fl, out, ms[k].north.name);
  }

  lemma PlainConverts(north2South: bool, inData: DomainData, fmap: seq<Element>, scaling: seq<string>, fl: Floats,
                      out: Option<DomainData>, b: string)
    requires Mapped(fmap, inData.name, b, 0)
    ensures DataConverted(north2South, inData, fmap, scaling, fl, out) <==> out == Some(DomainData(b, inData.value))
  {
    hide MatchIndex;
  }

  /** Two signals that the tool has no conversion for: different units, or an enumeration in the north alone, where the
      unit table has no entry; or enumerations that cannot be read or have different sizes. */
  predicate Unconvertible(m: Mapping, units: seq<UnitScale>) {
    && !(m.north.datatype_ == "boolean" && m.south.datatype_ == "boolean")
    && !(m.north.unit == m.south.unit && m.north.enumValues == "")
    && if m.north.enumValues != "" && m.south.enumValues != "" then
         match (ParseStrings(m.north.enumValues), ParseStrings(m.south.enumValues))
         case (Some(north), Some(south)) => |north| != |south|
         case _ => true
       else
         || m.north.unit == "" || m.south.unit == "" || m.north.unit == m.south.unit
         || forall i :: 0 <= i < |units| ==> !Matches(units[i], m.north.unit, m.south.unit)
  }

  lemma {:induction false} NoEntry(units: seq<UnitScale>, table: seq<UnitScale>, north: string, south: string, i: nat)
    requires SameUnits(units, table) && i <= |units|
    requires forall j :: 0 <= j < |table| ==> !Matches(table[j], north, south)
    ensures FindUnit(units, north, south, i) == |units|
    decreases |units| - i
  {
    if i < |units| {
      NoEntry(units, table, north, south, i + 1);
    }
  }

  lemma UnconvertibleIndex(m: Mapping, st: Scales, table: seq<UnitScale>, fl: Floats)
    requires Unconvertible(m, table) && SameUnits(st.units, table)
    ensures Conversion(m, st, fl) == Some((65535, st))
  {
    hide ParseStrings, EnumText, SameUnits, Matches;
    if forall i :: 0 <= i < |table| ==> !Matches(table[i], m.north.unit, m.south.unit) {
      NoEntry(st.units, table, m.north.unit, m.south.unit, 0);
    }
    hide FindUnit;
  }

  lemma {:induction false} UnitsStay(ms: seq<Mapping>, u: Setup, k: nat)
    requires k <= |ms| && Populate(ms, Start(u), u.fl).Some?
    ensures SameUnits(ScaleAt(ms, u, k).units, u.units)
  {
    hide Conversion;
    ScaleGrows(ms, u, k);
    if k == 0 {
      assert ms[..0] == [];
    } else {
      UnitsStay(ms, u, k - 1);
      ScaleGrows(ms, u, k - 1);
      assert ms[..k][..k - 1] == ms[..k - 1];
      if Complete(ms[k - 1]) {
        ConversionKeepsUnits(ms[k - 1], ScaleAt(ms, u, k - 1), u.fl);
      }
    }
  }

  lemma ConversionKeepsUnits(m: Mapping, st: Scales, fl: Floats)
    requires Conversion(m, st, fl).Some?
    ensures SameUnits(Conversion(m, st, fl).value.1.units, st.units)
  {
    ConversionTurns(m, st, fl);
    hide Conversion, Scaled, FindUnit, Inverted;
    var i := EntryOf(m, st.units);
    if i < |st.units| {
      UsedIs(m, st, fl);
      InvertedKeepsUnits(st.units[i], fl);
    }
  }

  /** They are linked all the same, and the feeder panics on each of their values. */
  lemma UnconvertiblePanics(ms: seq<Mapping>, u: Setup, sorted: seq<Row>, wasArray: string, k: nat, value: string,
                            scaling: seq<string>, fl: Floats, out: Option<DomainData>)
    requires ArrayWritten(ms, u, sorted, wasArray) && k < |ms| && Complete(ms[k]) && Unconvertible(ms[k], u.units)
    requires |scaling| <= 1 + |Populate(ms, Start(u), u.fl).value.1.texts|
    ensures ElementsOf(sorted).Some?
    ensures var fmap := FeederMap(ElementsOf(sorted).value, wasArray);
            && (DataConverted(true, DomainData(ms[k].north.name, value), fmap, scaling, fl, out) <==> out == None)
            && (DataConverted(false, DomainData(ms[k].south.name, value), fmap, scaling, fl, out) <==> out == None)
  {
    hide Populate, ElementsOf, Query, FeederMap, DistinctNames, NamesFit, NoLeftover, ScaleAt, Conversion, Mapped;
    hide DataConverted, Complete, Unconvertible;
    NamesTranslate(ms, u, sorted, wasArray);
    UnitsStay(ms, u, k);
    UnconvertibleIndex(ms[k], ScaleAt(ms, u, k), u.units, u.fl);
    ScaleGrowsWhole(ms, u);
    assert IndexAt(ms, u, k) == MAXUINT16;
    hide IndexAt;
    var fmap := FeederMap(ElementsOf(sorted).value, wasArray);
    BehindList(true, DomainData(ms[k].north.name, value), fmap, scaling, fl, out, ms[k].south.name);
    BehindList(false, DomainData(ms[k].south.name, value), fmap, scaling, fl, out, ms[k].north.name);
  }

  lemma BehindList(north2South: bool, inData: DomainData, fmap: seq<Element>, scaling: seq<string>, fl: Floats,
                   out: Option<DomainData>, b: string)
    requires Mapped(fmap, inData.name, b, MAXUINT16) && |scaling| < MAXUINT16
    ensures DataConverted(north2South, inData, fmap, scaling, fl, out) <==> out == None
  {
    hide MatchIndex;
  }

  /** End to end for booleans, once there is any other scaling text. */
  lemma BooleanEndToEnd(ms: seq<Mapping>, u: Setup, sorted: seq<Row>, wasArray: string, wasScaling: string,
                        k: nat, i: nat, fl: Floats, out: Option<DomainData>)
    requires Converted(ms, u, sorted, wasArray, wasScaling) && Populate(ms, Start(u), u.fl).value.1.texts != []
    requires k < |ms| && Complete(ms[k]) && Booleans(ms[k]) && i < 2
    ensures ElementsOf(sorted).Some? && FeederScaling(ms, u, wasScaling).Some?
    ensures var fmap, scaling := FeederMap(ElementsOf(sorted).value, wasArray), FeederScaling(ms, u, wasScaling).value;
            var north, south := ["false", "true"], ["0", "1"];
            && (DataConverted(true, DomainData(ms[k].north.name, north[i]), fmap, scaling, fl, out)
                ==> out == Some(DomainData(ms[k].south.name, south[i])))
            && (DataConverted(false, DomainData(ms[k].south.name, south[i]), fmap, scaling, fl, out)
                ==> out == Some(DomainData(ms[k].north.name, north[i])))
  {
    var north, south, scale := ["false", "true"], ["0", "1"], Populate(ms, Start(u), u.fl).value.1.texts;
    BooleanListsPlain();
    hide Populate, ElementsOf, Query, DataConverted, FeederMap, Mapped, Distinct, DistinctNames, ScaleAt, Conversion;
    hide ScalingText, Overwritten, Drop, NamesFit, NoLeftover, BOOLEAN, Complete, EnumText, CleanText, AllRaw, Plain,
        MapOf;
    NamesTranslate(ms, u, sorted, wasArray);
    IndexGrows(ms, u, k);
    FixedConversions(ms[k], ScaleAt(ms, u, k), u.fl);
    ScalingRoundTripIff(scale, wasScaling);
    hide IndexAt, FeederScaling, Booleans, EnumMembers, EnumConverted, Parse, RawText;
    BooleanRead();
    PlainTextRead(north, south);
    MappedTranslates(ms[k].north.name, ms[k].south.name, 1, north, south, i,
                     FeederMap(ElementsOf(sorted).value, wasArray),
                     [BOOLEAN] + scale, fl, out);
  }

  lemma BooleanListsPlain()
    ensures Distinct(["false", "true"]) && Distinct(["0", "1"]) && AllRaw(["false", "true"]) && AllRaw(["0", "1"])
  {
    assert "false"[0] != "true"[0] && "0"[0] != "1"[0];
  }

  /** Without any other scaling text the feeder reads no list, and fails on every value of each boolean signal. */
  lemma BooleansAlone(ms: seq<Mapping>, u: Setup, sorted: seq<Row>, wasArray: string, wasScaling: string, k: nat,
                      value: string, fl: Floats, out: Option<DomainData>)
    requires Converted(ms, u, sorted, wasArray, wasScaling) && Populate(ms, Start(u), u.fl).value.1.texts == []
    requires k < |ms| && Complete(ms[k]) && Booleans(ms[k])
    ensures FeederScaling(ms, u, wasScaling) == None && ElementsOf(sorted).Some?
    ensures var fmap := FeederMap(ElementsOf(sorted).value, wasArray);
            && (DataConverted(true, DomainData(ms[k].north.name, value), fmap, [], fl, out) ==> out == None)
            && (DataConverted(false, DomainData(ms[k].south.name, value), fmap, [], fl, out) ==> out == None)
  {
    NothingReadBack(wasScaling);
    hide Populate, ElementsOf, Query, FeederMap, DistinctNames, ScaleAt, Conversion, Mapped;
    hide ScalingText, Overwritten, Drop, NamesFit, NoLeftover, BOOLEAN, Complete, Plain;
    NamesTranslate(ms, u, sorted, wasArray);
    IndexGrows(ms, u, k);
    FixedConversions(ms[k], ScaleAt(ms, u, k), u.fl);
    hide IndexAt, Booleans;
    var fmap := FeederMap(ElementsOf(sorted).value, wasArray);
    NoScaling(true, DomainData(ms[k].north.name, value), fmap, fl, out, ms[k].south.name);
    NoScaling(false, DomainData(ms[k].south.name, value), fmap, fl, out, ms[k].north.name);
  }

  lemma NoScaling(north2South: bool, inData: DomainData, fmap: seq<Element>, fl: Floats, out: Option<DomainData>,
                  b: string)
    requires Mapped(fmap, inData.name, b, 1)
    ensures DataConverted(north2South, inData, fmap, [], fl, out) ==> out == None
  {
  }

  /** With an entry of another kind in the scaling list: a text that is no JSON, or null, makes every value arrive as
      the empty text; a string, a boolean or a number makes the feeder panic. */
  lemma ForeignEntry(north2South: bool, inData: DomainData, fmap: seq<Element>, scaling: seq<string>, fl: Floats,
                     out: Option<DomainData>, b: string, c: nat)
    requires Mapped(fmap, inData.name, b, c) && 1 <= c <= |scaling|
    ensures var entry := Parse(scaling[c - 1]);
            && (entry == None || entry == Some(Lit("null")) ==>
                  (DataConverted(north2South, inData, fmap, scaling, fl, out) <==> out == Some(DomainData(b, ""))))
            && (entry.Some? && (entry.value.Str? || entry.value == Lit("true") || entry.value == Lit("false")
                                || (entry.value.Lit? && IsNumber(entry.value.token)
                                    && fl.parse(entry.value.token).Some?)) ==>
                  (DataConverted(north2South, inData, fmap, scaling, fl, out) <==> out == None))
  {
    hide MatchIndex, Parse;
    NoNumbers();
    hide IsNumber;
  }

  lemma NoNumbers()
    ensures !IsNumber("true") && !IsNumber("false") && !IsNumber("null")
    ensures "true" != "null" && "false" != "null"
  {
    assert "true"[0] == 't' && "false"[0] == 'f' && "null"[0] == 'n';
  }

  // ---------------------------------------------------------------- units

  /** The coefficient text is a JSON array of the numbers A and B. */
  lemma CoefficientsRead(v: UnitScale, a: real, b: real, fl: Floats)
    requires Numerals(v, (a, b), fl)
    ensures var j := Arr([Lit(v.a), Lit(v.b)]);
            && Parse(CoefficientText(v)) == Some(j) && InRange(j, fl)
            && Number(j.items[0], fl) == Some(a) && Number(j.items[1], fl) == Some(b)
  {
    var j := Arr([Lit(v.a), Lit(v.b)]);
    hide IsNumber, IsLiteral, Parse;
    PairPrints(v.a, v.b);
    ParseOfPrint(j, SPACED, "");
    assert Print(j, SPACED) + "" == Print(j, SPACED);
  }

  lemma PairPrints(a: string, b: string)
    ensures Print(Arr([Lit(a), Lit(b)]), SPACED) == "[" + a + ", " + b + "]"
  {
    var items := [Lit(a), Lit(b)];
    assert items[1..] == [Lit(b)];
    assert PrintItems(items[1..], SPACED) == b + "]";
    assert PrintItems(items, SPACED) == a + ("," + " " + (b + "]"));
    assert Print(Arr(items), SPACED) == "[" + "" + PrintItems(items, SPACED);
    hide Print, PrintItems;
    assert "[" + "" + (a + ("," + " " + (b + "]"))) == "[" + a + ", " + b + "]";
  }

  /** Two mapped signals whose scaling text holds the coefficients A and B, A being nonzero. */
  lemma MappedScales(a: string, b: string, c: nat, v: UnitScale, x: real, y: real, value: string,
                     fmap: seq<Element>, scaling: seq<string>, fl: Floats, out: Option<DomainData>)
    requires Mapped(fmap, a, b, c) && Mapped(fmap, b, a, c)
    requires 1 <= c <= |scaling| && scaling[c - 1] == CoefficientText(v)
    requires Numerals(v, (x, y), fl) && x != 0.0 && fl.parse(value).Some?
    requires var there := Scale(x, y, fl.parse(value).value); fl.parse(fl.print_(there)) == Some(there)
    ensures var there := fl.print_(Scale(x, y, fl.parse(value).value));
            && (DataConverted(true, DomainData(a, value), fmap, scaling, fl, out) ==> out == Some(DomainData(b, there)))
            && (DataConverted(false, DomainData(b, there), fmap, scaling, fl, out)
                ==> out == Some(DomainData(a, fl.print_(fl.parse(value).value))))
  {
    CoefficientsRead(v, x, y, fl);
    hide Mapped, DataConverted, Parse, InRange, Linear, Number, CoefficientText, Numerals, Scale;
    var j, there := Arr([Lit(v.a), Lit(v.b)]), fl.print_(Scale(x, y, fl.parse(value).value));
    ScaleIs(x, y, fl.parse(value).value);
    LinearRoundTrip(j.items, x, y, value, fl);
    if DataConverted(true, DomainData(a, value), fmap, scaling, fl, out) {
      ValueFollows(true, DomainData(a, value), fmap, scaling, fl, out, b, c, j);
    }
    if DataConverted(false, DomainData(b, there), fmap, scaling, fl, out) {
      ValueFollows(false, DomainData(b, there), fmap, scaling, fl, out, a, c, j);
    }
  }

  lemma ScaledEndToEnd(ms: seq<Mapping>, u: Setup, sorted: seq<Row>, wasArray: string, wasScaling: string,
                       k: nat, c: (real, real), value: string, out: Option<DomainData>)
    requires Converted(ms, u, sorted, wasArray, wasScaling)
    requires k < |ms| && Complete(ms[k]) && Scaled(ms[k]) && EntryOf(ms[k], u.units) < |u.units|
    requires Numerals(u.units[EntryOf(ms[k], u.units)], c, u.fl) && Exact(c, u.fl) && u.fl.parse(value).Some?
    requires var (a, b) := Given(ms, u, k, c);
             var there := Scale(a, b, u.fl.parse(value).value);
             u.fl.parse(u.fl.print_(there)) == Some(there)
    ensures ElementsOf(sorted).Some? && FeederScaling(ms, u, wasScaling).Some?
    ensures var fmap, scaling := FeederMap(ElementsOf(sorted).value, wasArray), FeederScaling(ms, u, wasScaling).value;
            var (a, b) := Given(ms, u, k, c);
            var there := u.fl.print_(Scale(a, b, u.fl.parse(value).value));
            && (DataConverted(true, DomainData(ms[k].north.name, value), fmap, scaling, u.fl, out)
                ==> out == Some(DomainData(ms[k].south.name, there)))
            && (DataConverted(false, DomainData(ms[k].south.name, there), fmap, scaling, u.fl, out)
                ==> out == Some(DomainData(ms[k].north.name, u.fl.print_(u.fl.parse(value).value))))
  {
    hide Populate, ElementsOf, Query, DataConverted, FeederMap, Mapped, Numerals, DistinctNames, CoefficientText,
        Scaled, PrintsExactly, EntryOf;
    hide ScalingText, Overwritten, Drop, NamesFit, NoLeftover, IndexAt, BOOLEAN, Complete, Plain, Scale, UnitAt;
    NamesTranslate(ms, u, sorted, wasArray);
    GivenReads(ms, u, k, c);
    GivenIsNonzero(ms, u, k, c);
    hide Given;
    UnitIndexAgrees(ms, u, k);
    var scale, i, v := Populate(ms, Start(u), u.fl).value.1.texts, IndexAt(ms, u, k), UnitAt(ms, u, k).value;
    ScalingRoundTripIff(scale, wasScaling);
    hide FeederScaling;
    var (a, b) := Given(ms, u, k, c);
    MappedScales(ms[k].north.name, ms[k].south.name, i, v, a, b, value, FeederMap(ElementsOf(sorted).value, wasArray),
                 [BOOLEAN] + scale, u.fl, out);
  }

  /** End to end over both files: a number x in the northern unit goes to the partner signal as y = A x + B, and y
      back to the first signal as x. A and B are the coefficients that mapping k gets from the table: those of its own
      direction, or of the other one. */
  lemma LinearEndToEnd(ms: seq<Mapping>, u: Setup, sorted: seq<Row>, wasArray: string, wasScaling: string,
                       k: nat, c: (real, real), value: string, x: real, y: real, out: Option<DomainData>)
    requires Converted(ms, u, sorted, wasArray, wasScaling)
    requires k < |ms| && Complete(ms[k]) && Scaled(ms[k]) && EntryOf(ms[k], u.units) < |u.units|
    requires Numerals(u.units[EntryOf(ms[k], u.units)], c, u.fl) && Exact(c, u.fl)
    requires u.fl.parse(value) == Some(x) && y == Given(ms, u, k, c).0 * x + Given(ms, u, k, c).1
    requires u.fl.parse(u.fl.print_(y)) == Some(y)
    ensures ElementsOf(sorted).Some? && FeederScaling(ms, u, wasScaling).Some?
    ensures var fmap, scaling := FeederMap(ElementsOf(sorted).value, wasArray), FeederScaling(ms, u, wasScaling).value;
            && (DataConverted(true, DomainData(ms[k].north.name, value), fmap, scaling, u.fl, out)
                ==> out == Some(DomainData(ms[k].south.name, u.fl.print_(y))))
            && (DataConverted(false, DomainData(ms[k].south.name, u.fl.print_(y)), fmap, scaling, u.fl, out)
                ==> out == Some(DomainData(ms[k].north.name, u.fl.print_(x))))
  {
    ScaleIs(Given(ms, u, k, c).0, Given(ms, u, k, c).1, x);
    hide *;
    assert y == Scale(Given(ms, u, k, c).0, Given(ms, u, k, c).1, x);
    ScaledEndToEnd(ms, u, sorted, wasArray, wasScaling, k, c, value, out);
  }

  /** A text that is no number arrives as the empty text. */
  lemma NoNumberEndToEnd(ms: seq<Mapping>, u: Setup, sorted: seq<Row>, wasArray: string, wasScaling: string,
                         k: nat, c: (real, real), value: string, out: Option<DomainData>)
    requires Converted(ms, u, sorted, wasArray, wasScaling)
    requires k < |ms| && Complete(ms[k]) && Scaled(ms[k]) && EntryOf(ms[k], u.units) < |u.units|
    requires Numerals(u.units[EntryOf(ms[k], u.units)], c, u.fl) && Exact(c, u.fl) && u.fl.parse(value) == None
    ensures ElementsOf(sorted).Some? && FeederScaling(ms, u, wasScaling).Some?
    ensures var fmap, scaling := FeederMap(ElementsOf(sorted).value, wasArray), FeederScaling(ms, u, wasScaling).value;
            && (DataConverted(true, DomainData(ms[k].north.name, value), fmap, scaling, u.fl, out)
                ==> out == Some(DomainData(ms[k].south.name, "")))
            && (DataConverted(false, DomainData(ms[k].south.name, value), fmap, scaling, u.fl, out)
                ==> out == Some(DomainData(ms[k].north.name, "")))
  {
    hide Populate, ElementsOf, Query, DataConverted, FeederMap, Mapped, Numerals, DistinctNames, CoefficientText,
        Scaled, PrintsExactly, EntryOf, Given;
    hide ScalingText, Overwritten, Drop, NamesFit, NoLeftover, IndexAt, BOOLEAN, Complete, Plain, UnitAt;
    NamesTranslate(ms, u, sorted, wasArray);
    GivenReads(ms, u, k, c);
    UnitIndexAgrees(ms, u, k);
    var scale, i, v := Populate(ms, Start(u), u.fl).value.1.texts, IndexAt(ms, u, k), UnitAt(ms, u, k).value;
    ScalingRoundTripIff(scale, wasScaling);
    hide FeederScaling;
    var (a, b) := Given(ms, u, k, c);
    CoefficientsRead(v, a, b, u.fl);
    var j, fmap := Arr([Lit(v.a), Lit(v.b)]), FeederMap(ElementsOf(sorted).value, wasArray);
    NoNumber(true, DomainData(ms[k].north.name, value), fmap, [BOOLEAN] + scale, u.fl, out, ms[k].south.name, i, j);
    NoNumber(false, DomainData(ms[k].south.name, value), fmap, [BOOLEAN] + scale, u.fl, out, ms[k].north.name, i, j);
  }

  lemma NoNumber(north2South: bool, inData: DomainData, fmap: seq<Element>, scaling: seq<string>, fl: Floats,
                 out: Option<DomainData>, b: string, c: nat, j: Json)
    requires Mapped(fmap, inData.name, b, c) && fl.parse(inData.value) == None
    requires 1 <= c <= |scaling| && Parse(scaling[c - 1]) == Some(j) && InRange(j, fl) && j.Arr?
    ensures DataConverted(north2South, inData, fmap, scaling, fl, out) ==> out == Some(DomainData(b, ""))
  {
    hide Mapped, DataConverted, Parse, InRange;
    if DataConverted(north2South, inData, fmap, scaling, fl, out) {
      ValueFollows(north2South, inData, fmap, scaling, fl, out, b, c, j);
    }
  }

  lemma GivenIsNonzero(ms: seq<Mapping>, u: Setup, k: nat, c: (real, real))
    requires k < |ms| && EntryOf(ms[k], u.units) < |u.units| && c.0 != 0.0
    ensures Given(ms, u, k, c).0 != 0.0
  {
    TurnedTwice(c);
    hide EntryOf, Uses, Turned;
  }
}
