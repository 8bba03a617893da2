/** The Domain Conversion Tool: the conversion table it fills, and the array it writes for the feeder. */
module ConversionTool {
  import opened Text
  import opened Json

  const MAXUINT16 := 65535

  type UInt16 = x: int | 0 <= x < 0x1_0000
  type Int8 = x: int | -128 <= x < 128

  /** A signal as its domain table describes it; an empty name stands for a signal that was not found. */
  datatype ToolData = ToolData(name: string, kind: string, datatype_: string, unit: string, enumValues: string)

  datatype Mapping = Mapping(north: ToolData, south: ToolData)

  /** An entry of the unit table: a value in unit1 times A plus B is the value in unit2. */
  datatype UnitScale = UnitScale(unit1: string, unit2: string, a: string, b: string)

  /** The tool's two lists: the scaling texts interned so far, and the unit table. */
  datatype Scales = Scales(texts: seq<string>, units: seq<UnitScale>)

  /** The library's floating point, over the reals: parsing a number (None for a syntax or a range error), printing one,
      and printing a quotient by zero. */
  datatype Floats = Floats(parse: string -> Option<real>, print_: real -> string, byZero: real -> string)

  /** A row of the preparation table. */
  datatype Row = Row(name: string, kind: string, datatype_: string, mapIndex: nat, conversionIndex: nat)

  /** An element of the array that the tool writes and the feeder reads. */
  datatype Element = Element(mapIndex: UInt16, name: string, kind: Int8, datatype_: Int8, convertIndex: UInt16)

  // ---------------------------------------------------------------- interned conversions

  function EnumMembers(north: seq<string>, south: seq<string>): (ms: seq<Member>)
    requires |north| == |south|
    ensures |ms| == |north|
  {
    seq(|north|, i requires 0 <= i < |north| => Member(north[i], Str(south[i])))
  }

  function EnumText(north: seq<string>, south: seq<string>): string
    requires |north| == |south|
  {
    Print(Obj(EnumMembers(north, south)), SPACED)
  }

  function IndexIn(list: seq<string>, text: string, i: nat): (r: nat)
    requires i <= |list|
    ensures i <= r <= |list|
    decreases |list| - i
  {
    if i == |list| || list[i] == text then i else IndexIn(list, text, i + 1)
  }

  /** The index of a text in the list, which grows if the text is new. */
  function Intern(list: seq<string>, text: string): (nat, seq<string>) {
    var i := IndexIn(list, text, 0);
    (i, if i < |list| then list else list + [text])
  }

  const FAILED := MAXUINT16 - 2

  function Interned(st: Scales, text: string): (nat, Scales) {
    var (i, texts) := Intern(st.texts, text);
    (i, st.(texts := texts))
  }

  /** getConversionTypeForEnum; None for the panic on two empty lists. */
  function EnumConversion(northEnums: string, southEnums: string, st: Scales): Option<(nat, Scales)> {
    match (ParseStrings(northEnums), ParseStrings(southEnums))
    case (Some(north), Some(south)) =>
      if |north| != |south| then Some((FAILED, st))
      else if |north| == 0 then None
      else Some(Interned(st, EnumText(north, south)))
    case _ => Some((FAILED, st))
  }

  predicate Matches(u: UnitScale, north: string, south: string) {
    (u.unit1 == north && u.unit2 == south) || (u.unit1 == south && u.unit2 == north)
  }

  function FindUnit(units: seq<UnitScale>, north: string, south: string, i: nat): (r: nat)
    requires i <= |units|
    ensures i <= r <= |units| && (r < |units| ==> Matches(units[r], north, south))
    decreases |units| - i
  {
    if i == |units| || Matches(units[i], north, south) then i else FindUnit(units, north, south, i + 1)
  }

  function Quotient(x: real, y: real, fl: Floats): string {
    if y == 0.0 then fl.byZero(x) else fl.print_(x / y)
  }

  /** The coefficients of the other direction; None if they are no numbers. */
  function Inverted(u: UnitScale, fl: Floats): Option<UnitScale> {
    var a :- fl.parse(u.a);
    var b :- fl.parse(u.b);
    Some(u.(a := Quotient(1.0, a, fl), b := Quotient(-b, a, fl)))
  }

  function CoefficientText(u: UnitScale): string {
    "[" + u.a + ", " + u.b + "]"
  }

  /** getConversionTypeForLinear: an entry for the other direction is inverted where it stands in the table. */
  function LinearConversion(north: string, south: string, st: Scales, fl: Floats): (nat, Scales) {
    var i := FindUnit(st.units, north, south, 0);
    match UnitUsed(north, south, st, fl)
    case None => (FAILED, st)
    case Some(u) => Interned(st.(units := st.units[i := u]), CoefficientText(u))
  }

  /** The table entry as it is after the call; None if there is none, or its coefficients are no numbers. */
  function UnitUsed(north: string, south: string, st: Scales, fl: Floats): (u: Option<UnitScale>)
    ensures u.Some? ==> FindUnit(st.units, north, south, 0) < |st.units|
  {
    var i := FindUnit(st.units, north, south, 0);
    if i == |st.units| then None
    else if st.units[i].unit1 != south then Some(st.units[i])
    else Inverted(st.units[i], fl)
  }

  /** The conversion index that createFeederConversionData stores: 0 for none, 1 for boolean, the others offset by 2. */
  function Conversion(m: Mapping, st: Scales, fl: Floats): Option<(nat, Scales)> {
    var n, s := m.north, m.south;
    if s.datatype_ == n.datatype_ && n.datatype_ == "boolean" then Some((1, st))
    else if s.unit == n.unit && n.enumValues == "" then Some((0, st))
    else if n.enumValues != "" && s.enumValues != "" then
      var (i, grown) :- EnumConversion(n.enumValues, s.enumValues, st);
      Some((i + 2, grown))
    else if n.unit != "" && s.unit != "" && s.unit != n.unit then
      var (i, grown) := LinearConversion(n.unit, s.unit, st, fl);
      Some((i + 2, grown))
    else Some((MAXUINT16, st))
  }

  function RowsFor(m: Mapping, mapIndex: nat, conversionIndex: nat): seq<Row> {
    [Row(m.north.name, m.north.kind, m.north.datatype_, mapIndex, conversionIndex),
     Row(m.south.name, m.south.kind, m.south.datatype_, mapIndex, conversionIndex)]
  }

  predicate Complete(m: Mapping) {
    m.north.name != "" && m.south.name != ""
  }

  /** The table and the lists after the mappings have been joined. */
  function Populate(ms: seq<Mapping>, st: Scales, fl: Floats): Option<(seq<Row>, Scales)> {
    if ms == [] then Some(([], st))
    else
      var n := |ms| - 1;
      var (rows, grown) :- Populate(ms[..n], st, fl);
      if !Complete(ms[n]) then Some((rows, grown))
      else
        var (c, grown2) :- Conversion(ms[n], grown, fl);
        Some((rows + RowsFor(ms[n], n, c), grown2))
  }

  /** The tool's package state, and the table it fills. */
  class Tool {
    var scaleDataList: seq<string>
    var unitScaleList: seq<UnitScale>
    var table: seq<Row>
    const fl: Floats

    constructor (units: seq<UnitScale>, fl: Floats)
      ensures Lists() == Scales([], units) && table == [] && this.fl == fl
    {
      scaleDataList, unitScaleList, table, this.fl := [], units, [], fl;
    }

    function Lists(): Scales
      reads this`scaleDataList, this`unitScaleList
    {
      Scales(scaleDataList, unitScaleList)
    }

    method InternText(text: string) returns (index: nat)
      modifies this`scaleDataList
      ensures (index, scaleDataList) == Intern(old(scaleDataList), text)
    {
      for i := 0 to |scaleDataList|
        invariant IndexIn(scaleDataList, text, 0) == IndexIn(scaleDataList, text, i)
        invariant scaleDataList == old(scaleDataList)
      {
        if scaleDataList[i] == text {
          return i;
        }
      }
      scaleDataList := scaleDataList + [text];
      return |scaleDataList| - 1;
    }

    /** None for the panic. */
    method GetConversionTypeForEnum(nbdEnums: string, sbdEnums: string) returns (index: Option<nat>)
      modifies this`scaleDataList
      ensures match EnumConversion(nbdEnums, sbdEnums, old(Lists()))
              case None => index == None && Lists() == old(Lists())
              case Some((i, st)) => index == Some(i) && Lists() == st
    {
      var nbdEnumMap := ParseStrings(nbdEnums);
      var sbdEnumMap := ParseStrings(sbdEnums);
      if nbdEnumMap.None? || sbdEnumMap.None? || |nbdEnumMap.value| != |sbdEnumMap.value| {
        return Some(FAILED);
      }
      var enumMap := BuildEnumMap(nbdEnumMap.value, sbdEnumMap.value);
      if enumMap.None? {
        return None;
      }
      var i := InternText(enumMap.value);
      return Some(i);
    }

    method GetConversionTypeForLinear(nbdUnit: string, sbdUnit: string) returns (index: nat)
      modifies this`scaleDataList, this`unitScaleList
      ensures (index, Lists()) == LinearConversion(nbdUnit, sbdUnit, old(Lists()), fl)
    {
      hide CoefficientText, Quotient;
      for i := 0 to |unitScaleList|
        invariant Lists() == old(Lists())
        invariant FindUnit(unitScaleList, nbdUnit, sbdUnit, 0) == FindUnit(unitScaleList, nbdUnit, sbdUnit, i)
      {
        if Matches(unitScaleList[i], nbdUnit, sbdUnit) {
          if unitScaleList[i].unit1 == sbdUnit {
            var a := fl.parse(unitScaleList[i].a);
            if a == None {
              return FAILED;
            }
            var b := fl.parse(unitScaleList[i].b);
            if b == None {
              return FAILED;
            }
            var u := unitScaleList[i].(a := Quotient(1.0, a.value, fl), b := Quotient(-b.value, a.value, fl));
            unitScaleList := unitScaleList[i := u];
          }
          ghost var st := old(Lists());
          assert unitScaleList == st.units[i := unitScaleList[i]];
          index := InternText(CoefficientText(unitScaleList[i]));
          return index;
        }
      }
      return FAILED;
    }

    method CreateFeederConversionData(m: Mapping, mapIndex: nat) returns (ok: bool)
      modifies this
      ensures match Conversion(m, old(Lists()), fl)
              case None => !ok
              case Some((c, st)) => ok && Lists() == st && table == old(table) + RowsFor(m, mapIndex, c)
    {
      var conversionIndex := MAXUINT16;
      var n, s := m.north, m.south;
      if s.datatype_ == n.datatype_ && n.datatype_ == "boolean" {
        conversionIndex := 1;
      } else if s.unit == n.unit && n.enumValues == "" {
        conversionIndex := 0;
      } else if n.enumValues != "" && s.enumValues != "" {
        var index := GetConversionTypeForEnum(n.enumValues, s.enumValues);
        if index.None? {
          return false;
        }
        conversionIndex := index.value + 2;
      } else if n.unit != "" && s.unit != "" && s.unit != n.unit {
        var index := GetConversionTypeForLinear(n.unit, s.unit);
        conversionIndex := index + 2;
      }
      table := table + [Row(n.name, n.kind, n.datatype_, mapIndex, conversionIndex)];
      table := table + [Row(s.name, s.kind, s.datatype_, mapIndex, conversionIndex)];
      assert table == old(table) + RowsFor(m, mapIndex, conversionIndex);
      return true;
    }

    method PopulateConversionTable(signalMapList: seq<Mapping>) returns (ok: bool)
      requires table == []
      modifies this
      ensures match Populate(signalMapList, old(Lists()), fl)
              case None => !ok
              case Some((rows, st)) => ok && table == rows && Lists() == st
    {
      hide Conversion;
      for i := 0 to |signalMapList|
        invariant Populate(signalMapList[..i], old(Lists()), fl) == Some((table, Lists()))
      {
        assert signalMapList[..i + 1][..i] == signalMapList[..i];
        if Complete(signalMapList[i]) {
          var created := CreateFeederConversionData(signalMapList[i], i);
          if !created {
            PopulateFails(signalMapList, i, old(Lists()), fl);
            return false;
          }
        }
      }
      assert signalMapList[..|signalMapList|] == signalMapList;
      return true;
    }
  }

  lemma {:induction false} PopulateFails(ms: seq<Mapping>, i: nat, st: Scales, fl: Floats)
    requires i < |ms| && Populate(ms[..i + 1], st, fl) == None
    ensures Populate(ms, st, fl) == None
  {
    hide Conversion;
    if i + 1 == |ms| {
      assert ms[..i + 1] == ms;
    } else {
      assert ms[..|ms| - 1][..i + 1] == ms[..i + 1];
      PopulateFails(ms[..|ms| - 1], i, st, fl);
    }
  }

  /** The loop of getConversionTypeForEnum: append with a comma and a space, then cut both off. */
  method BuildEnumMap(north: seq<string>, south: seq<string>) returns (r: Option<string>)
    requires |north| == |south|
    ensures r == if north == [] then None else Some(EnumText(north, south))
  {
    hide EnumText, EnumPair;
    var enumMap := "{";
    for i := 0 to |north|
      invariant enumMap == "{" + EnumEach(north[..i], south[..i])
    {
      EnumEachStep(north, south, i);
      enumMap := enumMap + (EnumPair(north[i], south[i]) + ", ");
    }
    assert north[..|north|] == north && south[..|south|] == south;
    if |north| > 0 {
      EnumEachTrimmed(north, south);
    }
    if |enumMap| < 2 {
      return None;
    }
    enumMap := enumMap[..|enumMap| - 2] + "}";
    return Some(enumMap);
  }

  function EnumPair(north: string, south: string): string {
    "\"" + north + "\":\"" + south + "\""
  }

  function EnumEach(north: seq<string>, south: seq<string>): string
    requires |north| == |south|
  {
    if north == [] then
      ""
    else
      var last := |north| - 1;
      EnumEach(north[..last], south[..last]) + (EnumPair(north[last], south[last]) + ", ")
  }

  lemma EnumEachStep(north: seq<string>, south: seq<string>, i: nat)
    requires |north| == |south| && i < |north|
    ensures EnumEach(north[..i + 1], south[..i + 1])
         == EnumEach(north[..i], south[..i]) + (EnumPair(north[i], south[i]) + ", ")
  {
    hide EnumPair;
    assert north[..i + 1][..i] == north[..i] && south[..i + 1][..i] == south[..i];
  }

  lemma {:induction false} EnumEachHead(north: seq<string>, south: seq<string>)
    requires |north| == |south| && north != []
    ensures EnumEach(north, south) == EnumPair(north[0], south[0]) + ", " + EnumEach(north[1..], south[1..])
  {
    hide EnumPair;
    var n := |north| - 1;
    if n == 0 {
      assert EnumEach(north[..0], south[..0]) == "" && EnumEach(north[1..], south[1..]) == "";
      assert "" + (EnumPair(north[0], south[0]) + ", ") == EnumPair(north[0], south[0]) + ", " + "";
    } else {
      EnumEachLast(north, south);
      EnumEachLast(north[1..], south[1..]);
      EnumEachHead(north[..n], south[..n]);
      assert north[..n][1..] == north[1..][..n - 1] && south[..n][1..] == south[1..][..n - 1];
      hide EnumEach;
      assert north[1..][n - 1] == north[n] && south[1..][n - 1] == south[n];
    }
  }

  lemma EnumEachLast(north: seq<string>, south: seq<string>)
    requires |north| == |south| && north != []
    ensures var n := |north| - 1;
            EnumEach(north, south) == EnumEach(north[..n], south[..n]) + (EnumPair(north[n], south[n]) + ", ")
  {
  }

  lemma EnumMembersTail(north: seq<string>, south: seq<string>)
    requires |north| == |south| && north != []
    ensures EnumMembers(north, south)[1..] == EnumMembers(north[1..], south[1..])
  {
  }

  lemma {:induction false} EnumEachJoined(north: seq<string>, south: seq<string>)
    requires |north| == |south| && north != []
    ensures var s := EnumEach(north, south);
            |s| >= 2 && s[..|s| - 2] + "}" == PrintMembers(EnumMembers(north, south), SPACED)
  {
    hide EnumEach;
    var ms, first := EnumMembers(north, south), EnumPair(north[0], south[0]);
    var rest := EnumEach(north[1..], south[1..]);
    EnumEachHead(north, south);
    EnumMembersTail(north, south);
    assert "\"" + north[0] + "\":" + ("\"" + south[0] + "\"") == first;
    hide EnumPair;
    if |north| == 1 {
      EnumEachNothing(north[1..], south[1..]);
      assert (first + ", " + "")[..|first|] == first;
    } else {
      EnumEachJoined(north[1..], south[1..]);
      hide PrintMembers;
      Cut(first, rest);
      EnumMembersPrint(north, south, first);
    }
  }

  lemma EnumMembersPrint(north: seq<string>, south: seq<string>, first: string)
    requires |north| == |south| && |north| > 1
    requires first == "\"" + north[0] + "\":" + ("\"" + south[0] + "\"")
    ensures PrintMembers(EnumMembers(north, south), SPACED)
         == first + ("," + " " + PrintMembers(EnumMembers(north[1..], south[1..]), SPACED))
  {
    EnumMembersTail(north, south);
  }

  lemma Cut(first: string, rest: string)
    requires |rest| >= 2
    ensures var s := first + ", " + rest;
            s[..|s| - 2] + "}" == first + ("," + " " + (rest[..|rest| - 2] + "}"))
  {
    var s := first + ", " + rest;
    assert s[..|s| - 2] == first + ", " + rest[..|rest| - 2];
  }

  lemma EnumEachNothing(north: seq<string>, south: seq<string>)
    requires north == [] && south == []
    ensures EnumEach(north, south) == ""
  {
  }

  /** Cutting off the last two characters and closing the brace gives the printed object. */
  lemma EnumEachTrimmed(north: seq<string>, south: seq<string>)
    requires |north| == |south| && north != []
    ensures var s := "{" + EnumEach(north, south);
            |s| >= 2 && s[..|s| - 2] + "}" == EnumText(north, south)
  {
    EnumEachJoined(north, south);
    hide PrintMembers, EnumEach;
    var s := EnumEach(north, south);
    assert ("{" + s)[..|s| - 1] == "{" + s[..|s| - 2];
    assert "{" + s[..|s| - 2] + "}" == "{" + "" + (s[..|s| - 2] + "}");
  }

  // ---------------------------------------------------------------- rows become elements

  function TypeIndex(kind: string): Int8 {
    match kind
    case "sensor" => 0
    case "actuator" => 1
    case "attribute" => 2
    case _ => -1
  }

  const DATATYPES := ["uint8", "uint16", "uint32", "uint64", "int8", "int16", "int32", "int64", "float32", "float64",
                      "boolean", "string", "uint8[]", "uint16[]", "uint32[]", "uint64[]", "int8[]", "int16[]",
                      "int32[]", "int64[]", "float32[]", "float64[]", "boolean[]", "string[]"]

  function DatatypeIndex(datatype_: string): Int8 {
    if datatype_ == "float" then 8
    else if datatype_ == "double" then 9
    else
      var i := IndexIn(DATATYPES, datatype_, 0);
      if i == |DATATYPES| then -1 else i
  }

  /** Scanning a row: None for the error on a number that is no uint16. */
  function ElementOf(row: Row): Option<Element> {
    if row.mapIndex > MAXUINT16 || row.conversionIndex > MAXUINT16 then None
    else Some(Element(row.mapIndex, row.name, TypeIndex(row.kind), DatatypeIndex(row.datatype_), row.conversionIndex))
  }

  function ElementsOf(rows: seq<Row>): Option<seq<Element>> {
    if rows == [] then Some([])
    else
      var es :- ElementsOf(rows[..|rows| - 1]);
      var e :- ElementOf(rows[|rows| - 1]);
      Some(es + [e])
  }

  lemma {:induction false} ElementsOfAll(rows: seq<Row>)
    requires forall i :: 0 <= i < |rows| ==> ElementOf(rows[i]).Some?
    ensures ElementsOf(rows).Some? && |ElementsOf(rows).value| == |rows|
    ensures forall i :: 0 <= i < |rows| ==> ElementsOf(rows).value[i] == ElementOf(rows[i]).value
  {
    hide ElementOf;
    if rows != [] {
      ElementsOfAll(rows[..|rows| - 1]);
    }
  }
}
