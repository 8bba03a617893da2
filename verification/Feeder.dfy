/** The feeder: translation of a signal's name and value between the two domains. */
module Feeder {
  import opened Text
  import opened Json
  import opened PathList
  import opened ConversionTool

  datatype DomainData = DomainData(name: string, value: string)

  // ---------------------------------------------------------------- enumConversion

  /** The Go map of a JSON object: the last of equal keys wins. */
  function MapOf(members: seq<Member>): map<string, Json> {
    if members == [] then map[]
    else MapOf(members[..|members| - 1])[members[|members| - 1].key := members[|members| - 1].value]
  }

  /** What enumConversion may return; a Go map is visited in any order. None stands for the failed type assertion. */
  ghost predicate EnumConverted(enumObj: map<string, Json>, north2South: bool, value: string, out: Option<string>) {
    if north2South then
      out == if value !in enumObj then Some("") else if enumObj[value].Str? then Some(enumObj[value].text) else None
    else
      match out
      case None => exists k :: k in enumObj && !enumObj[k].Str?
      case Some(k) => (k in enumObj && enumObj[k] == Str(value))
                      || (k == "" && forall j :: j in enumObj ==> enumObj[j].Str? && enumObj[j] != Str(value))
  }

  method EnumConversion(enumObj: map<string, Json>, north2South: bool, inValue: string) returns (out: Option<string>)
    ensures EnumConverted(enumObj, north2South, inValue, out)
  {
    var keys := enumObj.Keys;
    while keys != {}
      invariant keys <= enumObj.Keys
      invariant forall k :: k in enumObj && k !in keys ==>
                  if north2South then k != inValue else enumObj[k].Str? && enumObj[k] != Str(inValue)
      decreases |keys|
    {
      var k :| k in keys;
      keys := keys - {k};
      if north2South {
        if k == inValue {
          return if enumObj[k].Str? then Some(enumObj[k].text) else None;
        }
      } else if !enumObj[k].Str? {
        return None;
      } else if enumObj[k].text == inValue {
        return Some(k);
      }
    }
    return Some("");
  }

  // ---------------------------------------------------------------- linearConversion

  /** The type assertion .(float64). */
  function Number(j: Json, fl: Floats): Option<real> {
    if j.Lit? && IsNumber(j.token) then fl.parse(j.token) else None
  }

  /** Unmarshalling fails on a number out of range, wherever it stands. */
  predicate InRange(j: Json, fl: Floats)
    decreases j, 0
  {
    match j
    case Str(_) => true
    case Lit(token) => IsNumber(token) ==> fl.parse(token).Some?
    case Arr(items) => forall i :: 0 <= i < |items| ==> InRange(items[i], fl)
    case Obj(members) => forall i :: 0 <= i < |members| ==> InRange(members[i].value, fl)
  }

  /** y = A x + B to the south, x = (y - B) / A to the north. */
  function Linear(coeffs: seq<Json>, north2South: bool, value: string, fl: Floats): Option<string> {
    match fl.parse(value)
    case None => Some("")
    case Some(x) =>
      if |coeffs| < 2 then None
      else
        var a :- Number(coeffs[0], fl);
        var b :- Number(coeffs[1], fl);
        if north2South then Some(fl.print_(Scale(a, b, x)))
        else if a == 0.0 then Some(fl.byZero(x - b))
        else Some(fl.print_(Unscale(a, b, x)))
  }

  function Scale(a: real, b: real, x: real): real {
    a * x + b
  }

  function Unscale(a: real, b: real, y: real): real
    requires a != 0.0
  {
    (y - b) / a
  }

  // ---------------------------------------------------------------- convertValue

  ghost predicate ValueConverted(value: string, convertIndex: UInt16, scaling: seq<string>, north2South: bool,
                                 fl: Floats, out: Option<string>)
  {
    if convertIndex == 0 then out == Some(value)
    else if convertIndex > |scaling| then out == None
    else
      match Parse(scaling[convertIndex - 1])
      case None => out == Some("")
      case Some(j) =>
        if !InRange(j, fl) || j == NULL then out == Some("")
        else if j.Obj? then EnumConverted(MapOf(j.members), north2South, value, out)
        else if j.Arr? then out == Linear(j.items, north2South, value, fl)
        else out == None
  }

  method ConvertValue(value: string, convertIndex: UInt16, scaling: seq<string>, north2South: bool, fl: Floats)
    returns (out: Option<string>)
    ensures ValueConverted(value, convertIndex, scaling, north2South, fl, out)
  {
    if convertIndex == 0 {
      return Some(value);
    }
    if convertIndex > |scaling| {
      return None;
    }
    var convertData := Parse(scaling[convertIndex - 1]);
    if convertData == None || !InRange(convertData.value, fl) {
      return Some("");
    }
    match convertData.value {
      case Obj(members) =>
        out := EnumConversion(MapOf(members), north2South, value);
      case Arr(items) =>
        out := Linear(items, north2South, value, fl);
      case Lit(token) =>
        out := if token == "null" then Some("") else None;
      case Str(_) =>
        out := None;
    }
  }

  // ---------------------------------------------------------------- convertDomainData

  function Names(fmap: seq<Element>): (names: seq<string>)
    ensures |names| == |fmap|
    ensures forall i :: 0 <= i < |fmap| ==> names[i] == fmap[i].name
  {
    seq(|fmap|, i requires 0 <= i < |fmap| => fmap[i].name)
  }

  /** The element that the search lands on, or -1. */
  function MatchIndex(fmap: seq<Element>, name: string): (i: int)
    ensures -1 <= i < |fmap|
  {
    if Found(Names(fmap), name) then SearchIndex(Names(fmap), name) else -1
  }

  /** None stands for a panic: the name is not found (its index -1 is used all the same), its partner lies outside
      the array, or there is no such scaling text. */
  ghost predicate DataConverted(north2South: bool, inData: DomainData, fmap: seq<Element>, scaling: seq<string>,
                                fl: Floats, out: Option<DomainData>)
  {
    var i := MatchIndex(fmap, inData.name);
    if i < 0 || fmap[i].mapIndex >= |fmap| then out == None
    else if out == None then ValueConverted(inData.value, fmap[i].convertIndex, scaling, north2South, fl, None)
    else out.value.name == fmap[fmap[i].mapIndex].name
         && ValueConverted(inData.value, fmap[i].convertIndex, scaling, north2South, fl, Some(out.value.value))
  }

  method ConvertDomainData(north2South: bool, inData: DomainData, fmap: seq<Element>, scaling: seq<string>, fl: Floats)
    returns (out: Option<DomainData>)
    ensures DataConverted(north2South, inData, fmap, scaling, fl, out)
  {
    var matchIndex: int := Search(Names(fmap), inData.name);
    if matchIndex == |fmap| || fmap[matchIndex].name != inData.name {
      matchIndex := -1;
    }
    if matchIndex < 0 || fmap[matchIndex].mapIndex >= |fmap| {
      return None;
    }
    var name := fmap[fmap[matchIndex].mapIndex].name;
    var value := ConvertValue(inData.value, fmap[matchIndex].convertIndex, scaling, north2South, fl);
    return if value == None then None else Some(DomainData(name, value.value));
  }

  // ---------------------------------------------------------------- conversions back and forth

  lemma {:induction false} MapOfMembers(north: seq<string>, south: seq<string>)
    requires |north| == |south| && Distinct(north)
    ensures var m := MapOf(EnumMembers(north, south));
            (forall i :: 0 <= i < |north| ==> north[i] in m && m[north[i]] == Str(south[i]))
            && (forall k :: k in m ==> k in north)
  {
    if north != [] {
      var n, ms := |north| - 1, EnumMembers(north, south);
      assert ms[..n] == EnumMembers(north[..n], south[..n]);
      MapOfMembers(north[..n], south[..n]);
      MapOfLast(ms);
      hide MapOf, EnumMembers;
      assert forall i :: 0 <= i < n ==> north[..n][i] == north[i] && south[..n][i] == south[i] && north[i] != north[n];
      assert forall k :: k in north[..n] ==> k in north;
    }
  }

  lemma MapOfLast(ms: seq<Member>)
    requires ms != []
    ensures MapOf(ms) == MapOf(ms[..|ms| - 1])[ms[|ms| - 1].key := ms[|ms| - 1].value]
  {
  }

  /** From south to north and on to south an enumerated value comes back, and each listed value goes to its partner. */
  lemma EnumForward(north: seq<string>, south: seq<string>, i: nat, out: Option<string>)
    requires i < |north| == |south| && Distinct(north)
    ensures var m := MapOf(EnumMembers(north, south));
            && (EnumConverted(m, true, north[i], out) <==> out == Some(south[i]))
            && (EnumConverted(m, false, south[i], out)
                <==> exists k :: 0 <= k < |north| && south[k] == south[i] && out == Some(north[k]))
  {
    MapOfMembers(north, south);
    var m := MapOf(EnumMembers(north, south));
    if EnumConverted(m, false, south[i], out) {
      assert m[north[i]] == Str(south[i]) && forall k :: k in m ==> exists j :: 0 <= j < |north| && north[j] == k;
      assert out.Some? && out.value in m;
    }
  }

  /** There and back from the north is certain to be the identity on the listed values exactly when no two of them
      have the same value in the south. */
  lemma EnumRoundTripIff(north: seq<string>, south: seq<string>)
    requires |north| == |south| && Distinct(north)
    ensures var m := MapOf(EnumMembers(north, south));
            (forall i, to, back :: 0 <= i < |north|
               && EnumConverted(m, true, north[i], Some(to)) && EnumConverted(m, false, to, Some(back))
               ==> back == north[i])
            <==> Distinct(south)
  {
    var m := MapOf(EnumMembers(north, south));
    forall i, to, back | 0 <= i < |north| && Distinct(south)
                         && EnumConverted(m, true, north[i], Some(to)) && EnumConverted(m, false, to, Some(back))
      ensures back == north[i]
    {
      EnumForward(north, south, i, Some(to));
      EnumForward(north, south, i, Some(back));
    }
    if i, j :| 0 <= i < j < |south| && south[i] == south[j] {
      EnumForward(north, south, i, Some(south[i]));
      EnumForward(north, south, i, Some(north[j]));
      assert EnumConverted(m, true, north[i], Some(south[i])) && EnumConverted(m, false, south[i], Some(north[j]));
      assert north[i] != north[j];
    }
  }

  /** A value that is not listed becomes the empty text. */
  lemma EnumOthers(north: seq<string>, south: seq<string>, value: string, out: Option<string>)
    requires |north| == |south| && Distinct(north)
    ensures var m := MapOf(EnumMembers(north, south));
            && (value !in north ==> (EnumConverted(m, true, value, out) <==> out == Some("")))
            && (value !in south ==> (EnumConverted(m, false, value, out) <==> out == Some("")))
  {
    MapOfMembers(north, south);
    hide MapOf, EnumMembers;
    var m := MapOf(EnumMembers(north, south));
    forall k | k in m ensures m[k].Str? && m[k].text in south {
      var i :| 0 <= i < |north| && north[i] == k;
    }
  }

  /** Linear conversion there and back gives the number that went in, if what is printed is read back exactly. */
  lemma LinearRoundTrip(cs: seq<Json>, a: real, b: real, value: string, fl: Floats)
    requires |cs| == 2 && Number(cs[0], fl) == Some(a) && Number(cs[1], fl) == Some(b)
    requires a != 0.0 && fl.parse(value).Some?
    requires var y := a * fl.parse(value).value + b; fl.parse(fl.print_(y)) == Some(y)
    ensures Linear(cs, true, value, fl) == Some(fl.print_(a * fl.parse(value).value + b))
    ensures Linear(cs, false, Linear(cs, true, value, fl).value, fl) == Some(fl.print_(fl.parse(value).value))
  {
    ScaleIs(a, b, fl.parse(value).value);
    hide Scale, Unscale, Number;
    UnscaleOfScale(a, b, fl.parse(value).value);
  }

  lemma ScaleIs(a: real, b: real, x: real)
    ensures Scale(a, b, x) == a * x + b
  {
  }

  lemma UnscaleOfScale(a: real, b: real, x: real)
    requires a != 0.0
    ensures Unscale(a, b, Scale(a, b, x)) == x
  {
    assert Scale(a, b, x) - b == x * a;
  }

  /** The enumeration text that the tool interns is read as the map of the two lists. */
  lemma EnumTextRead(north: seq<string>, south: seq<string>)
    requires |north| == |south|
    requires forall i :: 0 <= i < |north| ==> RawText(north[i]) && RawText(south[i])
    ensures Parse(EnumText(north, south)) == Some(Obj(EnumMembers(north, south)))
  {
    var j := Obj(EnumMembers(north, south));
    ParseOfPrint(j, SPACED, "");
    assert Print(j, SPACED) + "" == Print(j, SPACED);
    hide Print, Parse;
  }
}
