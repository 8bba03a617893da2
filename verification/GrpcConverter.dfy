/** The converter's loops over its compression setting, proved against the JSON values of module Grpc. */
module GrpcConverter {
  import opened Text
  import opened PathList
  import opened Json
  import opened Grpc

  // ---------------------------------------------------------------- texts of members

  /** Members appended one by one, each behind a comma. */
  function Appended(ms: seq<Member>): string {
    if ms == [] then "" else "," + MemberText(ms[0]) + Appended(ms[1..])
  }

  lemma {:induction false} MembersAreAppended(ms: seq<Member>)
    requires ms != []
    ensures PrintMembers(ms, UNESCAPED) == MemberText(ms[0]) + Appended(ms[1..]) + "}"
  {
    hide Print;
    if |ms| == 1 {
      assert Appended(ms[1..]) == "";
      assert MemberText(ms[0]) + "" + "}" == MemberText(ms[0]) + "}";
    } else {
      MembersAreAppended(ms[1..]);
      Chain(MemberText(ms[0]), MemberText(ms[1]), Appended(ms[1..][1..]));
    }
  }

  lemma Chain(first: string, second: string, rest: string)
    ensures first + ("," + "" + (second + rest + "}")) == first + ("," + second + rest) + "}"
  {
  }

  /** A message text: the first member, the appended ones, and the braces. */
  lemma ObjectText(ms: seq<Member>)
    requires ms != []
    ensures Print(Obj(ms), UNESCAPED) == "{" + MemberText(ms[0]) + Appended(ms[1..]) + "}"
  {
    hide MemberText, Appended, PrintMembers;
    MembersAreAppended(ms);
  }

  lemma {:induction false} AppendedConcat(a: seq<Member>, b: seq<Member>)
    ensures Appended(a + b) == Appended(a) + Appended(b)
  {
    hide MemberText;
    if a == [] {
      assert a + b == b;
    } else {
      assert (a + b)[1..] == a[1..] + b;
      AppendedConcat(a[1..], b);
    }
  }

  lemma AppendedOne(m: Member)
    ensures Appended([m]) == "," + MemberText(m)
  {
    hide MemberText;
    assert [m][1..] == [];
  }

  /** The text of a string member. */
  function FieldString(key: string, value: string): string {
    "\"" + key + "\":\"" + value + "\""
  }

  lemma FieldText(key: string, value: string)
    ensures MemberText(Field(key, value)) == FieldString(key, value)
  {
    assert "\"" + key + "\":" + ("\"" + value + "\"") == FieldString(key, value);
  }

  /** The text of an object with two string members. */
  function Pair(k1: string, v1: string, k2: string, v2: string): string {
    "{" + FieldString(k1, v1) + "," + FieldString(k2, v2) + "}"
  }

  lemma PairText(k1: string, v1: string, k2: string, v2: string)
    ensures Print(Obj([Field(k1, v1), Field(k2, v2)]), UNESCAPED) == Pair(k1, v1, k2, v2)
  {
    hide MemberText, Appended, Print, FieldString;
    ObjectText([Field(k1, v1), Field(k2, v2)]);
    assert [Field(k1, v1), Field(k2, v2)][1..] == [Field(k2, v2)];
    AppendedOne(Field(k2, v2));
    FieldText(k1, v1);
    FieldText(k2, v2);
    assert "{" + FieldString(k1, v1) + ("," + FieldString(k2, v2)) + "}" == Pair(k1, v1, k2, v2);
  }

  /** The text of a data package. */
  function PackageString(path: string, dp: string): string {
    "{" + FieldString("path", path) + ",\"dp\":" + dp + "}"
  }

  lemma PackageText(d: DataPackage, path: string, dp: string, c: Config)
    requires PackagePrintable(d, c) && PackagePath(d, c) == Some(path)
    requires dp == Print(Collapsed(PointsJson(d.dp, c)), UNESCAPED)
    ensures Print(PackageJson(d, c), UNESCAPED) == PackageString(path, dp)
  {
    hide Print, PointsJson, FieldString;
    TwoMembers("path", path, "dp", Collapsed(PointsJson(d.dp, c)));
  }

  /** The text of an object with a string member and another one. */
  lemma TwoMembers(k1: string, v1: string, k2: string, j: Json)
    ensures Print(Obj([Field(k1, v1), Member(k2, j)]), UNESCAPED)
         == "{" + FieldString(k1, v1) + (",\"" + k2 + "\":") + Print(j, UNESCAPED) + "}"
  {
    hide Appended, Print, FieldString;
    var a, b := Field(k1, v1), Member(k2, j);
    ObjectText([a, b]);
    assert [a, b][1..] == [b];
    AppendedOne(b);
    FieldText(k1, v1);
    assert "," + MemberText(b) == (",\"" + k2 + "\":") + Print(j, UNESCAPED);
  }

  /** One turn of a printing loop. */
  lemma Shift(lead: string, done: string, item: string)
    ensures lead + done + item + "," == lead + (done + item + ",")
  {
  }

  /** The end of a printing loop: trim the comma, close the array. */
  lemma LoopEnds(items: seq<Json>, text: string)
    requires items != [] && text == (if |items| > 1 then "[" else "") + CommaEach(items, UNESCAPED)
    ensures text != ""
    ensures text[..|text| - 1] + (if |items| > 1 then "]" else "") == Print(Collapsed(items), UNESCAPED)
  {
    TrimmedIsJoined(items, UNESCAPED);
    var s := CommaEach(items, UNESCAPED);
    assert Cut(s) == s[..|s| - 1];
    hide Cut;
    if |items| == 1 {
      OneWithComma(items[0]);
      hide CommaEach, Print;
      assert items == [items[0]];
      TrimBehind("", s);
    } else {
      ArrayText(items);
      hide CommaEach, PrintItems, Print;
      TrimBehind("[", s);
    }
  }

  lemma ArrayText(items: seq<Json>)
    requires items != []
    ensures Print(Arr(items), UNESCAPED) == "[" + PrintItems(items, UNESCAPED)
  {
    hide PrintItems;
    assert "[" + "" + PrintItems(items, UNESCAPED) == "[" + PrintItems(items, UNESCAPED);
  }

  lemma TrimBehind(lead: string, s: string)
    requires s != ""
    ensures var t := lead + s; t != "" && t[..|t| - 1] + "" == lead + s[..|s| - 1]
    ensures var t := lead + s; t[..|t| - 1] + "]" == lead + (s[..|s| - 1] + "]")
    ensures "" + s[..|s| - 1] == s[..|s| - 1]
  {
  }

  lemma OneWithComma(j: Json)
    ensures CommaEach([j], UNESCAPED)[..|CommaEach([j], UNESCAPED)| - 1] == Print(j, UNESCAPED)
  {
    assert [j][..0] == [];
    assert CommaEach([j], UNESCAPED) == "" + Print(j, UNESCAPED) + ",";
  }

  lemma LoopStep(items: seq<Json>, i: nat)
    requires i < |items|
    ensures CommaEach(items[..i + 1], UNESCAPED) == CommaEach(items[..i], UNESCAPED) + Print(items[i], UNESCAPED) + ","
  {
    assert items[..i + 1][..i] == items[..i];
  }

  function Printed(o: Option<Json>): Option<string> {
    match o case None => None case Some(j) => Some(Print(j, UNESCAPED))
  }

  class Converter {
    var currentCompression: Level
    const paths: seq<string>
    const packTime: string -> Int32
    const unpackTime: Int32 -> string
    const marshal: Option<Json> -> string

    constructor (paths: seq<string>, packTime: string -> Int32, unpackTime: Int32 -> string,
                 marshal: Option<Json> -> string)
      ensures Cfg() == Config(LEVEL1, paths, packTime, unpackTime, marshal)
    {
      this.paths, this.packTime, this.unpackTime, this.marshal := paths, packTime, unpackTime, marshal;
      currentCompression := LEVEL1;
    }

    function Cfg(): Config
      reads this`currentCompression
    {
      Config(currentCompression, paths, packTime, unpackTime, marshal)
    }

    // -------------------------------------------------------------- printing; None stands for a panic

    method GetJsonDp(d: DataPackage) returns (r: Option<string>)
      ensures r == if d.dp == [] then None else Some(Print(Collapsed(PointsJson(d.dp, Cfg())), UNESCAPED))
    {
      hide Print, CommaEach, Pair;
      var dp := if |d.dp| > 1 then "[" else "";
      ghost var lead, items := dp, PointsJson(d.dp, Cfg());
      CommaEachNothing([], UNESCAPED);
      for i := 0 to |d.dp|
        invariant dp == lead + CommaEach(items[..i], UNESCAPED)
      {
        var value, ts := d.dp[i].value, PointTs(d.dp[i], Cfg());
        LoopStep(items, i);
        PairText("value", value, "ts", ts);
        Shift(lead, CommaEach(items[..i], UNESCAPED), Pair("value", value, "ts", ts));
        dp := dp + Pair("value", value, "ts", ts) + ",";
      }
      assert items[..|items|] == items;
      if |d.dp| > 0 {
        LoopEnds(items, dp);
      }
      if |dp| == 0 {
        return None;
      }
      dp := dp[..|dp| - 1];
      assert dp + "" == dp;
      if |d.dp| > 1 {
        dp := dp + "]";
      }
      return Some(dp);
    }

    method CreateJsonData(dataPack: seq<DataPackage>) returns (r: Option<string>)
      ensures r == if !DataPrintable(dataPack, Cfg()) then None
                   else Some(",\"data\":" + Print(DataJson(dataPack, Cfg()), UNESCAPED))
    {
      hide Print, CommaEach, PackageJson, PackageString, IndexToPath, Collapsed, PointsJson;
      var data := if |dataPack| > 1 then "[" else "";
      ghost var lead := data;
      CommaEachNothing([], UNESCAPED);
      for i := 0 to |dataPack|
        invariant forall k :: 0 <= k < i ==> PackagePrintable(dataPack[k], Cfg())
        invariant data == lead + CommaEach(PackagesJson(dataPack[..i], Cfg()), UNESCAPED)
      {
        var path := PackagePath(dataPack[i], Cfg());
        var dp := GetJsonDp(dataPack[i]);
        if path.None? || dp.None? {
          return None;
        }
        data := data + PackageString(path.value, dp.value) + ",";
        ghost var items := PackagesJson(dataPack[..i + 1], Cfg());
        assert items[..i] == PackagesJson(dataPack[..i], Cfg()) && items[..i + 1] == items;
        LoopStep(items, i);
        PackageText(dataPack[i], path.value, dp.value, Cfg());
        Shift(lead, CommaEach(items[..i], UNESCAPED), PackageString(path.value, dp.value));
      }
      assert dataPack[..|dataPack|] == dataPack;
      if |dataPack| > 0 {
        LoopEnds(PackagesJson(dataPack, Cfg()), data);
      }
      if |data| == 0 {
        return None;
      }
      data := data[..|data| - 1];
      assert data + "" == data;
      if |dataPack| > 1 {
        data := data + "]";
      }
      return Some(",\"data\":" + data);
    }

    method GetJsonFilterValuePaths(relativePaths: seq<string>) returns (r: Option<string>)
      ensures r == if relativePaths == [] then None else Some(Print(Collapsed(TextsJson(relativePaths)), UNESCAPED))
    {
      hide CommaEach;
      var value := if |relativePaths| > 1 then "[" else "";
      ghost var lead, items := value, TextsJson(relativePaths);
      CommaEachNothing([], UNESCAPED);
      for i := 0 to |relativePaths|
        invariant value == lead + CommaEach(items[..i], UNESCAPED)
      {
        LoopStep(items, i);
        Shift(lead, CommaEach(items[..i], UNESCAPED), Quoted(relativePaths[i]));
        value := value + Quoted(relativePaths[i]) + ",";
      }
      assert items[..|items|] == items;
      if |relativePaths| > 0 {
        LoopEnds(items, value);
      }
      if |value| == 0 {
        return None;
      }
      value := value[..|value| - 1];
      assert value + "" == value;
      if |relativePaths| > 1 {
        value := value + "]";
      }
      return Some(value);
    }

    method GetJsonFilterValueRange(rangeValue: seq<RangeValue>) returns (r: Option<string>)
      ensures r == if rangeValue == [] then None else Some(Print(Collapsed(RangesJson(rangeValue)), UNESCAPED))
    {
      hide Print, CommaEach, Pair;
      var value := if |rangeValue| > 1 then "[" else "";
      ghost var lead, items := value, RangesJson(rangeValue);
      CommaEachNothing([], UNESCAPED);
      for i := 0 to |rangeValue|
        invariant value == lead + CommaEach(items[..i], UNESCAPED)
      {
        var op, boundary := rangeValue[i].logicOp, rangeValue[i].boundary;
        LoopStep(items, i);
        PairText("logic-op", op, "boundary", boundary);
        Shift(lead, CommaEach(items[..i], UNESCAPED), Pair("logic-op", op, "boundary", boundary));
        value := value + Pair("logic-op", op, "boundary", boundary) + ",";
      }
      assert items[..|items|] == items;
      if |rangeValue| > 0 {
        LoopEnds(items, value);
      }
      if |value| == 0 {
        return None;
      }
      value := value[..|value| - 1];
      assert value + "" == value;
      if |rangeValue| > 1 {
        value := value + "]";
      }
      return Some(value);
    }

    method SynthesizeFilter(f: Filter) returns (r: Option<string>)
      ensures r == if FilterPrintable(f) then Some(Print(FilterJson(f), UNESCAPED)) else None
    {
      hide Print, Pair;
      var value := "";
      match f {
        case Paths(relative) =>
          var paths := GetJsonFilterValuePaths(relative);
          if paths.None? {
            return None;
          }
          value := paths.value;
        case Timebased(period) =>
          value := "{" + FieldString("period", period) + "}";
          SingleText("period", period);
        case Range(bounds) =>
          var ranges := GetJsonFilterValueRange(bounds);
          if ranges.None? {
            return None;
          }
          value := ranges.value;
        case Change(op, diff) =>
          value := Pair("logic-op", op, "diff", diff);
          PairText("logic-op", op, "diff", diff);
        case Curvelog(maxErr, bufSize) =>
          value := Pair("maxerr", maxErr, "bufsize", bufSize);
          PairText("maxerr", maxErr, "bufsize", bufSize);
        case History(timePeriod) =>
          value := Quoted(timePeriod);
          QuotedText(timePeriod);
        case StaticMetadata(tree) =>
          value := tree;
          LitText(tree);
        case DynamicMetadata(domain) =>
          value := domain;
          LitText(domain);
        case Undefined =>
          LitText("");
      }
      FilterText(f, value);
      return Some("{" + FieldString("type", FilterType(f)) + ",\"parameter\":" + value + "}");
    }

    method GetJsonFilter(filter: Option<seq<Filter>>) returns (r: Option<string>)
      ensures r == if filter.None? then Some("")
                   else if FiltersPrintable(filter.value)
                   then Some(",\"filter\":" + Print(FiltersJson(filter.value), UNESCAPED)) else None
    {
      hide Print, CommaEach, FilterJson, FilterPrintable;
      if filter.None? {
        return Some("");
      }
      var filterExp := filter.value;
      var jsonFilter := if |filterExp| > 1 then "[" else "";
      ghost var lead := jsonFilter;
      CommaEachNothing([], UNESCAPED);
      for i := 0 to |filterExp|
        invariant forall k :: 0 <= k < i ==> FilterPrintable(filterExp[k])
        invariant jsonFilter == lead + CommaEach(FilterItems(filterExp[..i]), UNESCAPED)
      {
        var one := SynthesizeFilter(filterExp[i]);
        if one.None? {
          return None;
        }
        jsonFilter := jsonFilter + one.value + ",";
        ghost var items := FilterItems(filterExp[..i + 1]);
        assert items[..i] == FilterItems(filterExp[..i]) && items[..i + 1] == items;
        LoopStep(items, i);
        Shift(lead, CommaEach(items[..i], UNESCAPED), one.value);
      }
      assert filterExp[..|filterExp|] == filterExp;
      if |filterExp| > 0 {
        LoopEnds(FilterItems(filterExp), jsonFilter);
      }
      if |jsonFilter| == 0 {
        return None;
      }
      jsonFilter := jsonFilter[..|jsonFilter| - 1];
      assert jsonFilter + "" == jsonFilter;
      if |filterExp| > 1 {
        jsonFilter := jsonFilter + "]";
      }
      return Some(",\"filter\":" + jsonFilter);
    }

    method CreateJSON(value: string, key: string) returns (r: string)
      ensures r == Appended(OptField(key, value))
    {
      if |value| > 0 {
        AppendedOne(Field(key, value));
        FieldText(key, value);
        r := "," + FieldString(key, value);
      } else {
        r := "";
      }
    }

    method GetResponsePbToJson(m: GetResponse, compression: Level) returns (r: Option<string>)
      modifies this`currentCompression
      ensures currentCompression == compression
      ensures r == Printed(GetResponseJson(m, Cfg()))
    {
      currentCompression := compression;
      hide Print, DataPrintable, DataJson, ErrorJson, Appended, MemberText, OptField, FieldString, ErrorText;
      var body := Some("");
      if m.status == SUCCESS {
        body := CreateJsonData(SuccessData(m.success));
      } else {
        body := Some(ErrorText(m.error));
        ErrorTextIs(m.error);
      }
      if body.None? {
        return None;
      }
      var ts := Ts(m.ts, m.tsC, Cfg());
      var requestId := CreateJSON(Get(m.requestId, ""), "requestId");
      var authorization := CreateJSON(Get(m.authorization, ""), "authorization");
      var jsonMessage := "{" + FieldString("action", "get") + body.value + ("," + FieldString("ts", ts))
                         + requestId + authorization + "}";
      BodyText(BodyMember(m.status, m.success, m.error, Cfg()), body.value, m.status == SUCCESS);
      MessageText("get", [BodyMember(m.status, m.success, m.error, Cfg())], body.value, ts,
                  OptField("requestId", Get(m.requestId, "")), OptField("authorization", Get(m.authorization, "")));
      ghost var o1, o2 := OptField("requestId", Get(m.requestId, "")),
          OptField("authorization", Get(m.authorization, ""));
      ghost var a, b, t := Field("action", "get"), BodyMember(m.status, m.success, m.error, Cfg()), Field("ts", ts);
      assert [a] + [b] + [t] + o1 + o2 == [a, b, t] + o1 + o2;
      return Some(jsonMessage);
    }

    method SubscribeStreamPbToJson(m: SubscribeStream, compression: Level) returns (r: Option<string>)
      modifies this`currentCompression
      ensures currentCompression == compression
      ensures r == Printed(StreamJson(m, Cfg()))
    {
      currentCompression := compression;
      match m {
        case Response(status, response) =>
          var text := ResponseText(status, response);
          return Some(text);
        case Event(status, event) =>
          r := EventText(status, event);
      }
    }

    method ResponseText(status: Status, response: Option<SubscribeResponse>) returns (r: string)
      ensures Some(r) == Printed(StreamJson(Response(status, response), Cfg()))
    {
      hide Print, ErrorJson, Appended, MemberText, OptField, FieldString, ErrorText;
      var m := Get(response, SubscribeResponse(None, None, "", "", None));
      var jsonMessage := "{" + FieldString("action", "subscribe");
      var error := if status == ERROR then ErrorText(m.error) else "";
      var subId := CreateJSON(Get(m.subscriptionId, ""), "subscriptionId");
      var requestId := CreateJSON(m.requestId, "requestId");
      var authorization := CreateJSON(Get(m.authorization, ""), "authorization");
      jsonMessage := jsonMessage + error + ("," + FieldString("ts", m.ts)) + subId + requestId + authorization + "}";
      ghost var body := if status == ERROR then [Member("error", ErrorJson(m.error))] else [];
      ghost var o0 := OptField("subscriptionId", Get(m.subscriptionId, ""));
      ghost var o1, o2 := OptField("requestId", m.requestId), OptField("authorization", Get(m.authorization, ""));
      if status == ERROR {
        ErrorTextIs(m.error);
        BodyText(Member("error", ErrorJson(m.error)), error, false);
      }
      AppendedNothing();
      assert Appended(body) == error;
      LongMessageText("subscribe", body, error, m.ts, o0, o1, o2);
      return jsonMessage;
    }

    method EventText(status: Status, event: Option<SubscribeEvent>) returns (r: Option<string>)
      ensures r == Printed(StreamJson(Event(status, event), Cfg()))
    {
      hide Print, DataPrintable, DataJson, ErrorJson, Appended, MemberText, OptField, FieldString, ErrorText;
      var m := Get(event, SubscribeEvent("", None, None, None, None));
      var body := Some("");
      if status == SUCCESS {
        if event.None? {
          return None;
        }
        body := CreateJsonData(SuccessData(m.success));
      } else {
        body := Some(ErrorText(m.error));
        ErrorTextIs(m.error);
      }
      if body.None? {
        return None;
      }
      var ts := Ts(m.ts, m.tsC, Cfg());
      var subId := CreateJSON(m.subscriptionId, "subscriptionId");
      var jsonMessage := "{" + FieldString("action", "subscription") + body.value + ("," + FieldString("ts", ts))
          + subId + "}";
      ghost var member := BodyMember(status, m.success, m.error, Cfg());
      ghost var o1 := OptField("subscriptionId", m.subscriptionId);
      BodyText(member, body.value, status == SUCCESS);
      MessageText("subscription", [member], body.value, ts, o1, []);
      AppendedNothing();
      ghost var a, t := Field("action", "subscription"), Field("ts", ts);
      assert [a] + [member] + [t] + o1 + [] == [a, member, t] + o1;
      assert jsonMessage == "{" + FieldString("action", "subscription") + body.value + ("," + FieldString("ts", ts))
                            + subId + "" + "}";
      return Some(jsonMessage);
    }

    method RequestPbToJson(m: Request) returns (r: Option<string>)
      ensures r == Printed(RequestJson(m))
    {
      hide Print, FiltersJson, FiltersPrintable, Appended, MemberText, OptField, FieldString;
      var filter := GetJsonFilter(m.filter);
      if filter.None? {
        return None;
      }
      var authorization := CreateJSON(Get(m.authorization, ""), "authorization");
      var requestId := CreateJSON(Get(m.requestId, ""), "requestId");
      var jsonMessage := "{" + FieldString("action", m.action) + ("," + FieldString("path", m.path)) + filter.value
                         + authorization + requestId + "}";
      ghost var body := if m.filter.Some? then [Member("filter", FiltersJson(m.filter.value))] else [];
      ghost var o1, o2 := OptField("authorization", Get(m.authorization, "")),
          OptField("requestId", Get(m.requestId, ""));
      AppendedNothing();
      if m.filter.Some? {
        FilterMember(FiltersJson(m.filter.value), filter.value);
      }
      RequestText(m.action, m.path, body, filter.value, o1, o2);
      return Some(jsonMessage);
    }

    // -------------------------------------------------------------- reading

    method CreateDataPoints(items: seq<Json>) returns (r: Option<seq<DataPoint>>)
      ensures r == ReadPoints(items, Cfg())
    {
      hide ReadPoint;
      var dp := [];
      for i := 0 to |items|
        invariant ReadPoints(items[..i], Cfg()) == Some(dp)
      {
        var point := ReadPoint(items[i], Cfg());
        assert items[..i + 1][..i] == items[..i];
        if point.None? {
          PointsFail(items, i, Cfg());
          return None;
        }
        dp := dp + [point.value];
      }
      assert items[..|items|] == items;
      return Some(dp);
    }

    method CreateDataElements(items: seq<Json>) returns (r: Option<seq<DataPackage>>)
      ensures r == ReadPackages(items, Cfg())
    {
      hide ReadPoints;
      var data := [];
      for i := 0 to |items|
        invariant ReadPackages(items[..i], Cfg()) == Some(data)
      {
        assert items[..i + 1][..i] == items[..i];
        var package := CreateDataElement(items[i]);
        if package.None? {
          PackagesFail(items, i, Cfg());
          return None;
        }
        data := data + [package.value];
      }
      assert items[..|items|] == items;
      return Some(data);
    }

    method CreateDataElement(j: Json) returns (r: Option<DataPackage>)
      ensures r == ReadPackage(j, Cfg())
    {
      var members :- AsObject(Some(j));
      var path :- AsString(Lookup(members, "path"));
      var points := CreateDataPoints(Spread(Entry(members, "dp")));
      if points.None? {
        return None;
      }
      if currentCompression == LEVEL1 {
        return Some(DataPackage(Some(path), None, points.value));
      }
      var pathC := CompressPath(paths, path);
      return Some(DataPackage(None, Some(ToInt32(pathC)), points.value));
    }

    /** None where the text is no JSON object or the reader panics. */
    method GetResponseJsonToPb(text: string, compression: Level) returns (r: Option<GetResponse>)
      modifies this`currentCompression
      ensures currentCompression == compression
      ensures r == match Unmarshal(text) case None => None case Some(members) => ReadGetResponse(members, Cfg())
    {
      hide ReadPackages, ReadError;
      currentCompression := compression;
      var members :- Unmarshal(text);
      var requestId :- AsString(Lookup(members, "requestId"));
      var ts :- AsString(Lookup(members, "ts"));
      var auth :- OptString(Entry(members, "authorization"));
      var m := GetResponse(SUCCESS, None, None, Some(requestId), None, None, auth);
      if currentCompression == LEVEL1 {
        m := m.(ts := Some(ts));
      } else {
        m := m.(tsC := Some(packTime(ts)));
      }
      if Entry(members, "error").None? {
        var items := Spread(Entry(members, "data"));
        if |items| > 0 {
          var data := CreateDataElements(items);
          if data.None? {
            return None;
          }
          m := m.(success := Some(Success(Some(data.value), None)));
        } else {
          m := m.(success := Some(Success(None, Some(marshal(Entry(members, "metadata"))))));
        }
      } else {
        var e :- ReadError(Entry(members, "error"));
        m := m.(status := ERROR, error := Some(e));
      }
      return Some(m);
    }
  }

  lemma SingleText(k: string, v: string)
    ensures Print(Obj([Field(k, v)]), UNESCAPED) == "{" + FieldString(k, v) + "}"
  {
    ObjectText([Field(k, v)]);
    FieldText(k, v);
    assert Appended([Field(k, v)][1..]) == "";
    hide Print, Appended, MemberText, FieldString;
  }

  lemma QuotedText(v: string)
    ensures Print(Str(v), UNESCAPED) == Quoted(v)
  {
  }

  lemma LitText(v: string)
    ensures Print(Lit(v), UNESCAPED) == v
  {
  }

  lemma FilterText(f: Filter, value: string)
    requires FilterPrintable(f) && value == Print(ParameterJson(f), UNESCAPED)
    ensures Print(FilterJson(f), UNESCAPED)
            == "{" + FieldString("type", FilterType(f)) + ",\"parameter\":" + value + "}"
  {
    hide Print, ParameterJson, FilterType, FieldString;
    TwoMembers("type", FilterType(f), "parameter", ParameterJson(f));
  }

  /** getJsonError. */
  function ErrorText(e: Option<ErrorResponse>): string {
    var error := Get(e, ErrorResponse("", None, None));
    ",\"error\":" + ("{" + FieldString("number", error.number) + "," + FieldString("reason", Get(error.reason, ""))
                     + "," + FieldString("message", Get(error.message, "")) + "}")
  }

  lemma ErrorTextIs(e: Option<ErrorResponse>)
    ensures ErrorText(e) == ",\"error\":" + Print(ErrorJson(e), UNESCAPED)
  {
    hide Print, Appended, MemberText, FieldString;
    var error := Get(e, ErrorResponse("", None, None));
    ThreeFields("number", error.number, "reason", Get(error.reason, ""), "message", Get(error.message, ""));
  }

  lemma ThreeFields(k1: string, v1: string, k2: string, v2: string, k3: string, v3: string)
    ensures Print(Obj([Field(k1, v1), Field(k2, v2), Field(k3, v3)]), UNESCAPED)
         == "{" + FieldString(k1, v1) + "," + FieldString(k2, v2) + "," + FieldString(k3, v3) + "}"
  {
    hide Print, Appended, MemberText, FieldString;
    var a, b, c := Field(k1, v1), Field(k2, v2), Field(k3, v3);
    ObjectText([a, b, c]);
    assert [a, b, c][1..] == [b] + [c];
    AppendedConcat([b], [c]);
    AppendedOne(b);
    AppendedOne(c);
    FieldText(k1, v1);
    FieldText(k2, v2);
    FieldText(k3, v3);
    ThreeTexts(FieldString(k1, v1), FieldString(k2, v2), FieldString(k3, v3));
  }

  lemma ThreeTexts(a: string, b: string, c: string)
    ensures "{" + a + ("," + b + ("," + c)) + "}" == "{" + a + "," + b + "," + c + "}"
  {
  }

  lemma BodyText(body: Member, text: string, success: bool)
    requires body.key == if success then "data" else "error"
    requires text == (if success then ",\"data\":" else ",\"error\":") + Print(body.value, UNESCAPED)
    ensures text == Appended([body])
  {
    AppendedOne(body);
    hide Print, Appended;
  }

  /** The text of a message with an action, a body, a time stamp and two optional members. */
  lemma MessageText(action: string, body: seq<Member>, bodyText: string, ts: string, o1: seq<Member>, o2: seq<Member>)
    requires bodyText == Appended(body)
    ensures Print(Obj([Field("action", action)] + body + [Field("ts", ts)] + o1 + o2), UNESCAPED)
         == "{" + FieldString("action", action) + bodyText + ("," + FieldString("ts", ts)) + Appended(o1)
             + Appended(o2) + "}"
  {
    hide Print, Appended, MemberText, FieldString;
    var ms := [Field("action", action)] + body + [Field("ts", ts)] + o1 + o2;
    ObjectText(ms);
    assert ms[1..] == body + [Field("ts", ts)] + o1 + o2;
    AppendedConcat(body + [Field("ts", ts)] + o1, o2);
    AppendedConcat(body + [Field("ts", ts)], o1);
    AppendedConcat(body, [Field("ts", ts)]);
    AppendedOne(Field("ts", ts));
    FieldText("ts", ts);
    FieldText("action", action);
    MessageBraces(FieldString("action", action), bodyText, "," + FieldString("ts", ts), Appended(o1), Appended(o2));
  }

  lemma MessageBraces(action: string, body: string, ts: string, o1: string, o2: string)
    ensures "{" + action + (body + ts + o1 + o2) + "}" == "{" + action + body + ts + o1 + o2 + "}"
  {
  }

  lemma {:induction false} PointsFail(items: seq<Json>, i: nat, c: Config)
    requires i < |items| && ReadPoint(items[i], c) == None
    ensures ReadPoints(items, c) == None
  {
    hide ReadPoint;
    if i < |items| - 1 {
      PointsFail(items[..|items| - 1], i, c);
    }
  }

  lemma {:induction false} PackagesFail(items: seq<Json>, i: nat, c: Config)
    requires i < |items| && ReadPackage(items[i], c) == None
    ensures ReadPackages(items, c) == None
  {
    hide ReadPackage;
    if i < |items| - 1 {
      PackagesFail(items[..|items| - 1], i, c);
    }
  }

  lemma AppendedNothing()
    ensures Appended([]) == ""
  {
  }

  lemma FilterMember(j: Json, text: string)
    requires text == ",\"filter\":" + Print(j, UNESCAPED)
    ensures Appended([Member("filter", j)]) == text
  {
    AppendedOne(Member("filter", j));
    hide Print, Appended;
  }

  lemma LongMessageText(action: string, body: seq<Member>, bodyText: string, ts: string,
                        o0: seq<Member>, o1: seq<Member>, o2: seq<Member>)
    requires bodyText == Appended(body)
    ensures Print(Obj([Field("action", action)] + body + [Field("ts", ts)] + o0 + o1 + o2), UNESCAPED)
         == "{" + FieldString("action", action) + bodyText + ("," + FieldString("ts", ts))
            + Appended(o0) + Appended(o1) + Appended(o2) + "}"
  {
    hide Print, Appended, MemberText, FieldString;
    var start := [Field("action", action)] + body + [Field("ts", ts)];
    assert start + o0 + o1 + o2 == start + (o0 + o1) + o2;
    MessageText(action, body, bodyText, ts, o0 + o1, o2);
    AppendedConcat(o0, o1);
    var text := "{" + FieldString("action", action) + bodyText + ("," + FieldString("ts", ts));
    assert text + (Appended(o0) + Appended(o1)) == text + Appended(o0) + Appended(o1);
  }

  lemma RequestText(action: string, path: string, body: seq<Member>, bodyText: string, o1: seq<Member>, o2: seq<Member>)
    requires bodyText == Appended(body)
    ensures Print(Obj([Field("action", action), Field("path", path)] + body + o1 + o2), UNESCAPED)
         == "{" + FieldString("action", action) + ("," + FieldString("path", path)) + bodyText + Appended(o1)
             + Appended(o2) + "}"
  {
    hide Print, Appended, MemberText, FieldString;
    var ms := [Field("action", action), Field("path", path)] + body + o1 + o2;
    ObjectText(ms);
    assert ms[1..] == [Field("path", path)] + body + o1 + o2;
    AppendedConcat([Field("path", path)] + body + o1, o2);
    AppendedConcat([Field("path", path)] + body, o1);
    AppendedConcat([Field("path", path)], body);
    AppendedOne(Field("path", path));
    FieldText("path", path);
    FieldText("action", action);
    MessageBraces(FieldString("action", action), "," + FieldString("path", path), bodyText, Appended(o1), Appended(o2));
  }
}
