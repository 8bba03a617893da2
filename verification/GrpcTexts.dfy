/** The JSON texts of the gRPC converters written out. */
module GrpcTexts {
  import opened Text
  import opened PathList
  import opened Json
  import opened JsonTexts
  import opened Grpc
  import opened GrpcRequests

  // ---------------------------------------------------------------- texts

  /** A member of a string, "key":"text". */
  function Line(key: string, text: string): string {
    "\"" + key + "\":\"" + text + "\""
  }

  /** Such a member behind others, if there is a text. */
  function OptLine(key: string, text: string): string {
    if text == "" then "" else "," + Line(key, text)
  }

  function Joined(texts: seq<string>): string
    requires texts != []
  {
    if |texts| == 1 then texts[0] else texts[0] + "," + Joined(texts[1..])
  }

  /** One text as it is, several in brackets. */
  function Listed(texts: seq<string>): string
    requires texts != []
  {
    if |texts| == 1 then texts[0] else "[" + Joined(texts) + "]"
  }

  /** A data point. */
  function PointLine(p: DataPoint, c: Config): string {
    "{\"value\":\"" + p.value + "\",\"ts\":\""
    + (match c.level case LEVEL1 => Get(p.ts, "") case LEVEL2 => c.unpackTime(Get(p.tsC, 0))) + "\"}"
  }

  function PointLines(points: seq<DataPoint>, c: Config): (lines: seq<string>)
    ensures |lines| == |points|
  {
    seq(|points|, i requires 0 <= i < |points| => PointLine(points[i], c))
  }

  /** A data package; at level 2 its path is that of the index in the list, a negative one the empty text. */
  function PackageLine(d: DataPackage, c: Config): string
    requires PackagePrintable(d, c)
  {
    var path := match c.level
                case LEVEL1 => Get(d.path, "")
                case LEVEL2 => if Get(d.pathC, 0) < 0 then "" else c.paths[Get(d.pathC, 0)];
    "{\"path\":\"" + path + "\",\"dp\":" + Listed(PointLines(d.dp, c)) + "}"
  }

  function PackageLines(data: seq<DataPackage>, c: Config): (lines: seq<string>)
    requires forall i :: 0 <= i < |data| ==> PackagePrintable(data[i], c)
    ensures |lines| == |data|
  {
    seq(|data|, i requires 0 <= i < |data| => PackageLine(data[i], c))
  }

  function ErrorLine(e: Option<ErrorResponse>): string {
    var error := Get(e, ErrorResponse("", None, None));
    "{\"number\":\"" + error.number + "\",\"reason\":\"" + Get(error.reason, "") + "\",\"message\":\""
    + Get(error.message, "") + "\"}"
  }

  /** The data, or the error. */
  function BodyLine(status: Status, success: Option<Success>, error: Option<ErrorResponse>, c: Config): string
    requires BodyPrintable(status, success, c)
  {
    if status == SUCCESS then ",\"data\":" + Listed(PackageLines(SuccessData(success), c))
    else ",\"error\":" + ErrorLine(error)
  }

  function TsLine(ts: Option<string>, tsC: Option<Int32>, c: Config): string {
    ",\"ts\":\"" + (match c.level case LEVEL1 => Get(ts, "") case LEVEL2 => c.unpackTime(Get(tsC, 0))) + "\""
  }

  // ---------------------------------------------------------------- members one after the other

  function CommaEach(ms: seq<Member>): string {
    if ms == [] then "" else "," + MemberBare(ms[0]) + CommaEach(ms[1..])
  }

  lemma {:induction false} CommaEachAppend(a: seq<Member>, b: seq<Member>)
    ensures CommaEach(a + b) == CommaEach(a) + CommaEach(b)
  {
    hide MemberBare;
    if a == [] {
      assert a + b == b;
    } else {
      assert (a + b)[1..] == a[1..] + b && (a + b)[0] == a[0];
      CommaEachAppend(a[1..], b);
    }
  }

  lemma CommaOne(m: Member)
    ensures CommaEach([m]) == "," + MemberBare(m) && CommaEach([]) == ""
  {
    hide MemberBare;
    assert [m][1..] == [];
    assert "," + MemberBare(m) + "" == "," + MemberBare(m);
  }

  lemma {:induction false} MembersAre(ms: seq<Member>)
    requires ms != []
    ensures PrintMembers(ms, UNESCAPED) == MemberBare(ms[0]) + CommaEach(ms[1..]) + "}"
  {
    BareMembers(ms);
    hide MemberBare, PrintMembers;
    if |ms| == 1 {
      assert ms[1..] == [];
      assert MemberBare(ms[0]) + "" == MemberBare(ms[0]);
    } else {
      MembersAre(ms[1..]);
      assert ms[1..][1..] == ms[2..];
      Regroup(MemberBare(ms[0]), MemberBare(ms[1]), CommaEach(ms[2..]));
    }
  }

  lemma Regroup(a: string, b: string, c: string)
    ensures a + ("," + (b + c + "}")) == a + ("," + b + c) + "}"
  {
  }

  lemma ObjectIs(m: Member, more: seq<Member>)
    ensures Bare(Obj([m] + more)) == "{" + (MemberBare(m) + CommaEach(more) + "}")
  {
    var ms := [m] + more;
    assert ms[0] == m && ms[1..] == more;
    BareObject(ms);
    MembersAre(ms);
    hide *;
  }

  lemma LineIs(key: string, text: string)
    ensures MemberBare(Field(key, text)) == Line(key, text)
  {
    BareString(text);
    hide Bare;
    assert "\"" + key + "\":" + ("\"" + text + "\"") == "\"" + key + "\":\"" + text + "\"";
  }

  lemma OptIs(key: string, text: string)
    ensures CommaEach(OptField(key, text)) == OptLine(key, text)
  {
    LineIs(key, text);
    CommaOne(Field(key, text));
    hide CommaEach, MemberBare, Line;
  }

  /** A list of values and their texts. */
  lemma {:induction false} ItemsAre(items: seq<Json>, lines: seq<string>)
    requires items != [] && |lines| == |items| && forall i :: 0 <= i < |items| ==> Bare(items[i]) == lines[i]
    ensures PrintItems(items, UNESCAPED) == Joined(lines) + "]"
  {
    BareItems(items);
    hide Bare, PrintItems;
    if |items| > 1 {
      ItemsAre(items[1..], lines[1..]);
      assert lines[0] + ("," + (Joined(lines[1..]) + "]")) == lines[0] + "," + Joined(lines[1..]) + "]";
    }
  }

  lemma ListedIs(items: seq<Json>, lines: seq<string>)
    requires items != [] && |lines| == |items| && forall i :: 0 <= i < |items| ==> Bare(items[i]) == lines[i]
    ensures Bare(Collapsed(items)) == Listed(lines)
  {
    if |items| > 1 {
      ItemsAre(items, lines);
      BareArray(items);
    }
    hide Bare, PrintItems, Joined;
    assert |items| > 1 ==> "[" + (Joined(lines) + "]") == "[" + Joined(lines) + "]";
  }

  // ---------------------------------------------------------------- data and errors

  lemma TwoFields(k1: string, t1: string, k2: string, t2: string)
    ensures Bare(Obj([Field(k1, t1), Field(k2, t2)])) == "{" + Line(k1, t1) + "," + Line(k2, t2) + "}"
  {
    LineIs(k1, t1);
    LineIs(k2, t2);
    TwoBare(Field(k1, t1), Field(k2, t2));
    hide *;
    assert "{" + (Line(k1, t1) + "," + (Line(k2, t2) + "}")) == "{" + Line(k1, t1) + "," + Line(k2, t2) + "}";
  }

  lemma PointIs(p: DataPoint, c: Config)
    ensures Bare(PointJson(p, c)) == PointLine(p, c)
  {
    var ts := PointTs(p, c);
    TwoFields("value", p.value, "ts", ts);
    hide Bare;
    Spelled2("value", p.value, "ts", ts);
    assert "{" + "\"" + "value" + "\":\"" == "{\"value\":\"" && "\"" + "," + "\"" + "ts" + "\":\"" == "\",\"ts\":\"";
    assert "\"" + "}" == "\"}";
  }

  lemma Spelled2(k1: string, t1: string, k2: string, t2: string)
    ensures "{" + Line(k1, t1) + "," + Line(k2, t2) + "}"
         == ("{" + "\"" + k1 + "\":\"") + t1 + ("\"" + "," + "\"" + k2 + "\":\"") + t2 + ("\"" + "}")
  {
  }

  lemma PackageIs(d: DataPackage, c: Config)
    requires PackagePrintable(d, c)
    ensures Bare(PackageJson(d, c)) == PackageLine(d, c)
  {
    forall i | 0 <= i < |d.dp| ensures Bare(PointsJson(d.dp, c)[i]) == PointLines(d.dp, c)[i] {
      PointIs(d.dp[i], c);
    }
    hide PointLine, PointJson;
    ListedIs(PointsJson(d.dp, c), PointLines(d.dp, c));
    var path, dp := PackagePath(d, c).value, Collapsed(PointsJson(d.dp, c));
    LineIs("path", path);
    TwoBare(Field("path", path), Member("dp", dp));
    hide Collapsed, Listed, PointsJson, PointLines, Bare;
    SpelledPackage(path, Bare(dp));
  }

  lemma SpelledPackage(path: string, dp: string)
    ensures "{" + (Line("path", path) + "," + ("\"" + "dp" + "\":" + dp + "}"))
         == "{\"path\":\"" + path + "\",\"dp\":" + dp + "}"
  {
    assert "{" + ("\"" + "path" + "\":\"") == "{\"path\":\"" && "\"" + ("," + ("\"" + "dp" + "\":")) == "\",\"dp\":";
    Spelled5("{", "\"" + "path" + "\":\"", path, "\"", ",", "\"" + "dp" + "\":", dp, "}");
  }

  lemma Spelled5(a: string, b: string, c: string, d: string, e: string, f: string, g: string, h: string)
    ensures a + (b + c + d + e + (f + g + h)) == a + b + c + (d + (e + f)) + g + h
  {
  }

  lemma DataIs(data: seq<DataPackage>, c: Config)
    requires DataPrintable(data, c)
    ensures Bare(DataJson(data, c)) == Listed(PackageLines(data, c))
  {
    hide PackagePrintable, PackageJson, PackageLine;
    forall i | 0 <= i < |data| ensures Bare(PackagesJson(data, c)[i]) == PackageLines(data, c)[i] {
      PackageIs(data[i], c);
    }
    ListedIs(PackagesJson(data, c), PackageLines(data, c));
  }

  lemma ErrorIs(e: Option<ErrorResponse>)
    ensures Bare(ErrorJson(e)) == ErrorLine(e)
  {
    var error := Get(e, ErrorResponse("", None, None));
    var n, r, m := error.number, Get(error.reason, ""), Get(error.message, "");
    var more := [Field("reason", r), Field("message", m)];
    assert [Field("number", n), Field("reason", r), Field("message", m)] == [Field("number", n)] + more;
    assert more == [Field("reason", r)] + [Field("message", m)];
    ObjectIs(Field("number", n), more);
    CommaEachAppend([Field("reason", r)], [Field("message", m)]);
    CommaOne(Field("reason", r));
    CommaOne(Field("message", m));
    LineIs("number", n);
    LineIs("reason", r);
    LineIs("message", m);
    hide Bare, CommaEach, MemberBare;
    SpelledError(n, r, m);
  }

  lemma SpelledError(n: string, r: string, m: string)
    ensures "{" + (Line("number", n) + ("," + Line("reason", r) + ("," + Line("message", m))) + "}")
         == "{\"number\":\"" + n + "\",\"reason\":\"" + r + "\",\"message\":\"" + m + "\"}"
  {
    assert "{" + ("\"" + "number" + "\":\"") == "{\"number\":\"";
    assert "\"" + ("," + ("\"" + "reason" + "\":\"")) == "\",\"reason\":\"";
    assert "\"" + ("," + ("\"" + "message" + "\":\"")) == "\",\"message\":\"" && "\"" + "}" == "\"}";
    Spelled7("{", "\"" + "number" + "\":\"", n, "\"", ",", "\"" + "reason" + "\":\"", r,
             "\"" + "message" + "\":\"", m, "}");
  }

  lemma Spelled7(a: string, b: string, n: string, q: string, comma: string, d: string, r: string, f: string, m: string,
                 z: string)
    ensures a + ((b + n + q) + (comma + (d + r + q) + (comma + (f + m + q))) + z)
         == a + b + n + (q + (comma + d)) + r + (q + (comma + f)) + m + (q + z)
  {
  }

  lemma NamedValue(key: string, value: string)
    ensures "," + ("\"" + key + "\":" + value) == (",\"" + key + "\":") + value
  {
  }

  lemma BodyKeys()
    ensures ",\"" + "data" + "\":" == ",\"data\":" && ",\"" + "error" + "\":" == ",\"error\":"
  {
  }

  lemma MemberIs(m: Member, text: string)
    requires Bare(m.value) == text
    ensures "," + MemberBare(m) == (",\"" + m.key + "\":") + text
  {
    NamedValue(m.key, text);
    hide Bare;
  }

  lemma BodyIs(status: Status, success: Option<Success>, error: Option<ErrorResponse>, c: Config)
    requires BodyPrintable(status, success, c)
    ensures "," + MemberBare(BodyMember(status, success, error, c)) == BodyLine(status, success, error, c)
  {
    BodyKeys();
    hide PackagePrintable, DataJson, ErrorJson, Bare, Listed, ErrorLine, MemberBare;
    var body := BodyMember(status, success, error, c);
    if status == SUCCESS {
      DataIs(SuccessData(success), c);
      MemberIs(body, Listed(PackageLines(SuccessData(success), c)));
    } else {
      ErrorIs(error);
      MemberIs(body, ErrorLine(error));
    }
  }

  lemma TsIs(ts: Option<string>, tsC: Option<Int32>, c: Config)
    ensures "," + MemberBare(Field("ts", Ts(ts, tsC, c))) == TsLine(ts, tsC, c)
  {
    LineIs("ts", Ts(ts, tsC, c));
    assert ",\"ts\":\"" == "," + ("\"" + "ts" + "\":\"");
    hide MemberBare;
  }

  // ---------------------------------------------------------------- the messages

  /** An object of an action and members behind it. */
  lemma ActionText(action: string, more: seq<Member>)
    ensures Bare(Obj([Field("action", action)] + more)) == "{\"action\":\"" + action + "\"" + CommaEach(more) + "}"
  {
    ObjectIs(Field("action", action), more);
    LineIs("action", action);
    hide Bare, CommaEach, MemberBare;
    SpelledAction(action, CommaEach(more));
  }

  lemma SpelledAction(action: string, more: string)
    ensures "{" + (Line("action", action) + more + "}") == "{\"action\":\"" + action + "\"" + more + "}"
  {
    assert "{" + ("\"" + "action" + "\":\"") == "{\"action\":\"";
    Spelled4("{", "\"" + "action" + "\":\"", action, "\"", more);
  }

  lemma Spelled4(a: string, b: string, c: string, d: string, more: string)
    ensures a + (b + c + d + more + "}") == a + b + c + d + more + "}"
  {
  }

  /** Members, and two that may be missing. */
  lemma TwoAndTwo(a: Member, b: Member, k1: string, t1: string, k2: string, t2: string)
    ensures CommaEach([a, b] + OptField(k1, t1) + OptField(k2, t2))
         == "," + MemberBare(a) + ("," + MemberBare(b)) + OptLine(k1, t1) + OptLine(k2, t2)
  {
    OptIs(k1, t1);
    OptIs(k2, t2);
    CommaOne(a);
    CommaOne(b);
    CommaEachAppend([a], [b]);
    CommaEachAppend([a] + [b], OptField(k1, t1));
    CommaEachAppend([a] + [b] + OptField(k1, t1), OptField(k2, t2));
    assert [a] + [b] == [a, b];
    hide *;
  }

  lemma Nothing(s: string)
    ensures s + "" == s && CommaEach([]) == "" && OptLine("", "") == "" && OptField("", "") == []
  {
  }

  /** The text of a get response. */
  lemma GetResponseText(m: GetResponse, c: Config)
    requires BodyPrintable(m.status, m.success, c)
    ensures GetResponseJson(m, c).Some?
    ensures Bare(GetResponseJson(m, c).value)
         == "{\"action\":\"" + "get" + "\""
            + (BodyLine(m.status, m.success, m.error, c) + TsLine(m.ts, m.tsC, c)
               + OptLine("requestId", Get(m.requestId, "")) + OptLine("authorization", Get(m.authorization, ""))) + "}"
  {
    var action, body, ts := Field("action", "get"), BodyMember(m.status, m.success, m.error, c),
                            Field("ts", Ts(m.ts, m.tsC, c));
    var id, auth := OptField("requestId", Get(m.requestId, "")), OptField("authorization", Get(m.authorization, ""));
    hide BodyPrintable, BodyMember, BodyLine, OptField, OptLine, Ts, TsLine, Bare, CommaEach, MemberBare;
    assert [action, body, ts] + id + auth == [action] + ([body, ts] + id + auth);
    ActionText("get", [body, ts] + id + auth);
    TwoAndTwo(body, ts, "requestId", Get(m.requestId, ""), "authorization", Get(m.authorization, ""));
    BodyIs(m.status, m.success, m.error, c);
    TsIs(m.ts, m.tsC, c);
  }

  /** The text of a subscription event. */
  lemma EventText(m: SubscribeStream, c: Config)
    requires m.Event? && StreamJson(m, c).Some?
    ensures var e := Get(m.event, SubscribeEvent("", None, None, None, None));
            BodyPrintable(m.status, e.success, c)
            && Bare(StreamJson(m, c).value)
               == "{\"action\":\"" + "subscription" + "\""
                  + (BodyLine(m.status, e.success, e.error, c) + TsLine(e.ts, e.tsC, c)
                     + OptLine("subscriptionId", e.subscriptionId) + OptLine("", "")) + "}"
  {
    var e := Get(m.event, SubscribeEvent("", None, None, None, None));
    hide BodyPrintable, BodyMember, BodyLine, Ts, TsLine, Bare, CommaEach, MemberBare;
    assert BodyPrintable(m.status, e.success, c);
    var action, body, ts := Field("action", "subscription"), BodyMember(m.status, e.success, e.error, c),
                            Field("ts", Ts(e.ts, e.tsC, c));
    var id := OptField("subscriptionId", e.subscriptionId);
    assert [action, body, ts] + id == [action] + ([body, ts] + id + OptField("", ""));
    hide OptField, OptLine;
    ActionText("subscription", [body, ts] + id + OptField("", ""));
    TwoAndTwo(body, ts, "subscriptionId", e.subscriptionId, "", "");
    BodyIs(m.status, e.success, e.error, c);
    TsIs(e.ts, e.tsC, c);
  }

  lemma StringTs(ts: string)
    ensures "," + MemberBare(Field("ts", ts)) == ",\"ts\":\"" + ts + "\""
  {
    LineIs("ts", ts);
    assert ",\"ts\":\"" == "," + ("\"" + "ts" + "\":\"");
    hide MemberBare;
    Spelled3(",", "\"" + "ts" + "\":\"", ts);
  }

  lemma Spelled3(a: string, b: string, c: string)
    ensures a + (b + c + "\"") == a + b + c + "\""
  {
  }

  /** The text of a subscription response. */
  lemma SubscribedText(m: SubscribeStream, c: Config)
    requires m.Response?
    ensures StreamJson(m, c).Some?
    ensures var r := Get(m.response, SubscribeResponse(None, None, "", "", None));
            Bare(StreamJson(m, c).value)
            == "{\"action\":\"" + "subscribe" + "\""
               + ((if m.status == ERROR then ",\"error\":" + ErrorLine(r.error) else "")
                  + (",\"ts\":\"" + r.ts + "\"")
                  + OptLine("subscriptionId", Get(r.subscriptionId, ""))
                  + (OptLine("requestId", r.requestId) + OptLine("authorization", Get(r.authorization, "")))) + "}"
  {
    var r := Get(m.response, SubscribeResponse(None, None, "", "", None));
    var error := if m.status == ERROR then [Member("error", ErrorJson(r.error))] else [];
    var ts, sub := [Field("ts", r.ts)], OptField("subscriptionId", Get(r.subscriptionId, ""));
    var id, auth := OptField("requestId", r.requestId), OptField("authorization", Get(r.authorization, ""));
    ErrorIs(r.error);
    BodyKeys();
    StringTs(r.ts);
    CommaOne(Field("ts", r.ts));
    OptIs("subscriptionId", Get(r.subscriptionId, ""));
    OptIs("requestId", r.requestId);
    OptIs("authorization", Get(r.authorization, ""));
    if m.status == ERROR {
      CommaOne(error[0]);
      MemberIs(error[0], ErrorLine(r.error));
    } else {
      CommaOne(Field("ts", r.ts));
    }
    hide OptField, OptLine, Bare, CommaEach, MemberBare, ErrorJson, ErrorLine;
    assert [Field("action", "subscribe")] + error + ts + sub + id + auth
        == [Field("action", "subscribe")] + (error + ts + sub + (id + auth));
    ActionText("subscribe", error + ts + sub + (id + auth));
    FiveAppended(error, ts, sub, id, auth);
  }

  lemma FiveAppended(error: seq<Member>, ts: seq<Member>, sub: seq<Member>, id: seq<Member>, auth: seq<Member>)
    ensures CommaEach(error + ts + sub + (id + auth))
         == CommaEach(error) + CommaEach(ts) + CommaEach(sub) + (CommaEach(id) + CommaEach(auth))
  {
    CommaEachAppend(error + ts + sub, id + auth);
    CommaEachAppend(error + ts, sub);
    CommaEachAppend(error, ts);
    CommaEachAppend(id, auth);
    hide CommaEach;
  }

  // ---------------------------------------------------------------- requests

  function QuotedLines(texts: seq<string>): (lines: seq<string>)
    ensures |lines| == |texts|
  {
    seq(|texts|, i requires 0 <= i < |texts| => "\"" + texts[i] + "\"")
  }

  function RangeLines(bounds: seq<RangeValue>): (lines: seq<string>)
    ensures |lines| == |bounds|
  {
    seq(|bounds|, i requires 0 <= i < |bounds| =>
        "{\"logic-op\":\"" + bounds[i].logicOp + "\",\"boundary\":\"" + bounds[i].boundary + "\"}")
  }

  /** A filter's type and parameter. */
  function TypedFilter(f: Filter): string
    requires FilterPrintable(f)
  {
    match f
    case Paths(texts) => TypedLine("paths", Listed(QuotedLines(texts)))
    case Timebased(period) => TypedLine("timebased", "{\"period\":\"" + period + "\"}")
    case Range(bounds) => TypedLine("range", Listed(RangeLines(bounds)))
    case Change(op, diff) => TypedLine("change", "{\"logic-op\":\"" + op + "\",\"diff\":\"" + diff + "\"}")
    case Curvelog(maxErr, bufSize) =>
      TypedLine("curvelog", "{\"maxerr\":\"" + maxErr + "\",\"bufsize\":\"" + bufSize + "\"}")
    case History(period) => TypedLine("history", "\"" + period + "\"")
    case StaticMetadata(tree) => TypedLine("static-metadata", tree)
    case DynamicMetadata(domain) => TypedLine("dynamic-metadata", domain)
    case Undefined => TypedLine("", "")
  }

  function TypedLine(kind: string, parameter: string): string {
    "{\"type\":\"" + kind + "\",\"parameter\":" + parameter + "}"
  }

  function TypedFilters(fs: seq<Filter>): (lines: seq<string>)
    requires forall i :: 0 <= i < |fs| ==> FilterPrintable(fs[i])
    ensures |lines| == |fs|
  {
    seq(|fs|, i requires 0 <= i < |fs| => TypedFilter(fs[i]))
  }

  lemma TypedIs(kind: string, parameter: Json, text: string)
    requires Bare(parameter) == text
    ensures Bare(Obj([Field("type", kind), Member("parameter", parameter)])) == TypedLine(kind, text)
  {
    TwoBare(Field("type", kind), Member("parameter", parameter));
    TypeBare(kind);
    ParameterBare(parameter);
    assert "\"" + PARAMETER == "\",\"parameter\":";
    assert "{" + "\"type\":\"" == "{\"type\":\"";
    hide Bare, MemberBare, PARAMETER;
    TypedSpelled(kind, MemberBare(Member("parameter", parameter)), text);
  }

  lemma TypedSpelled(kind: string, member: string, text: string)
    requires "," + (member + "}") == PARAMETER + (text + "}") && "\"" + PARAMETER == "\",\"parameter\":"
    ensures "{" + ("\"type\":\"" + kind + "\"" + "," + (member + "}")) == TypedLine(kind, text)
  {
    hide PARAMETER;
    TypedParts(kind, member, text, PARAMETER);
    assert "{" + "\"type\":\"" == "{\"type\":\"";
  }

  lemma TypedParts(kind: string, member: string, text: string, parameter: string)
    requires "," + (member + "}") == parameter + (text + "}")
    ensures "{" + ("\"type\":\"" + kind + "\"" + "," + (member + "}"))
         == ("{" + "\"type\":\"") + kind + ("\"" + parameter) + text + "}"
  {
    assert "{" + ("\"type\":\"" + kind + "\"" + "," + (member + "}"))
        == ("{" + "\"type\":\"") + kind + "\"" + ("," + (member + "}"));
    assert ("{" + "\"type\":\"") + kind + "\"" + (parameter + (text + "}"))
        == ("{" + "\"type\":\"") + kind + ("\"" + parameter) + text + "}";
  }

  lemma OneField(key: string, text: string)
    ensures Bare(Obj([Field(key, text)])) == "{" + Line(key, text) + "}"
  {
    assert [Field(key, text)] == [Field(key, text)] + [];
    ObjectIs(Field(key, text), []);
    Nothing(Line(key, text));
    LineIs(key, text);
    hide *;
    assert "{" + (Line(key, text) + "}") == "{" + Line(key, text) + "}";
  }

  lemma PeriodSpelled(period: string)
    ensures "{" + Line("period", period) + "}" == "{\"period\":\"" + period + "\"}"
  {
    assert "{" + ("\"" + "period" + "\":\"") == "{\"period\":\"" && "\"" + "}" == "\"}";
    Spelled6("{", "\"" + "period" + "\":\"", period, "\"", "}");
  }

  lemma Spelled6(a: string, b: string, c: string, d: string, e: string)
    ensures a + (b + c + d) + e == a + b + c + (d + e)
  {
  }

  lemma PairSpelled(k1: string, t1: string, k2: string, t2: string)
    ensures "{" + Line(k1, t1) + "," + Line(k2, t2) + "}"
         == ("{\"" + k1 + "\":\"") + t1 + ("\",\"" + k2 + "\":\"") + t2 + "\"}"
  {
    Spelled2(k1, t1, k2, t2);
    assert "{" + "\"" == "{\"" && "\"" + "," + "\"" == "\",\"" && "\"" + "}" == "\"}";
  }

  lemma PairKeys()
    ensures "{\"" + "logic-op" + "\":\"" == "{\"logic-op\":\"" && "\",\"" + "boundary" + "\":\"" == "\",\"boundary\":\""
    ensures "\",\"" + "diff" + "\":\"" == "\",\"diff\":\"" && "{\"" + "maxerr" + "\":\"" == "{\"maxerr\":\""
    ensures "\",\"" + "bufsize" + "\":\"" == "\",\"bufsize\":\""
  {
  }

  lemma ParameterIs(f: Filter)
    requires FilterPrintable(f)
    ensures Bare(FilterJson(f)) == TypedFilter(f)
  {
    var j := ParameterJson(f);
    PairKeys();
    hide Bare, TypedLine, Listed, Collapsed, MemberBare, Line;
    match f
    case Paths(texts) =>
      forall i | 0 <= i < |texts| ensures Bare(TextsJson(texts)[i]) == QuotedLines(texts)[i] {
        BareString(texts[i]);
      }
      ListedIs(TextsJson(texts), QuotedLines(texts));
      TypedIs("paths", j, Listed(QuotedLines(texts)));
    case Timebased(period) =>
      OneField("period", period);
      PeriodSpelled(period);
      TypedIs("timebased", j, "{\"period\":\"" + period + "\"}");
    case Range(bounds) =>
      RangesAre(bounds);
      TypedIs("range", j, Listed(RangeLines(bounds)));
    case Change(op, diff) =>
      TwoFields("logic-op", op, "diff", diff);
      PairSpelled("logic-op", op, "diff", diff);
      TypedIs("change", j, "{\"logic-op\":\"" + op + "\",\"diff\":\"" + diff + "\"}");
    case Curvelog(maxErr, bufSize) =>
      TwoFields("maxerr", maxErr, "bufsize", bufSize);
      PairSpelled("maxerr", maxErr, "bufsize", bufSize);
      TypedIs("curvelog", j, "{\"maxerr\":\"" + maxErr + "\",\"bufsize\":\"" + bufSize + "\"}");
    case History(period) =>
      BareString(period);
      TypedIs("history", j, "\"" + period + "\"");
    case StaticMetadata(tree) =>
      LiteralIs(tree);
      TypedIs("static-metadata", j, tree);
    case DynamicMetadata(domain) =>
      LiteralIs(domain);
      TypedIs("dynamic-metadata", j, domain);
    case Undefined =>
      LiteralIs("");
      TypedIs("", j, "");
  }

  lemma LiteralIs(text: string)
    ensures Bare(Lit(text)) == text
  {
  }

  lemma RangesAre(bounds: seq<RangeValue>)
    requires bounds != []
    ensures Bare(Collapsed(RangesJson(bounds))) == Listed(RangeLines(bounds))
  {
    PairKeys();
    hide Bare, Listed, Collapsed, Line;
    forall i | 0 <= i < |bounds| ensures Bare(RangesJson(bounds)[i]) == RangeLines(bounds)[i] {
      TwoFields("logic-op", bounds[i].logicOp, "boundary", bounds[i].boundary);
      PairSpelled("logic-op", bounds[i].logicOp, "boundary", bounds[i].boundary);
    }
    ListedIs(RangesJson(bounds), RangeLines(bounds));
  }

  lemma FiltersAre(fs: seq<Filter>)
    requires FiltersPrintable(fs)
    ensures Bare(FiltersJson(fs)) == Listed(TypedFilters(fs))
  {
    hide FilterPrintable, FilterJson, TypedFilter, Bare;
    forall i | 0 <= i < |fs| ensures Bare(FilterItems(fs)[i]) == TypedFilters(fs)[i] {
      ParameterIs(fs[i]);
    }
    ListedIs(FilterItems(fs), TypedFilters(fs));
  }

  /** The text of a get or subscribe request. */
  lemma RequestWritten(m: Request)
    requires m.filter.Some? ==> FiltersPrintable(m.filter.value)
    ensures RequestJson(m).Some?
    ensures Bare(RequestJson(m).value)
         == "{\"action\":\"" + m.action + "\""
            + ((",\"path\":\"" + m.path + "\"")
               + (if m.filter.Some? then ",\"filter\":" + Listed(TypedFilters(m.filter.value)) else "")
               + OptLine("authorization", Get(m.authorization, "")) + OptLine("requestId", Get(m.requestId, ""))) + "}"
  {
    var path := [Field("path", m.path)];
    var filter := if m.filter.Some? then [Member("filter", FiltersJson(m.filter.value))] else [];
    var auth, id := OptField("authorization", Get(m.authorization, "")), OptField("requestId", Get(m.requestId, ""));
    PathLine(m.path);
    if m.filter.Some? {
      FilterMember(m.filter.value);
    }
    CommaOne(Field("path", m.path));
    OptIs("authorization", Get(m.authorization, ""));
    OptIs("requestId", Get(m.requestId, ""));
    hide OptField, OptLine, Bare, CommaEach, MemberBare, FiltersJson, FilterPrintable, Listed, TypedFilters;
    assert [Field("action", m.action), Field("path", m.path)] + filter + auth + id
        == [Field("action", m.action)] + (path + filter + auth + id);
    ActionText(m.action, path + filter + auth + id);
    CommaEachAppend(path + filter + auth, id);
    CommaEachAppend(path + filter, auth);
    CommaEachAppend(path, filter);
  }

  lemma PathLine(path: string)
    ensures "," + MemberBare(Field("path", path)) == ",\"path\":\"" + path + "\""
  {
    LineIs("path", path);
    assert ",\"path\":\"" == "," + ("\"" + "path" + "\":\"");
    hide MemberBare;
    Spelled3(",", "\"" + "path" + "\":\"", path);
  }

  lemma FilterMember(fs: seq<Filter>)
    requires FiltersPrintable(fs)
    ensures CommaEach([Member("filter", FiltersJson(fs))]) == ",\"filter\":" + Listed(TypedFilters(fs))
  {
    FiltersAre(fs);
    CommaOne(Member("filter", FiltersJson(fs)));
    assert ",\"" + "filter" + "\":" == ",\"filter\":";
    hide FilterPrintable, FiltersJson, TypedFilters, Listed, Bare, MemberBare, CommaEach;
    MemberIs(Member("filter", FiltersJson(fs)), Listed(TypedFilters(fs)));
  }

  // ---------------------------------------------------------------- messages that cannot be printed

  /** There are points, and in level 2 the index stays below the end of the list. */
  predicate HasPoints(d: DataPackage, c: Config) {
    d.dp != [] && (c.level == LEVEL2 ==> Get(d.pathC, 0) < |c.paths|)
  }

  predicate HasData(success: Option<Success>, c: Config) {
    && success.Some? && success.value.dataPack.Some? && success.value.dataPack.value != []
    && forall i :: 0 <= i < |success.value.dataPack.value| ==> HasPoints(success.value.dataPack.value[i], c)
  }

  lemma BodyPrintsIff(status: Status, success: Option<Success>, c: Config)
    ensures BodyPrintable(status, success, c) <==> status == ERROR || HasData(success, c)
  {
    var data := SuccessData(success);
    forall i | 0 <= i < |data| ensures PackagePrintable(data[i], c) <==> HasPoints(data[i], c) {
    }
    hide PackagePrintable, HasPoints;
  }

  /** Printing panics exactly on a response without an error that has no data, or has a package without points, or a
      path index behind the end of the list. */
  lemma GetResponsePrintsIff(m: GetResponse, c: Config)
    ensures GetResponseJson(m, c).Some? <==> m.status == ERROR || HasData(m.success, c)
  {
    BodyPrintsIff(m.status, m.success, c);
    hide BodyPrintable, HasData;
  }

  /** Responses to subscriptions have no data. */
  lemma StreamPrintsIff(m: SubscribeStream, c: Config)
    ensures StreamJson(m, c).Some?
            <==> m.Response? || m.status == ERROR || (m.event.Some? && HasData(m.event.value.success, c))
  {
    if m.Event? {
      BodyPrintsIff(m.status, Get(m.event, SubscribeEvent("", None, None, None, None)).success, c);
    }
    hide BodyPrintable, HasData, OptField, ErrorJson;
  }

  /** Printing panics exactly on an empty list of filters, of paths or of bounds. */
  lemma RequestPrintsIff(m: Request)
    ensures RequestJson(m).Some?
            <==> (m.filter.Some? ==>
                    m.filter.value != [] && Paths([]) !in m.filter.value && Range([]) !in m.filter.value)
  {
    if m.filter.Some? {
      var fs := m.filter.value;
      forall i | 0 <= i < |fs| ensures FilterPrintable(fs[i]) <==> fs[i] != Paths([]) && fs[i] != Range([]) {
      }
    }
    hide FilterPrintable;
  }
}
