/** Protobuf to JSON and back: what comes through, exactly. */
module GrpcRoundTrip {
  import opened Text
  import opened PathList
  import opened Json
  import opened Grpc

  // ---------------------------------------------------------------- normal forms: absent equals empty

  function NormText(o: Option<string>): Option<string> {
    if Get(o, "") == "" then None else o
  }

  function NormTs(ts: Option<string>, c: Config): Option<string> {
    if c.level == LEVEL1 then Some(Get(ts, "")) else None
  }

  function NormTsC(tsC: Option<Int32>, c: Config): Option<Int32> {
    if c.level == LEVEL1 then None else Some(Get(tsC, 0))
  }

  function NormPoint(p: DataPoint, c: Config): DataPoint {
    DataPoint(p.value, NormTs(p.ts, c), NormTsC(p.tsC, c))
  }

  function NormPoints(points: seq<DataPoint>, c: Config): seq<DataPoint> {
    seq(|points|, i requires 0 <= i < |points| => NormPoint(points[i], c))
  }

  /** Every negative path index means "no path". */
  function NormPackage(d: DataPackage, c: Config): DataPackage {
    DataPackage(NormTs(d.path, c),
                if c.level == LEVEL1 then None else Some(if Get(d.pathC, 0) < 0 then -1 else Get(d.pathC, 0)),
                NormPoints(d.dp, c))
  }

  function NormData(data: seq<DataPackage>, c: Config): seq<DataPackage> {
    seq(|data|, i requires 0 <= i < |data| => NormPackage(data[i], c))
  }

  function NormError(e: Option<ErrorResponse>): ErrorResponse {
    var error := Get(e, ErrorResponse("", None, None));
    ErrorResponse(error.number, Some(Get(error.reason, "")), Some(Get(error.message, "")))
  }

  function NormSuccess(s: Option<Success>, c: Config): Success {
    Success(Some(NormData(SuccessData(s), c)), None)
  }

  /** Only the arm that the status selects is kept. */
  function NormGetResponse(m: GetResponse, c: Config): GetResponse {
    GetResponse(m.status, if m.status == SUCCESS then Some(NormSuccess(m.success, c)) else None,
                if m.status == SUCCESS then None else Some(NormError(m.error)),
                m.requestId, NormTs(m.ts, c), NormTsC(m.tsC, c), NormText(m.authorization))
  }

  /** An error response loses its subscription id. */
  function NormStream(m: SubscribeStream, c: Config): SubscribeStream {
    match m
    case Response(status, response) =>
      var r := Get(response, SubscribeResponse(None, None, "", "", None));
      Response(status, Some(SubscribeResponse(if status == SUCCESS then None else Some(NormError(r.error)),
                                              if status == SUCCESS then NormText(r.subscriptionId) else None,
                                              r.requestId, r.ts, NormText(r.authorization))))
    case Event(status, event) =>
      var e := Get(event, SubscribeEvent("", None, None, None, None));
      Event(status, Some(SubscribeEvent(e.subscriptionId,
                                        if status == SUCCESS then Some(NormSuccess(e.success, c)) else None,
                                        if status == SUCCESS then None else Some(NormError(e.error)),
                                        NormTs(e.ts, c), NormTsC(e.tsC, c))))
  }

  // ---------------------------------------------------------------- the level-2 codecs

  /** At level 2: a strictly sorted list of dotted paths, and a time codec that reads back what it prints. */
  ghost predicate Level2Codecs(c: Config) {
    && Sorted(c.paths) && |c.paths| <= 0x8000_0000 && "" !in c.paths
    && (forall i, j :: 0 <= i < j < |c.paths| ==> c.paths[i] != c.paths[j])
    && (forall i :: 0 <= i < |c.paths| ==> '/' !in c.paths[i])
  }

  ghost predicate Codecs(c: Config) {
    c.level == LEVEL2 ==> Level2Codecs(c) && forall t: Int32 :: c.packTime(c.unpackTime(t)) == t
  }

  lemma NoSlash(p: string)
    requires '/' !in p
    ensures Dotted(p) == p
  {
    assert forall i :: 0 <= i < |p| ==> p[i] in p;
  }

  lemma PathIndexBack(c: Config, index: Int32)
    requires Level2Codecs(c) && index < |c.paths|
    ensures IndexToPath(c.paths, index).Some?
    ensures ToInt32(PathToIndex(c.paths, IndexToPath(c.paths, index).value)) == if index < 0 then -1 else index
  {
    if index < 0 {
      NoSlash("");
      SearchFinds(c.paths, "");
    } else {
      NoSlash(c.paths[index]);
      SearchFindsIndex(c.paths, index);
    }
  }

  // ---------------------------------------------------------------- looking up members

  lemma LookupOpt(k: string, value: string, key: string)
    ensures Lookup(OptField(k, value), key) == if k == key && value != "" then Some(Str(value)) else None
  {
    if value != "" {
      LookupOne(Field(k, value), key);
    }
  }

  // ---------------------------------------------------------------- data

  lemma SpreadCollapsed(items: seq<Json>)
    requires items != [] && forall i :: 0 <= i < |items| ==> !items[i].Arr?
    ensures Spread(Some(Collapsed(items))) == items
  {
  }

  lemma PointReads(p: DataPoint, c: Config)
    requires Codecs(c)
    ensures ReadPoint(PointJson(p, c), c) == Some(NormPoint(p, c))
  {
    LookupTwo(Field("value", p.value), Field("ts", PointTs(p, c)), "value");
    LookupTwo(Field("value", p.value), Field("ts", PointTs(p, c)), "ts");
  }

  lemma {:induction false} PointsRead(points: seq<DataPoint>, c: Config)
    requires Codecs(c)
    ensures ReadPoints(PointsJson(points, c), c) == Some(NormPoints(points, c))
  {
    hide ReadPoint, PointJson, NormPoint, Codecs;
    if points == [] {
      assert PointsJson(points, c) == [] && NormPoints(points, c) == [];
    } else {
      var n := |points| - 1;
      PointsRead(points[..n], c);
      PointReads(points[n], c);
      assert PointsJson(points, c)[..n] == PointsJson(points[..n], c);
      assert NormPoints(points[..n], c) + [NormPoint(points[n], c)] == NormPoints(points, c);
    }
  }

  lemma PackageReads(d: DataPackage, c: Config)
    requires Codecs(c) && PackagePrintable(d, c)
    ensures ReadPackage(PackageJson(d, c), c) == Some(NormPackage(d, c))
  {
    hide ReadPoints, NormPoints, Level2Codecs;
    var items := PointsJson(d.dp, c);
    var path, dp := Field("path", PackagePath(d, c).value), Member("dp", Collapsed(items));
    LookupTwo(path, dp, "path");
    LookupTwo(path, dp, "dp");
    SpreadCollapsed(items);
    PointsRead(d.dp, c);
    if c.level == LEVEL2 && Get(d.pathC, 0) < |c.paths| {
      PathIndexBack(c, Get(d.pathC, 0));
    }
  }

  lemma {:induction false} PackagesRead(data: seq<DataPackage>, c: Config)
    requires Codecs(c) && forall i :: 0 <= i < |data| ==> PackagePrintable(data[i], c)
    ensures ReadPackages(PackagesJson(data, c), c) == Some(NormData(data, c))
  {
    hide ReadPackage, PackageJson, NormPackage, Codecs, PackagePrintable;
    if data == [] {
      assert PackagesJson(data, c) == [] && NormData(data, c) == [];
    } else {
      var n := |data| - 1;
      PackagesRead(data[..n], c);
      PackageReads(data[n], c);
      assert PackagesJson(data, c)[..n] == PackagesJson(data[..n], c);
      assert NormData(data[..n], c) + [NormPackage(data[n], c)] == NormData(data, c);
    }
  }

  lemma DataReads(data: seq<DataPackage>, c: Config)
    requires Codecs(c) && DataPrintable(data, c)
    ensures !DataJson(data, c).Lit? && Spread(Some(DataJson(data, c))) != []
    ensures ReadPackages(Spread(Some(DataJson(data, c))), c) == Some(NormData(data, c))
  {
    hide PackagePrintable, Codecs;
    SpreadCollapsed(PackagesJson(data, c));
    PackagesRead(data, c);
  }

  lemma ErrorReads(e: Option<ErrorResponse>)
    ensures !ErrorJson(e).Lit? && ReadError(Some(ErrorJson(e))) == Some(NormError(e))
  {
    var error := Get(e, ErrorResponse("", None, None));
    var n, r, m := Field("number", error.number), Field("reason", Get(error.reason, "")),
        Field("message", Get(error.message, ""));
    LookupThree(n, r, m, "number");
    LookupThree(n, r, m, "reason");
    LookupThree(n, r, m, "message");
  }

  // ---------------------------------------------------------------- whole messages

  /** How a value is looked up in: leading members, the data or error member, the time stamp, two optional members. */
  lemma LookupParts(a: seq<Member>, o1: string, v1: string, o2: string, v2: string, key: string)
    ensures Lookup(a + OptField(o1, v1) + OptField(o2, v2), key)
         == if o2 == key && v2 != "" then Some(Str(v2))
            else if o1 == key && v1 != "" then Some(Str(v1))
            else Lookup(a, key)
  {
    LookupAppend(a + OptField(o1, v1), OptField(o2, v2), key);
    LookupAppend(a, OptField(o1, v1), key);
    LookupOpt(o1, v1, key);
    LookupOpt(o2, v2, key);
  }

  lemma BodyReads(status: Status, success: Option<Success>, error: Option<ErrorResponse>, c: Config)
    requires Codecs(c) && BodyPrintable(status, success, c)
    ensures !BodyMember(status, success, error, c).value.Lit?
    ensures var body := BodyMember(status, success, error, c);
            if status == SUCCESS then
              body.key == "data" && Spread(Some(body.value)) != []
              && ReadPackages(Spread(Some(body.value)), c) == Some(NormData(SuccessData(success), c))
            else body.key == "error" && ReadError(Some(body.value)) == Some(NormError(error))
  {
    hide Codecs, DataPrintable, ErrorJson, DataJson, NormError, NormData;
    if status == SUCCESS {
      DataReads(SuccessData(success), c);
    } else {
      ErrorReads(error);
    }
  }

  /** A get response comes back in normal form exactly when it has a request id; otherwise the reader fails. */
  lemma GetResponseReads(m: GetResponse, c: Config)
    requires Codecs(c) && GetResponseJson(m, c).Some?
    ensures ReadGetResponse(GetResponseJson(m, c).value.members, c)
         == if Get(m.requestId, "") == "" then None else Some(NormGetResponse(m, c))
  {
    hide Level2Codecs, BodyPrintable, BodyMember, Lookup, ReadPackages, ReadError, NormError, NormData, OptField;
    var body, ts := BodyMember(m.status, m.success, m.error, c), Field("ts", Ts(m.ts, m.tsC, c));
    var a := [Field("action", "get"), body, ts];
    var members := GetResponseJson(m, c).value.members;
    BodyReads(m.status, m.success, m.error, c);
    forall key: string
      ensures Lookup(members, key)
           == if key == "authorization" && Get(m.authorization, "") != "" then Some(Str(m.authorization.value))
              else if key == "requestId" && Get(m.requestId, "") != "" then Some(Str(m.requestId.value))
              else if key == "ts" then Some(ts.value) else if key == body.key then Some(body.value)
              else if key == "action" then Some(Str("get")) else None
    {
      LookupParts(a, "requestId", Get(m.requestId, ""), "authorization", Get(m.authorization, ""), key);
      LookupThree(a[0], body, ts, key);
    }
  }

  lemma ResponseReads(m: SubscribeStream, c: Config)
    requires m.Response?
    ensures var r := Get(m.response, SubscribeResponse(None, None, "", "", None));
            ReadStream(StreamJson(m, c).value.members, c) == if r.requestId == "" then None else Some(NormStream(m, c))
  {
    hide Lookup, ReadError, NormError, OptField, ErrorJson;
    var r := Get(m.response, SubscribeResponse(None, None, "", "", None));
    var action, ts := Field("action", "subscribe"), Field("ts", r.ts);
    var error := if m.status == ERROR then [Member("error", ErrorJson(r.error))] else [];
    var subId, auth := Get(r.subscriptionId, ""), Get(r.authorization, "");
    var members := StreamJson(m, c).value.members;
    ErrorReads(r.error);
    forall key: string
      ensures Lookup(members, key)
           == if key == "authorization" && auth != "" then Some(Str(auth))
              else if key == "requestId" && r.requestId != "" then Some(Str(r.requestId))
              else if key == "subscriptionId" && subId != "" then Some(Str(subId))
              else if key == "ts" then Some(Str(r.ts))
              else if key == "error" && m.status == ERROR then Some(ErrorJson(r.error))
              else if key == "action" then Some(Str("subscribe")) else None
    {
      var a := [action] + error + [ts];
      LookupParts(a + OptField("subscriptionId", subId), "requestId", r.requestId, "authorization", auth, key);
      LookupAppend(a, OptField("subscriptionId", subId), key);
      LookupOpt("subscriptionId", subId, key);
      LookupAppend([action] + error, [ts], key);
      LookupAppend([action], error, key);
      LookupOne(action, key);
      LookupOne(ts, key);
      LookupOne(Member("error", ErrorJson(r.error)), key);
      LookupNothing(key);
    }
  }

  lemma EventReads(m: SubscribeStream, c: Config)
    requires m.Event? && Codecs(c) && StreamJson(m, c).Some?
    ensures var e := Get(m.event, SubscribeEvent("", None, None, None, None));
            ReadStream(StreamJson(m, c).value.members, c)
            == if e.subscriptionId == "" then None else Some(NormStream(m, c))
  {
    hide Level2Codecs, BodyPrintable, BodyMember, Lookup, ReadPackages, ReadError, NormError, NormData, OptField;
    var e := Get(m.event, SubscribeEvent("", None, None, None, None));
    var action := Field("action", "subscription");
    var body, ts := BodyMember(m.status, e.success, e.error, c), Field("ts", Ts(e.ts, e.tsC, c));
    var members := StreamJson(m, c).value.members;
    BodyReads(m.status, e.success, e.error, c);
    forall key: string
      ensures Lookup(members, key)
           == if key == "subscriptionId" && e.subscriptionId != "" then Some(Str(e.subscriptionId))
              else if key == "ts" then Some(ts.value) else if key == body.key then Some(body.value)
              else if key == "action" then Some(Str("subscription")) else None
    {
      LookupAppend([action, body, ts], OptField("subscriptionId", e.subscriptionId), key);
      LookupOpt("subscriptionId", e.subscriptionId, key);
      LookupThree(action, body, ts, key);
    }
  }

  // ---------------------------------------------------------------- over the wire, as text

  lemma UnmarshalPrinted(j: Json)
    requires Readable(j, AsIs) && j.Obj?
    ensures Unmarshal(Print(j, UNESCAPED)) == Some(j.members)
  {
    ParseOfPrint(j, UNESCAPED, "");
    assert Print(j, UNESCAPED) + "" == Print(j, UNESCAPED);
  }

  function GetResponseOverWire(m: GetResponse, c: Config): Option<GetResponse> {
    var j :- GetResponseJson(m, c);
    var members :- Unmarshal(Print(j, UNESCAPED));
    ReadGetResponse(members, c)
  }

  function StreamOverWire(m: SubscribeStream, c: Config): Option<SubscribeStream> {
    var j :- StreamJson(m, c);
    var members :- Unmarshal(Print(j, UNESCAPED));
    ReadStream(members, c)
  }

  /** Converting a get response to JSON text and back is the identity up to normal form, exactly when there is data to
      print (or an error) and a request id. */
  lemma GetResponseRoundTripIff(m: GetResponse, c: Config)
    requires Codecs(c)
    requires GetResponseJson(m, c).Some? ==> Readable(GetResponseJson(m, c).value, AsIs)
    ensures GetResponseOverWire(m, c) == Some(NormGetResponse(m, c))
            <==> BodyPrintable(m.status, m.success, c) && Get(m.requestId, "") != ""
    ensures GetResponseOverWire(m, c).Some? ==> GetResponseOverWire(m, c) == Some(NormGetResponse(m, c))
  {
    hide Codecs, BodyPrintable, ReadGetResponse, NormGetResponse, Readable, BodyMember, OptField;
    if GetResponseJson(m, c).Some? {
      UnmarshalPrinted(GetResponseJson(m, c).value);
      GetResponseReads(m, c);
    }
  }

  function StreamId(m: SubscribeStream): string {
    match m
    case Response(_, response) => if response.Some? then response.value.requestId else ""
    case Event(_, event) => if event.Some? then event.value.subscriptionId else ""
  }

  /** Every response and every error can be printed; an event only with data points behind listed paths. */
  predicate StreamPrintable(m: SubscribeStream, c: Config) {
    m.Event? && m.status == SUCCESS ==> m.event.Some? && DataPrintable(SuccessData(m.event.value.success), c)
  }

  lemma StreamPrintableIff(m: SubscribeStream, c: Config)
    ensures StreamJson(m, c).Some? <==> StreamPrintable(m, c)
  {
    hide DataPrintable;
  }

  /** The same for subscription streams: responses need a request id, events a subscription id. */
  lemma StreamRoundTripIff(m: SubscribeStream, c: Config)
    requires Codecs(c)
    requires StreamJson(m, c).Some? ==> Readable(StreamJson(m, c).value, AsIs)
    ensures StreamOverWire(m, c) == Some(NormStream(m, c)) <==> StreamPrintable(m, c) && StreamId(m) != ""
    ensures StreamOverWire(m, c).Some? ==> StreamOverWire(m, c) == Some(NormStream(m, c))
  {
    StreamPrintableIff(m, c);
    hide Codecs, ReadStream, NormStream, Readable, BodyPrintable, BodyMember, OptField, StreamPrintable;
    if StreamJson(m, c).Some? {
      UnmarshalPrinted(StreamJson(m, c).value);
      if m.Response? {
        ResponseReads(m, c);
      } else {
        EventReads(m, c);
      }
    }
  }
}
