/** Which responses and events come back from their own text: an exact condition on all texts. */
module GrpcExact {
  import opened Text
  import opened Json
  import opened JsonTexts
  import opened Grpc
  import opened GrpcRoundTrip
  import opened GrpcRequests
  import opened GrpcRestored

  // ---------------------------------------------------------------- what the reader needs for data

  /** The room that a value needs, and that it has no string to escape if the one that is read has none. */
  predicate Covers(read: Json, printed: Json) {
    |Bare(read)| >= |Bare(printed)| && (Raw(read) ==> Raw(printed))
  }

  lemma TextCovers(text: string)
    ensures Covers(Str(text), Str(text))
  {
  }

  /** An object with two entries that cover those of the printed one. */
  lemma PairCovers(ms: seq<Member>, k1: string, v1: Json, p1: Json, k2: string, v2: Json, p2: Json)
    requires k1 != k2 && RawText(k1) && RawText(k2) && Lookup(ms, k1) == Some(v1) && Lookup(ms, k2) == Some(v2)
    requires Covers(v1, p1) && Covers(v2, p2)
    ensures Covers(Obj(ms), Obj([Member(k1, p1), Member(k2, p2)]))
  {
    PairWeight(ms, k1, v1, k2, v2);
    WeightsTwo(Member(k1, v1), Member(k2, v2));
    WeightsTwo(Member(k1, p1), Member(k2, p2));
    ObjectWeight([Member(k1, v1), Member(k2, v2)]);
    ObjectWeight([Member(k1, p1), Member(k2, p2)]);
    hide Weights, Bare, Lookup;
    if Raw(Obj(ms)) {
      LookupRaw(ms, k1);
      LookupRaw(ms, k2);
    }
    PairRaw(Member(k1, p1), Member(k2, p2));
    hide Readable, RawText;
  }

  predicate AllCover(read: seq<Json>, printed: seq<Json>) {
    |read| == |printed| && forall i :: 0 <= i < |read| ==> Covers(read[i], printed[i])
  }

  lemma {:induction false} SizesCover(read: seq<Json>, printed: seq<Json>)
    requires AllCover(read, printed)
    ensures Sizes(read) >= Sizes(printed)
  {
    hide Bare, Raw;
    if read != [] {
      var n := |read| - 1;
      SizesCover(read[..n], printed[..n]);
      assert Covers(read[n], printed[n]);
    }
  }

  /** One value, or several in an array, as they are printed. */
  lemma CollapsedCovers(j: Json, printed: seq<Json>)
    requires printed != [] && AllCover(Spread(Some(j)), printed)
    ensures Covers(j, Collapsed(printed))
  {
    var items := Spread(Some(j));
    assert forall i :: 0 <= i < |items| ==> Covers(items[i], printed[i]);
    SizesCover(items, printed);
    if j.Arr? {
      ArrayWeight(items);
      SizesHead(printed);
    }
    if |printed| > 1 {
      ArrayWeight(printed);
    } else {
      assert printed[1..] == [];
      SizesNothing();
    }
    hide Bare, Sizes;
    assert |printed| > 1 ==> j == Arr(items);
  }

  lemma DataKeys()
    ensures RawText("value") && RawText("ts") && RawText("path") && RawText("dp") && "value" != "ts" && "path" != "dp"
  {
    LettersRaw("value");
    LettersRaw("ts");
    LettersRaw("path");
    LettersRaw("dp");
    assert "value"[0] == 'v' && "ts"[0] == 't' && "path"[0] == 'p' && "dp"[0] == 'd';
    hide RawText;
  }

  lemma PointCovers(p: DataPoint, j: Json, c: Config)
    requires c.level == LEVEL1 && ReadPoint(j, c) == Some(NormPoint(p, c))
    ensures Covers(j, PointJson(p, c))
  {
    DataKeys();
    hide Lookup, Covers;
    var value, ts := Str(p.value), Str(Get(p.ts, ""));
    TextCovers(p.value);
    TextCovers(Get(p.ts, ""));
    PairCovers(j.members, "value", value, value, "ts", ts, ts);
  }

  lemma {:induction false} PointsCover(points: seq<DataPoint>, items: seq<Json>, c: Config)
    requires c.level == LEVEL1 && ReadPoints(items, c) == Some(NormPoints(points, c))
    ensures AllCover(items, PointsJson(points, c))
  {
    hide ReadPoint, PointJson, NormPoint, Covers;
    LengthRead(items, c);
    if items != [] {
      var n := |items| - 1;
      var read := NormPoints(points, c);
      assert read[..n] == NormPoints(points[..n], c) && read[n] == NormPoint(points[n], c);
      PointsCover(points[..n], items[..n], c);
      PointCovers(points[n], items[n], c);
      assert forall i :: 0 <= i < n ==> PointsJson(points[..n], c)[i] == PointsJson(points, c)[i];
      forall i | 0 <= i < |items| ensures Covers(items[i], PointsJson(points, c)[i]) {
        assert i < n ==> Covers(items[..n][i], PointsJson(points[..n], c)[i]);
      }
    }
  }

  lemma {:induction false} LengthRead(items: seq<Json>, c: Config)
    ensures ReadPoints(items, c).Some? ==> |ReadPoints(items, c).value| == |items|
    ensures ReadPackages(items, c).Some? ==> |ReadPackages(items, c).value| == |items|
  {
    hide ReadPoint, ReadPackage;
    if items != [] {
      LengthRead(items[..|items| - 1], c);
    }
  }

  lemma PackageCovers(d: DataPackage, j: Json, c: Config)
    requires c.level == LEVEL1 && PackagePrintable(d, c) && ReadPackage(j, c) == Some(NormPackage(d, c))
    ensures Covers(j, PackageJson(d, c))
  {
    DataKeys();
    hide Lookup, Covers, ReadPoints, Spread, NormPoints, Collapsed;
    var path := Get(d.path, "");
    var dp := Lookup(j.members, "dp");
    PointsLength(d.dp, c);
    NothingSpread(c);
    PointsCover(d.dp, Spread(Entry(j.members, "dp")), c);
    CollapsedCovers(dp.value, PointsJson(d.dp, c));
    TextCovers(path);
    PairCovers(j.members, "path", Str(path), Str(path), "dp", dp.value, Collapsed(PointsJson(d.dp, c)));
  }

  lemma NothingSpread(c: Config)
    ensures ReadPoints(Spread(None), c) == Some([]) && Spread(None) == []
  {
  }

  lemma PointsLength(points: seq<DataPoint>, c: Config)
    ensures |NormPoints(points, c)| == |points|
  {
  }

  lemma {:induction false} PackagesCover(data: seq<DataPackage>, items: seq<Json>, c: Config)
    requires c.level == LEVEL1 && forall i :: 0 <= i < |data| ==> PackagePrintable(data[i], c)
    requires ReadPackages(items, c) == Some(NormData(data, c))
    ensures AllCover(items, PackagesJson(data, c))
  {
    hide ReadPackage, PackageJson, NormPackage, Covers, PackagePrintable;
    LengthRead(items, c);
    if items != [] {
      var n := |items| - 1;
      var read := NormData(data, c);
      assert read[..n] == NormData(data[..n], c) && read[n] == NormPackage(data[n], c);
      PackagesCover(data[..n], items[..n], c);
      PackageCovers(data[n], items[n], c);
      assert forall i :: 0 <= i < n ==> PackagesJson(data[..n], c)[i] == PackagesJson(data, c)[i];
      forall i | 0 <= i < |items| ensures Covers(items[i], PackagesJson(data, c)[i]) {
        assert i < n ==> Covers(items[..n][i], PackagesJson(data[..n], c)[i]);
      }
    }
  }

  lemma DataCovers(data: seq<DataPackage>, j: Json, c: Config)
    requires c.level == LEVEL1 && DataPrintable(data, c)
    requires ReadPackages(Spread(Some(j)), c) == Some(NormData(data, c))
    ensures Covers(j, DataJson(data, c))
  {
    hide PackagePrintable, Covers, ReadPackages, Spread, Collapsed;
    PackagesCover(data, Spread(Some(j)), c);
    CollapsedCovers(j, PackagesJson(data, c));
  }

  lemma WeightsThree(m: Member, n: Member, o: Member)
    ensures Weights([m, n, o]) == Weight(m) + Weight(n) + Weight(o)
  {
    assert [m, n, o] == [m, n] + [o];
    WeightsAppend([m, n], [o]);
    WeightsTwo(m, n);
    WeightsOne(o);
  }

  lemma CostsCons(ms: seq<Member>, key: string, keys: seq<string>)
    ensures Costs(ms, [key] + keys) == Cost(ms, key) + Costs(ms, keys) && Costs(ms, []) == 0
  {
    hide Cost;
    assert ([key] + keys)[1..] == keys;
  }

  lemma CostsFour(ms: seq<Member>, k1: string, k2: string, k3: string, k4: string)
    ensures Costs(ms, [k1, k2, k3]) == Cost(ms, k1) + Cost(ms, k2) + Cost(ms, k3)
    ensures Costs(ms, [k1, k2, k3, k4]) == Cost(ms, k1) + Cost(ms, k2) + Cost(ms, k3) + Cost(ms, k4)
  {
    hide Cost, Costs;
    CostsCons(ms, k4, []);
    CostsCons(ms, k3, []);
    CostsCons(ms, k3, [k4]);
    CostsCons(ms, k2, [k3]);
    CostsCons(ms, k2, [k3, k4]);
    CostsCons(ms, k1, [k2, k3]);
    CostsCons(ms, k1, [k2, k3, k4]);
    assert [k4] + [] == [k4] && [k3] + [] == [k3] && [k3] + [k4] == [k3, k4] && [k2] + [k3] == [k2, k3];
    assert [k2] + [k3, k4] == [k2, k3, k4] && [k1] + [k2, k3] == [k1, k2, k3];
    assert [k1] + [k2, k3, k4] == [k1, k2, k3, k4];
  }

  lemma CostIs(ms: seq<Member>, key: string, value: Json)
    requires Lookup(ms, key) == Some(value)
    ensures Cost(ms, key) == Weight(Member(key, value))
  {
    hide Weight, Lookup;
  }

  lemma ThreeCosts(ms: seq<Member>, k1: string, v1: Json, k2: string, v2: Json, k3: string, v3: Json)
    requires k1 != k2 && k1 != k3 && k2 != k3
    requires Lookup(ms, k1) == Some(v1) && Lookup(ms, k2) == Some(v2) && Lookup(ms, k3) == Some(v3)
    ensures Weights(ms) >= Weight(Member(k1, v1)) + Weight(Member(k2, v2)) + Weight(Member(k3, v3))
  {
    hide Weight, Lookup, Cost;
    CostsFit(ms, [k1, k2, k3]);
    CostsFour(ms, k1, k2, k3, k1);
    hide Costs;
    CostIs(ms, k1, v1);
    CostIs(ms, k2, v2);
    CostIs(ms, k3, v3);
  }

  lemma ErrorKeys()
    ensures RawText("number") && RawText("reason") && RawText("message")
    ensures "number" != "reason" && "number" != "message" && "reason" != "message"
  {
    LettersRaw("number");
    LettersRaw("reason");
    LettersRaw("message");
    assert "number"[0] == 'n' && "reason"[0] == 'r' && "message"[0] == 'm';
    hide RawText;
  }

  lemma ThreeRaw(m: Member, n: Member, o: Member)
    ensures Raw(Obj([m, n, o])) <==> Raw(Obj([m, n])) && Raw(Obj([o]))
  {
    assert [m, n, o] == [m, n] + [o];
    RawAppend([m, n], [o]);
    hide Readable;
  }

  /** An error with a number; the reader makes an empty one of a missing number. */
  lemma ErrorCovers(e: Option<ErrorResponse>, j: Json)
    requires ReadError(Some(j)) == Some(NormError(e)) && NormError(e).number != ""
    ensures Covers(j, ErrorJson(e))
  {
    ErrorKeys();
    hide Lookup, Bare;
    var error := Get(e, ErrorResponse("", None, None));
    var ms, reason, message := j.members, Get(error.reason, ""), Get(error.message, "");
    assert Lookup(ms, "number") == Some(Str(error.number)) && Lookup(ms, "reason") == Some(Str(reason));
    assert Lookup(ms, "message") == Some(Str(message));
    var n, r, m := Field("number", error.number), Field("reason", reason), Field("message", message);
    ThreeCosts(ms, "number", n.value, "reason", r.value, "message", m.value);
    WeightsThree(n, r, m);
    NotEmpty(ms, "number");
    ObjectWeight(ms);
    ObjectWeight([n, r, m]);
    hide Weights, Weight;
    if Raw(Obj(ms)) {
      LookupRaw(ms, "number");
      LookupRaw(ms, "reason");
      LookupRaw(ms, "message");
    }
    ThreeRaw(n, r, m);
    PairRaw(n, r);
    SingleRaw(m);
    hide RawText, Readable;
  }

  // ---------------------------------------------------------------- get responses

  lemma CoversCost(ms: seq<Member>, key: string, j: Json, printed: Json)
    requires Lookup(ms, key) == Some(j) && Covers(j, printed)
    ensures Cost(ms, key) >= Weight(Member(key, printed))
  {
    hide Lookup, Bare, Raw;
  }

  lemma OptRead(ms: seq<Member>, key: string, value: string)
    requires OptString(Entry(ms, key)) == Some(NormText(Some(value))) || OptString(Entry(ms, key)) == Some(None)
    requires value != "" ==> OptString(Entry(ms, key)) == Some(Some(value))
    ensures Cost(ms, key) >= OptCost(key, value)
    ensures value != "" ==> Lookup(ms, key) == Some(Str(value))
  {
    hide Lookup, Weight;
  }

  /** The body of a response as it is read. */
  predicate BodyRead(ms: seq<Member>, status: Status, success: Option<Success>, error: Option<ErrorResponse>,
                     c: Config)
  {
    if status == SUCCESS then
      && Lookup(ms, "data").Some?
      && ReadPackages(Spread(Some(Lookup(ms, "data").value)), c) == Some(NormData(SuccessData(success), c))
    else Lookup(ms, "error").Some? && ReadError(Some(Lookup(ms, "error").value)) == Some(NormError(error))
  }

  /** Some error is printed without a number; the reader takes a missing number for an empty one. */
  predicate NoNumber(status: Status, error: Option<ErrorResponse>) {
    status != SUCCESS && NormError(error).number == ""
  }

  lemma BodyCovers(ms: seq<Member>, status: Status, success: Option<Success>, error: Option<ErrorResponse>, c: Config)
    requires c.level == LEVEL1 && BodyPrintable(status, success, c) && !NoNumber(status, error)
    requires BodyRead(ms, status, success, error, c)
    ensures var body := BodyMember(status, success, error, c);
            && Lookup(ms, body.key).Some? && Covers(Lookup(ms, body.key).value, body.value)
            && Cost(ms, body.key) >= Weight(body)
  {
    hide Lookup, Covers, ReadPackages, ReadError, DataPrintable, NormData, DataJson, ErrorJson, Weight, Cost;
    if status == SUCCESS {
      DataCovers(SuccessData(success), Lookup(ms, "data").value, c);
    } else {
      ErrorCovers(error, Lookup(ms, "error").value);
    }
    var body := BodyMember(status, success, error, c);
    CoversCost(ms, body.key, Lookup(ms, body.key).value, body.value);
  }

  lemma ResponseParts(m: GetResponse, ms: seq<Member>, c: Config)
    requires c.level == LEVEL1 && BodyPrintable(m.status, m.success, c)
    requires ReadGetResponse(ms, c) == Some(NormGetResponse(m, c))
    ensures m.requestId.Some? && Lookup(ms, "requestId") == Some(Str(m.requestId.value))
    ensures Lookup(ms, "ts") == Some(Str(Get(m.ts, "")))
    ensures OptString(Entry(ms, "authorization")) == Some(NormText(m.authorization))
    ensures BodyRead(ms, m.status, m.success, m.error, c)
  {
    hide Lookup, ReadPackages, ReadError, DataPrintable, NormData, NormError;
    if m.status == SUCCESS {
      assert Entry(ms, "error").None? && Spread(Entry(ms, "data")) != [];
      assert Entry(ms, "data") == Lookup(ms, "data");
    } else {
      assert Entry(ms, "error").Some? && Entry(ms, "error") == Lookup(ms, "error");
    }
  }

  lemma MessageKeys()
    ensures RawText("ts") && RawText("requestId") && RawText("authorization") && RawText("data") && RawText("error")
    ensures RawText("subscriptionId") && RawText("action")
    ensures Distinct(["data", "ts", "requestId", "authorization"])
    ensures Distinct(["error", "ts", "requestId", "authorization"])
    ensures Distinct(["data", "ts", "subscriptionId"]) && Distinct(["error", "ts", "subscriptionId"])
    ensures "action" !in ["data", "ts", "requestId", "authorization"]
    ensures "action" !in ["error", "ts", "requestId", "authorization"]
    ensures "action" !in ["data", "ts", "subscriptionId"] && "action" !in ["error", "ts", "subscriptionId"]
  {
    LettersRaw("ts");
    LettersRaw("requestId");
    LettersRaw("authorization");
    LettersRaw("data");
    LettersRaw("error");
    LettersRaw("subscriptionId");
    LettersRaw("action");
    hide RawText;
    assert "data"[0] == 'd' && "error"[0] == 'e' && "ts"[0] == 't' && "requestId"[0] == 'r';
    assert "authorization"[1] == 'u' && "action"[1] == 'c' && "subscriptionId"[0] == 's' && "authorization"[0] == 'a';
  }

  /** The members of a get response behind its action. */
  function ResponseOthers(body: Member, ts: string, requestId: string, auth: string): seq<Member> {
    [body, Field("ts", ts)] + (OptField("requestId", requestId) + OptField("authorization", auth))
  }

  lemma ResponseOthersWeight(body: Member, ts: string, requestId: string, auth: string)
    ensures Weights(ResponseOthers(body, ts, requestId, auth))
         == Weight(body) + Weight(Field("ts", ts)) + OptCost("requestId", requestId) + OptCost("authorization", auth)
  {
    hide Weight, OptCost, OptField;
    WeightsAppend([body, Field("ts", ts)], OptField("requestId", requestId) + OptField("authorization", auth));
    WeightsAppend(OptField("requestId", requestId), OptField("authorization", auth));
    WeightsTwo(body, Field("ts", ts));
    OptWeights("requestId", requestId);
    OptWeights("authorization", auth);
    hide Weights;
  }

  lemma ResponseOthersRaw(body: Member, ts: string, requestId: string, auth: string)
    ensures Raw(Obj(ResponseOthers(body, ts, requestId, auth)))
       <==> RawText(body.key) && Raw(body.value) && RawText(ts) && RawText(requestId) && RawText(auth)
  {
    MessageKeys();
    RawAppend([body, Field("ts", ts)], OptField("requestId", requestId) + OptField("authorization", auth));
    RawAppend(OptField("requestId", requestId), OptField("authorization", auth));
    PairRaw(body, Field("ts", ts));
    OptRaw("requestId", requestId);
    OptRaw("authorization", auth);
    hide ReadableText, OptField;
  }

  lemma ResponsePrinted(m: GetResponse, c: Config)
    requires c.level == LEVEL1 && BodyPrintable(m.status, m.success, c)
    ensures GetResponseJson(m, c)
         == Some(Obj([Field("action", "get")]
                     + ResponseOthers(BodyMember(m.status, m.success, m.error, c), Get(m.ts, ""), Get(m.requestId, ""),
                                      Get(m.authorization, ""))))
  {
    hide BodyPrintable, BodyMember, OptField;
    var a, body, ts := Field("action", "get"), BodyMember(m.status, m.success, m.error, c), Field("ts", Get(m.ts, ""));
    var o1, o2 := OptField("requestId", Get(m.requestId, "")), OptField("authorization", Get(m.authorization, ""));
    assert [a, body, ts] + o1 + o2 == [a] + ([body, ts] + (o1 + o2));
  }

  lemma OptEqual(key: string, value: string)
    ensures OptCost(key, value) <= Weight(Field(key, value))
    ensures OptCost(key, value) == Weight(Field(key, value)) <==> value != ""
  {
  }

  lemma ResponseRestored(m: GetResponse, c: Config)
    requires c.level == LEVEL1 && !NoNumber(m.status, m.error)
    requires GetResponseOverWire(m, c) == Some(NormGetResponse(m, c))
    ensures GetResponseJson(m, c).Some? && Raw(GetResponseJson(m, c).value) && Get(m.requestId, "") != ""
  {
    var ms := Unmarshal(Bare(GetResponseJson(m, c).value)).value;
    var body := BodyMember(m.status, m.success, m.error, c);
    ResponsePrinted(m, c);
    ResponseParts(m, ms, c);
    MessageKeys();
    hide GetResponseJson, ReadGetResponse, Unmarshal, Bare, NormGetResponse, BodyPrintable, ReadPackages, ReadError;
    hide Lookup, Covers, NoNumber;
    BodyCovers(ms, m.status, m.success, m.error, c);
    KeyOfBody(m.status, m.success, m.error, c);
    hide BodyMember, BodyRead;
    var ts, requestId, auth := Get(m.ts, ""), m.requestId.value, Get(m.authorization, "");
    var others := ResponseOthers(body, ts, requestId, auth);
    var keys := [body.key, "ts", "requestId", "authorization"];
    LettersRaw("get");
    assert others != [];
    RoomBehind("get", others, ms, keys);
    CostsFour(ms, body.key, "ts", "requestId", "authorization");
    ResponseOthersWeight(body, ts, requestId, auth);
    CostIs(ms, "ts", Str(ts));
    CostIs(ms, "requestId", Str(requestId));
    OptRead(ms, "authorization", auth);
    OptEqual("requestId", requestId);
    hide Weight, Weights, Cost, Costs, OptCost;
    assert Raw(Obj(ms));
    ResponseRaw(ms, body, ts, requestId, auth);
    SingleRaw(Field("action", "get"));
    RawAppend([Field("action", "get")], others);
  }

  lemma KeyOfBody(status: Status, success: Option<Success>, error: Option<ErrorResponse>, c: Config)
    requires BodyPrintable(status, success, c)
    ensures var key := BodyMember(status, success, error, c).key; key == "data" || key == "error"
  {
    hide DataPrintable, DataJson, ErrorJson;
  }

  lemma ResponseRaw(ms: seq<Member>, body: Member, ts: string, requestId: string, auth: string)
    requires Raw(Obj(ms)) && (body.key == "data" || body.key == "error")
    requires Lookup(ms, body.key).Some? && Covers(Lookup(ms, body.key).value, body.value)
    requires Lookup(ms, "ts") == Some(Str(ts)) && Lookup(ms, "requestId") == Some(Str(requestId))
    requires auth != "" ==> Lookup(ms, "authorization") == Some(Str(auth))
    ensures Raw(Obj(ResponseOthers(body, ts, requestId, auth)))
  {
    hide Lookup, ResponseOthers, Bare;
    MessageKeys();
    LookupRaw(ms, body.key);
    LookupRaw(ms, "ts");
    LookupRaw(ms, "requestId");
    if auth != "" {
      LookupRaw(ms, "authorization");
    }
    ResponseOthersRaw(body, ts, requestId, auth);
  }

  /** For every get response: converting it to text and back is the identity up to normal form exactly when there is
      data to print (or an error), a request id, and no text that needs an escape. (The premise leaves to the other
      law what the time codec of level 2 makes of foreign texts, and errors without a number.) */
  lemma GetResponseExactIff(m: GetResponse, c: Config)
    requires Codecs(c)
    requires (c.level == LEVEL2 || NoNumber(m.status, m.error)) && GetResponseJson(m, c).Some? ==>
               Raw(GetResponseJson(m, c).value)
    ensures GetResponseOverWire(m, c) == Some(NormGetResponse(m, c))
            <==> BodyPrintable(m.status, m.success, c) && Get(m.requestId, "") != "" && Raw(GetResponseJson(m, c).value)
  {
    hide Codecs, BodyPrintable, BodyMember, NoNumber, Readable, GetResponseOverWire, NormGetResponse, OptField;
    if GetResponseJson(m, c).Some? && Raw(GetResponseJson(m, c).value) {
      GetResponseRoundTripIff(m, c);
    } else if GetResponseJson(m, c).Some? {
      hide GetResponseJson;
      if GetResponseOverWire(m, c) == Some(NormGetResponse(m, c)) {
        ResponseRestored(m, c);
      }
    } else {
      NothingPrinted(m, c);
    }
  }

  lemma NothingPrinted(m: GetResponse, c: Config)
    requires GetResponseJson(m, c) == None
    ensures GetResponseOverWire(m, c) == None
  {
  }

  // ---------------------------------------------------------------- subscription responses

  function ResponseOf(m: SubscribeStream): SubscribeResponse
    requires m.Response?
  {
    Get(m.response, SubscribeResponse(None, None, "", "", None))
  }

  /** The members of a subscription response behind its action. */
  function StreamOthers(m: SubscribeStream): seq<Member>
    requires m.Response?
  {
    var r := ResponseOf(m);
    (if m.status == ERROR then [Member("error", ErrorJson(r.error))] else [])
    + ([Field("ts", r.ts)]
       + (OptField("subscriptionId", Get(r.subscriptionId, ""))
          + (OptField("requestId", r.requestId) + OptField("authorization", Get(r.authorization, "")))))
  }

  lemma StreamPrinted(m: SubscribeStream, c: Config)
    requires m.Response?
    ensures StreamJson(m, c) == Some(Obj([Field("action", "subscribe")] + StreamOthers(m)))
  {
    hide ErrorJson, OptField;
    var r, a := ResponseOf(m), Field("action", "subscribe");
    var e := if m.status == ERROR then [Member("error", ErrorJson(r.error))] else [];
    var t, o1 := [Field("ts", r.ts)], OptField("subscriptionId", Get(r.subscriptionId, ""));
    var o2, o3 := OptField("requestId", r.requestId), OptField("authorization", Get(r.authorization, ""));
    assert [a] + e + t + o1 + o2 + o3 == [a] + (e + (t + (o1 + (o2 + o3))));
  }

  lemma StreamOthersWeight(m: SubscribeStream)
    requires m.Response?
    ensures var r := ResponseOf(m);
            Weights(StreamOthers(m))
            == (if m.status == ERROR then Weight(Member("error", ErrorJson(r.error))) else 0)
               + Weight(Field("ts", r.ts))
               + OptCost("subscriptionId", Get(r.subscriptionId, "")) + OptCost("requestId", r.requestId)
               + OptCost("authorization", Get(r.authorization, ""))
  {
    hide Weight, OptCost, OptField, ErrorJson;
    var r := ResponseOf(m);
    var e := if m.status == ERROR then [Member("error", ErrorJson(r.error))] else [];
    var t, o1 := [Field("ts", r.ts)], OptField("subscriptionId", Get(r.subscriptionId, ""));
    var o2, o3 := OptField("requestId", r.requestId), OptField("authorization", Get(r.authorization, ""));
    WeightsAppend(e, t + (o1 + (o2 + o3)));
    WeightsAppend(t, o1 + (o2 + o3));
    WeightsAppend(o1, o2 + o3);
    WeightsAppend(o2, o3);
    WeightsOne(Field("ts", r.ts));
    OptWeights("subscriptionId", Get(r.subscriptionId, ""));
    OptWeights("requestId", r.requestId);
    OptWeights("authorization", Get(r.authorization, ""));
    if m.status == ERROR {
      WeightsOne(e[0]);
    }
    hide Weights;
  }

  lemma StreamOthersRaw(m: SubscribeStream)
    requires m.Response?
    ensures var r := ResponseOf(m);
            Raw(Obj(StreamOthers(m)))
            <==> (m.status == ERROR ==> Raw(ErrorJson(r.error))) && RawText(r.ts) && RawText(Get(r.subscriptionId, ""))
                 && RawText(r.requestId) && RawText(Get(r.authorization, ""))
  {
    MessageKeys();
    var r := ResponseOf(m);
    var e := if m.status == ERROR then [Member("error", ErrorJson(r.error))] else [];
    var t, o1 := [Field("ts", r.ts)], OptField("subscriptionId", Get(r.subscriptionId, ""));
    var o2, o3 := OptField("requestId", r.requestId), OptField("authorization", Get(r.authorization, ""));
    RawAppend(e, t + (o1 + (o2 + o3)));
    RawAppend(t, o1 + (o2 + o3));
    RawAppend(o1, o2 + o3);
    RawAppend(o2, o3);
    SingleRaw(Field("ts", r.ts));
    OptRaw("subscriptionId", Get(r.subscriptionId, ""));
    OptRaw("requestId", r.requestId);
    OptRaw("authorization", Get(r.authorization, ""));
    if m.status == ERROR {
      SingleRaw(e[0]);
    }
    hide ReadableText, OptField, ErrorJson;
  }

  /** A subscription response whose text has room that the reader does not need: an error without a number, or with a
      subscription id. */
  predicate HasRoom(m: SubscribeStream)
    requires m.Response?
  {
    m.status == ERROR && (NoNumber(m.status, ResponseOf(m).error) || Get(ResponseOf(m).subscriptionId, "") != "")
  }

  /** What the reader finds of a subscription response that is restored. */
  predicate StreamRead(m: SubscribeStream, ms: seq<Member>)
    requires m.Response?
  {
    var r := ResponseOf(m);
    && Lookup(ms, "requestId") == Some(Str(r.requestId)) && Lookup(ms, "ts") == Some(Str(r.ts))
    && OptString(Entry(ms, "authorization")) == Some(NormText(r.authorization))
    && (m.status == SUCCESS ==> OptString(Entry(ms, "subscriptionId")) == Some(NormText(r.subscriptionId)))
    && (m.status == ERROR ==>
          Lookup(ms, "error").Some? && ReadError(Some(Lookup(ms, "error").value)) == Some(NormError(r.error)))
  }

  lemma StreamParts(m: SubscribeStream, ms: seq<Member>, c: Config)
    requires m.Response? && ReadStream(ms, c) == Some(NormStream(m, c))
    ensures StreamRead(m, ms)
  {
    hide Lookup, ReadError, NormError, ReadPackages;
    assert m.status == ERROR ==> Entry(ms, "error").Some? && Entry(ms, "error") == Lookup(ms, "error");
  }

  const STREAM_KEYS := ["error", "ts", "subscriptionId", "requestId", "authorization"]

  lemma StreamKeys(ms: seq<Member>)
    ensures Distinct(STREAM_KEYS) && "action" !in STREAM_KEYS
    ensures Costs(ms, STREAM_KEYS)
         == Cost(ms, "error") + (Cost(ms, "ts") + Cost(ms, "subscriptionId") + Cost(ms, "requestId")
                                 + Cost(ms, "authorization"))
  {
    assert "error"[0] == 'e' && "ts"[0] == 't' && "requestId"[0] == 'r' && "subscriptionId"[0] == 's';
    assert "authorization"[1] == 'u' && "action"[1] == 'c' && "authorization"[0] == 'a';
    CostsFour(ms, "ts", "subscriptionId", "requestId", "authorization");
    CostsCons(ms, "error", ["ts", "subscriptionId", "requestId", "authorization"]);
    assert STREAM_KEYS == ["error"] + ["ts", "subscriptionId", "requestId", "authorization"];
    hide Cost, Costs;
  }

  /** What is read of a subscription response takes the room that its members have, and more without a request id. */
  lemma StreamCosts(m: SubscribeStream, ms: seq<Member>)
    requires m.Response? && !HasRoom(m) && StreamRead(m, ms)
    ensures Costs(ms, STREAM_KEYS) >= Weights(StreamOthers(m))
    ensures ResponseOf(m).requestId == "" ==> Costs(ms, STREAM_KEYS) > Weights(StreamOthers(m))
  {
    var r := ResponseOf(m);
    StreamKeys(ms);
    StreamOthersWeight(m);
    hide ReadError, Lookup, Covers, STREAM_KEYS, OptField, StreamOthers, Weights, Costs;
    if m.status == ERROR {
      ErrorCovers(r.error, Lookup(ms, "error").value);
      CoversCost(ms, "error", Lookup(ms, "error").value, ErrorJson(r.error));
    }
    hide ErrorJson, NoNumber;
    CostIs(ms, "ts", Str(r.ts));
    CostIs(ms, "requestId", Str(r.requestId));
    OptRead(ms, "authorization", Get(r.authorization, ""));
    if m.status == SUCCESS {
      OptRead(ms, "subscriptionId", Get(r.subscriptionId, ""));
    }
    OptEqual("requestId", r.requestId);
    NothingOpt("subscriptionId");
    hide Weight, Cost, OptCost;
  }

  lemma StreamRaw(m: SubscribeStream, ms: seq<Member>)
    requires m.Response? && !HasRoom(m) && StreamRead(m, ms) && Raw(Obj(ms))
    ensures Raw(Obj(StreamOthers(m)))
  {
    var r := ResponseOf(m);
    StreamOthersRaw(m);
    OptRead(ms, "authorization", Get(r.authorization, ""));
    if m.status == SUCCESS {
      OptRead(ms, "subscriptionId", Get(r.subscriptionId, ""));
    }
    hide ReadError, Lookup, Covers, OptField, StreamOthers, Cost, OptCost, Readable;
    if m.status == ERROR {
      ErrorCovers(r.error, Lookup(ms, "error").value);
      LookupRaw(ms, "error");
      CoversRaw(Lookup(ms, "error").value, ErrorJson(r.error));
    }
    hide ErrorJson, NoNumber;
    LookupRaw(ms, "ts");
    LookupRaw(ms, "requestId");
    if Get(r.subscriptionId, "") != "" {
      LookupRaw(ms, "subscriptionId");
    }
    if Get(r.authorization, "") != "" {
      LookupRaw(ms, "authorization");
    }
    NothingRaw();
    hide RawText;
  }

  lemma NothingRaw()
    ensures RawText("")
  {
  }

  lemma StreamRestored(m: SubscribeStream, c: Config)
    requires m.Response? && !HasRoom(m) && StreamOverWire(m, c) == Some(NormStream(m, c))
    ensures StreamJson(m, c).Some? && Raw(StreamJson(m, c).value) && ResponseOf(m).requestId != ""
  {
    var ms, others := Unmarshal(Bare(StreamJson(m, c).value)).value, StreamOthers(m);
    StreamPrinted(m, c);
    StreamParts(m, ms, c);
    StreamKeys(ms);
    LettersRaw("subscribe");
    assert others != [];
    hide StreamJson, ReadStream, Unmarshal, Bare, NormStream, HasRoom, StreamRead, StreamOthers, Costs, Weights;
    hide STREAM_KEYS;
    RoomBehind("subscribe", others, ms, STREAM_KEYS);
    StreamCosts(m, ms);
    assert Raw(Obj(ms));
    StreamRaw(m, ms);
    BehindRaw("subscribe", others);
    hide RawText;
  }

  lemma BehindRaw(action: string, others: seq<Member>)
    requires RawText(action) && Raw(Obj(others))
    ensures Raw(Obj([Field("action", action)] + others))
  {
    MessageKeys();
    SingleRaw(Field("action", action));
    RawAppend([Field("action", action)], others);
    hide ReadableText;
  }

  lemma NothingOpt(key: string)
    ensures OptCost(key, "") == 0
  {
  }

  lemma CoversRaw(read: Json, printed: Json)
    requires Covers(read, printed) && Raw(read)
    ensures Raw(printed)
  {
  }

  // ---------------------------------------------------------------- subscription events

  function EventOf(m: SubscribeStream): SubscribeEvent
    requires m.Event?
  {
    Get(m.event, SubscribeEvent("", None, None, None, None))
  }

  function EventOthers(body: Member, ts: string, subId: string): seq<Member> {
    [body, Field("ts", ts)] + OptField("subscriptionId", subId)
  }

  lemma EventPrinted(m: SubscribeStream, c: Config)
    requires m.Event? && c.level == LEVEL1 && StreamJson(m, c).Some?
    ensures var e := EventOf(m);
            BodyPrintable(m.status, e.success, c)
            && StreamJson(m, c) == Some(Obj([Field("action", "subscription")]
                                            + EventOthers(BodyMember(m.status, e.success, e.error, c), Get(e.ts, ""),
                                                          e.subscriptionId)))
  {
    hide BodyPrintable, BodyMember, OptField;
    var e, a := EventOf(m), Field("action", "subscription");
    if BodyPrintable(m.status, e.success, c) {
      var body, ts := BodyMember(m.status, e.success, e.error, c), Field("ts", Get(e.ts, ""));
      assert [a, body, ts] + OptField("subscriptionId", e.subscriptionId)
          == [a] + ([body, ts] + OptField("subscriptionId", e.subscriptionId));
    }
  }

  lemma EventParts(m: SubscribeStream, ms: seq<Member>, c: Config)
    requires m.Event? && c.level == LEVEL1 && BodyPrintable(m.status, EventOf(m).success, c)
    requires ReadStream(ms, c) == Some(NormStream(m, c))
    ensures var e := EventOf(m);
            && Lookup(ms, "subscriptionId") == Some(Str(e.subscriptionId))
            && Lookup(ms, "ts") == Some(Str(Get(e.ts, "")))
            && BodyRead(ms, m.status, e.success, e.error, c)
  {
    hide Lookup, ReadError, NormError;
    var e := EventOf(m);
    if m.status == SUCCESS {
      assert Entry(ms, "error").None?;
      assert ReadPackages(Spread(Entry(ms, "data")), c) == Some(NormData(SuccessData(e.success), c));
      LengthRead(Spread(Entry(ms, "data")), c);
      assert Spread(Entry(ms, "data")) != [] && Entry(ms, "data") == Lookup(ms, "data");
    } else {
      assert Entry(ms, "error").Some? && Entry(ms, "error") == Lookup(ms, "error");
    }
  }

  lemma EventOthersFacts(body: Member, ts: string, subId: string)
    ensures Weights(EventOthers(body, ts, subId))
         == Weight(body) + Weight(Field("ts", ts)) + OptCost("subscriptionId", subId)
    ensures Raw(Obj(EventOthers(body, ts, subId)))
       <==> RawText(body.key) && Raw(body.value) && RawText(ts) && RawText(subId)
  {
    MessageKeys();
    WeightsAppend([body, Field("ts", ts)], OptField("subscriptionId", subId));
    WeightsTwo(body, Field("ts", ts));
    OptWeights("subscriptionId", subId);
    RawAppend([body, Field("ts", ts)], OptField("subscriptionId", subId));
    PairRaw(body, Field("ts", ts));
    OptRaw("subscriptionId", subId);
    hide Weight, Weights, OptCost, OptField, ReadableText;
  }

  /** What the reader finds of an event that is restored. */
  predicate EventRead(ms: seq<Member>, body: Member, ts: string, subId: string) {
    && (body.key == "data" || body.key == "error")
    && Lookup(ms, body.key).Some? && Covers(Lookup(ms, body.key).value, body.value)
    && Cost(ms, body.key) >= Weight(body)
    && Lookup(ms, "ts") == Some(Str(ts)) && Lookup(ms, "subscriptionId") == Some(Str(subId))
  }

  /** What is read takes the room of the printed members, and more without a subscription id; if it is all taken, no
      string needs an escape. */
  lemma EventRoom(ms: seq<Member>, body: Member, ts: string, subId: string)
    requires EventRead(ms, body, ts, subId)
    requires Unmarshal(Bare(Obj([Field("action", "subscription")] + EventOthers(body, ts, subId)))) == Some(ms)
    ensures Raw(Obj(ms)) && subId != ""
  {
    var others, keys := EventOthers(body, ts, subId), [body.key, "ts", "subscriptionId"];
    MessageKeys();
    LettersRaw("subscription");
    assert others != [];
    hide Unmarshal, Bare, Lookup, Covers, RawText, Readable;
    RoomBehind("subscription", others, ms, keys);
    CostsFour(ms, body.key, "ts", "subscriptionId", "");
    EventOthersFacts(body, ts, subId);
    CostIs(ms, "ts", Str(ts));
    CostIs(ms, "subscriptionId", Str(subId));
    OptEqual("subscriptionId", subId);
    hide Weight, Weights, Cost, Costs, OptCost, OptField;
  }

  lemma EventRaw(ms: seq<Member>, body: Member, ts: string, subId: string)
    requires EventRead(ms, body, ts, subId) && Raw(Obj(ms))
    ensures Raw(Obj(EventOthers(body, ts, subId)))
  {
    hide Lookup, EventOthers, Bare, Cost, Weight;
    MessageKeys();
    LookupRaw(ms, body.key);
    LookupRaw(ms, "ts");
    LookupRaw(ms, "subscriptionId");
    EventOthersFacts(body, ts, subId);
  }

  lemma EventFound(m: SubscribeStream, ms: seq<Member>, c: Config)
    requires m.Event? && c.level == LEVEL1 && !NoNumber(m.status, EventOf(m).error)
    requires BodyPrintable(m.status, EventOf(m).success, c) && ReadStream(ms, c) == Some(NormStream(m, c))
    ensures var e := EventOf(m);
            EventRead(ms, BodyMember(m.status, e.success, e.error, c), Get(e.ts, ""), e.subscriptionId)
  {
    var e := EventOf(m);
    EventParts(m, ms, c);
    hide ReadStream, NormStream, BodyPrintable, ReadPackages, ReadError, Lookup, Covers, NoNumber, Weight, Cost;
    BodyCovers(ms, m.status, e.success, e.error, c);
    KeyOfBody(m.status, e.success, e.error, c);
    hide BodyMember, BodyRead;
  }

  lemma EventRestored(m: SubscribeStream, c: Config)
    requires m.Event? && c.level == LEVEL1 && !NoNumber(m.status, EventOf(m).error)
    requires StreamOverWire(m, c) == Some(NormStream(m, c))
    ensures StreamJson(m, c).Some? && Raw(StreamJson(m, c).value) && EventOf(m).subscriptionId != ""
  {
    var ms, e := Unmarshal(Bare(StreamJson(m, c).value)).value, EventOf(m);
    EventPrinted(m, c);
    LettersRaw("subscription");
    hide StreamJson, ReadStream, Unmarshal, Bare, NormStream, BodyPrintable, NoNumber, RawText, Readable, EventRead,
      EventOthers, BodyMember;
    EventFound(m, ms, c);
    var body, ts, subId := BodyMember(m.status, e.success, e.error, c), Get(e.ts, ""), e.subscriptionId;
    EventRoom(ms, body, ts, subId);
    EventRaw(ms, body, ts, subId);
    BehindRaw("subscription", EventOthers(body, ts, subId));
  }

  /** The texts of these messages are left to the other law: level 2, errors without a number, and error responses
      with a subscription id. */
  predicate LeftOver(m: SubscribeStream, c: Config) {
    match m
    case Response(_, _) => HasRoom(m)
    case Event(_, _) => c.level == LEVEL2 || NoNumber(m.status, EventOf(m).error)
  }

  /** The same for subscription responses and events. */
  lemma StreamExactIff(m: SubscribeStream, c: Config)
    requires Codecs(c)
    requires LeftOver(m, c) && StreamJson(m, c).Some? ==> Raw(StreamJson(m, c).value)
    ensures StreamOverWire(m, c) == Some(NormStream(m, c))
            <==> StreamPrintable(m, c) && StreamId(m) != "" && StreamJson(m, c).Some? && Raw(StreamJson(m, c).value)
  {
    hide Codecs, BodyPrintable, BodyMember, NoNumber, Readable, NormStream, OptField, HasRoom;
    if StreamJson(m, c).Some? && Raw(StreamJson(m, c).value) {
      StreamRoundTripIff(m, c);
    } else if StreamJson(m, c).Some? {
      hide StreamJson, StreamOverWire;
      if StreamOverWire(m, c) == Some(NormStream(m, c)) {
        if m.Response? {
          StreamRestored(m, c);
        } else {
          EventRestored(m, c);
        }
      }
    }
  }
}
