/** Protobuf messages of the gRPC transport, the JSON values they are printed as, and how they are read back. */
module Grpc {
  import opened Text
  import opened PathList
  import opened Json

  // ---------------------------------------------------------------- protobuf messages

  type Int32 = x: int | -0x8000_0000 <= x < 0x8000_0000

  datatype Status = SUCCESS | ERROR
  datatype Level = LEVEL1 | LEVEL2

  datatype ErrorResponse = ErrorResponse(number: string, reason: Option<string>, message: Option<string>)

  datatype DataPoint = DataPoint(value: string, ts: Option<string>, tsC: Option<Int32>)

  datatype DataPackage = DataPackage(path: Option<string>, pathC: Option<Int32>, dp: seq<DataPoint>)

  /** `metadata` stays absent in subscription events. */
  datatype Success = Success(dataPack: Option<seq<DataPackage>>, metadata: Option<string>)

  datatype GetResponse = GetResponse(status: Status, success: Option<Success>, error: Option<ErrorResponse>,
                                     requestId: Option<string>, ts: Option<string>, tsC: Option<Int32>,
                                     authorization: Option<string>)

  datatype SubscribeResponse = SubscribeResponse(error: Option<ErrorResponse>, subscriptionId: Option<string>,
                                                 requestId: string, ts: string, authorization: Option<string>)

  datatype SubscribeEvent = SubscribeEvent(subscriptionId: string, success: Option<Success>,
                                           error: Option<ErrorResponse>, ts: Option<string>, tsC: Option<Int32>)

  /** The two message types; the other arm is not looked at. */
  datatype SubscribeStream =
    | Response(status: Status, response: Option<SubscribeResponse>)
    | Event(status: Status, event: Option<SubscribeEvent>)

  datatype RangeValue = RangeValue(logicOp: string, boundary: string)

  /** `Undefined` stands for a filter type that is not in the list. */
  datatype Filter =
    | Paths(relative: seq<string>)
    | Timebased(period: string)
    | Range(bounds: seq<RangeValue>)
    | Change(logicOp: string, diff: string)
    | Curvelog(maxErr: string, bufSize: string)
    | History(timePeriod: string)
    | StaticMetadata(tree: string)
    | DynamicMetadata(domain: string)
    | Undefined

  /** A get or subscribe request; `action` tells which. */
  datatype Request = Request(action: string, path: string, filter: Option<seq<Filter>>,
                             authorization: Option<string>, requestId: Option<string>)

  /** The compression level, the sorted path list, and the conversions of the Go time package. */
  datatype Config = Config(level: Level, paths: seq<string>, packTime: string -> Int32, unpackTime: Int32 -> string,
                           marshal: Option<Json> -> string)

  /** Go's conversion int32(n). */
  function ToInt32(n: int): Int32 {
    (n + 0x8000_0000) % 0x1_0000_0000 - 0x8000_0000
  }

  /** A generated getter: the default value stands for an absent one. */
  function Get<T>(o: Option<T>, default: T): T {
    match o case None => default case Some(x) => x
  }

  // -------------------------------------------------- the JSON value of a message; None stands for a panic

  function Field(key: string, value: string): Member {
    Member(key, Str(value))
  }

  /** createJSON: a member for a nonempty value. */
  function OptField(key: string, value: string): seq<Member> {
    if value == "" then [] else [Field(key, value)]
  }

  /** One element stands for itself, several become an array. */
  function Collapsed(items: seq<Json>): Json
    requires items != []
  {
    if |items| == 1 then items[0] else Arr(items)
  }

  function PointTs(p: DataPoint, c: Config): string {
    if c.level == LEVEL1 then Get(p.ts, "") else c.unpackTime(Get(p.tsC, 0))
  }

  function PointJson(p: DataPoint, c: Config): Json {
    Obj([Field("value", p.value), Field("ts", PointTs(p, c))])
  }

  function PointsJson(points: seq<DataPoint>, c: Config): (items: seq<Json>)
    ensures |items| == |points|
  {
    seq(|points|, i requires 0 <= i < |points| => PointJson(points[i], c))
  }

  function PackagePath(d: DataPackage, c: Config): Option<string> {
    if c.level == LEVEL1 then Some(Get(d.path, "")) else IndexToPath(c.paths, Get(d.pathC, 0))
  }

  predicate PackagePrintable(d: DataPackage, c: Config) {
    d.dp != [] && PackagePath(d, c).Some?
  }

  function PackageJson(d: DataPackage, c: Config): Json
    requires PackagePrintable(d, c)
  {
    Obj([Field("path", PackagePath(d, c).value), Member("dp", Collapsed(PointsJson(d.dp, c)))])
  }

  function PackagesJson(data: seq<DataPackage>, c: Config): (items: seq<Json>)
    requires forall i :: 0 <= i < |data| ==> PackagePrintable(data[i], c)
    ensures |items| == |data|
  {
    seq(|data|, i requires 0 <= i < |data| => PackageJson(data[i], c))
  }

  predicate DataPrintable(data: seq<DataPackage>, c: Config) {
    data != [] && forall i :: 0 <= i < |data| ==> PackagePrintable(data[i], c)
  }

  function DataJson(data: seq<DataPackage>, c: Config): Json
    requires DataPrintable(data, c)
  {
    Collapsed(PackagesJson(data, c))
  }

  function SuccessData(s: Option<Success>): seq<DataPackage> {
    if s.Some? then Get(s.value.dataPack, []) else []
  }

  function ErrorJson(e: Option<ErrorResponse>): Json {
    var error := Get(e, ErrorResponse("", None, None));
    Obj([Field("number", error.number), Field("reason", Get(error.reason, "")),
         Field("message", Get(error.message, ""))])
  }

  function Ts(ts: Option<string>, tsC: Option<Int32>, c: Config): string {
    if c.level == LEVEL1 then Get(ts, "") else c.unpackTime(Get(tsC, 0))
  }

  predicate BodyPrintable(status: Status, success: Option<Success>, c: Config) {
    status == SUCCESS ==> DataPrintable(SuccessData(success), c)
  }

  /** The data or error member. */
  function BodyMember(status: Status, success: Option<Success>, error: Option<ErrorResponse>, c: Config): Member
    requires BodyPrintable(status, success, c)
  {
    if status == SUCCESS then Member("data", DataJson(SuccessData(success), c)) else Member("error", ErrorJson(error))
  }

  function GetResponseJson(m: GetResponse, c: Config): Option<Json> {
    if !BodyPrintable(m.status, m.success, c) then None
    else Some(Obj([Field("action", "get"), BodyMember(m.status, m.success, m.error, c), Field("ts", Ts(m.ts, m.tsC, c))]
                  + OptField("requestId", Get(m.requestId, "")) + OptField("authorization", Get(m.authorization, ""))))
  }

  function StreamJson(m: SubscribeStream, c: Config): Option<Json> {
    match m
    case Response(status, response) =>
      var r := Get(response, SubscribeResponse(None, None, "", "", None));
      Some(Obj([Field("action", "subscribe")]
               + (if status == ERROR then [Member("error", ErrorJson(r.error))] else [])
               + [Field("ts", r.ts)] + OptField("subscriptionId", Get(r.subscriptionId, ""))
               + OptField("requestId", r.requestId) + OptField("authorization", Get(r.authorization, ""))))
    case Event(status, event) =>
      var e := Get(event, SubscribeEvent("", None, None, None, None));
      if (status == SUCCESS && event.None?) || !BodyPrintable(status, e.success, c) then None
      else Some(Obj([Field("action", "subscription"), BodyMember(status, e.success, e.error, c),
                     Field("ts", Ts(e.ts, e.tsC, c))]
                    + OptField("subscriptionId", e.subscriptionId)))
  }

  predicate FilterPrintable(f: Filter) {
    match f
    case Paths(relative) => relative != []
    case Range(bounds) => bounds != []
    case _ => true
  }

  function TextsJson(texts: seq<string>): (items: seq<Json>)
    ensures |items| == |texts|
  {
    seq(|texts|, i requires 0 <= i < |texts| => Str(texts[i]))
  }

  function RangesJson(bounds: seq<RangeValue>): (items: seq<Json>)
    ensures |items| == |bounds|
  {
    seq(|bounds|, i requires 0 <= i < |bounds| =>
        Obj([Field("logic-op", bounds[i].logicOp), Field("boundary", bounds[i].boundary)]))
  }

  /** The texts of metadata filters are printed raw, as a literal would be. */
  function ParameterJson(f: Filter): Json
    requires FilterPrintable(f)
  {
    match f
    case Paths(relative) => Collapsed(TextsJson(relative))
    case Timebased(period) => Obj([Field("period", period)])
    case Range(bounds) => Collapsed(RangesJson(bounds))
    case Change(op, diff) => Obj([Field("logic-op", op), Field("diff", diff)])
    case Curvelog(maxErr, bufSize) => Obj([Field("maxerr", maxErr), Field("bufsize", bufSize)])
    case History(period) => Str(period)
    case StaticMetadata(tree) => Lit(tree)
    case DynamicMetadata(domain) => Lit(domain)
    case Undefined => Lit("")
  }

  function FilterType(f: Filter): string {
    match f
    case Paths(_) => "paths"
    case Timebased(_) => "timebased"
    case Range(_) => "range"
    case Change(_, _) => "change"
    case Curvelog(_, _) => "curvelog"
    case History(_) => "history"
    case StaticMetadata(_) => "static-metadata"
    case DynamicMetadata(_) => "dynamic-metadata"
    case Undefined => ""
  }

  function FilterJson(f: Filter): Json
    requires FilterPrintable(f)
  {
    Obj([Field("type", FilterType(f)), Member("parameter", ParameterJson(f))])
  }

  predicate FiltersPrintable(fs: seq<Filter>) {
    fs != [] && forall i :: 0 <= i < |fs| ==> FilterPrintable(fs[i])
  }

  function FilterItems(fs: seq<Filter>): (items: seq<Json>)
    requires forall i :: 0 <= i < |fs| ==> FilterPrintable(fs[i])
    ensures |items| == |fs|
  {
    seq(|fs|, i requires 0 <= i < |fs| => FilterJson(fs[i]))
  }

  function FiltersJson(fs: seq<Filter>): Json
    requires FiltersPrintable(fs)
  {
    Collapsed(FilterItems(fs))
  }

  function RequestJson(m: Request): Option<Json> {
    if m.filter.Some? && !FiltersPrintable(m.filter.value) then None
    else Some(Obj([Field("action", m.action), Field("path", m.path)]
                  + (if m.filter.Some? then [Member("filter", FiltersJson(m.filter.value))] else [])
                  + OptField("authorization", Get(m.authorization, "")) + OptField("requestId", Get(m.requestId, ""))))
  }

  // ---------------------------------------------------------------- reading a JSON value; None stands for a panic

  /** What is not nil in it: a member that holds null is as good as none. */
  function Entry(members: seq<Member>, key: string): Option<Json> {
    if Lookup(members, key) == Some(Lit("null")) then None else Lookup(members, key)
  }

  /** The type assertion .(string), which fails on an absent value as well. */
  function AsString(o: Option<Json>): Option<string> {
    if o.Some? && o.value.Str? then Some(o.value.text) else None
  }

  function AsObject(o: Option<Json>): Option<seq<Member>> {
    if o.Some? && o.value.Obj? then Some(o.value.members) else None
  }

  /** An absent member is fine, a member of another type is not. */
  function OptString(o: Option<Json>): Option<Option<string>> {
    match o case None => Some(None) case Some(j) => if j.Str? then Some(Some(j.text)) else None
  }

  /** The elements of an array, or the one value itself. */
  function Spread(o: Option<Json>): seq<Json> {
    match o case None => [] case Some(j) => if j.Arr? then j.items else [j]
  }

  function ReadPoint(j: Json, c: Config): Option<DataPoint> {
    var members :- AsObject(Some(j));
    var value :- AsString(Lookup(members, "value"));
    var ts :- AsString(Lookup(members, "ts"));
    Some(if c.level == LEVEL1 then DataPoint(value, Some(ts), None) else DataPoint(value, None, Some(c.packTime(ts))))
  }

  function ReadPoints(items: seq<Json>, c: Config): Option<seq<DataPoint>> {
    if items == [] then Some([])
    else
      var points :- ReadPoints(items[..|items| - 1], c);
      var point :- ReadPoint(items[|items| - 1], c);
      Some(points + [point])
  }

  function ReadPackage(j: Json, c: Config): Option<DataPackage> {
    var members :- AsObject(Some(j));
    var path :- AsString(Lookup(members, "path"));
    var points :- ReadPoints(Spread(Entry(members, "dp")), c);
    Some(if c.level == LEVEL1 then DataPackage(Some(path), None, points)
         else DataPackage(None, Some(ToInt32(PathToIndex(c.paths, path))), points))
  }

  function ReadPackages(items: seq<Json>, c: Config): Option<seq<DataPackage>> {
    if items == [] then Some([])
    else
      var packages :- ReadPackages(items[..|items| - 1], c);
      var package :- ReadPackage(items[|items| - 1], c);
      Some(packages + [package])
  }

  function ReadError(o: Option<Json>): Option<ErrorResponse> {
    var members :- AsObject(o);
    var number :- OptString(Lookup(members, "number"));
    var reason :- OptString(Lookup(members, "reason"));
    var message :- OptString(Lookup(members, "message"));
    Some(ErrorResponse(Get(number, ""), reason, message))
  }

  function ReadGetResponse(members: seq<Member>, c: Config): Option<GetResponse> {
    var requestId :- AsString(Lookup(members, "requestId"));
    var ts :- AsString(Lookup(members, "ts"));
    var auth :- OptString(Entry(members, "authorization"));
    var m := GetResponse(SUCCESS, None, None, Some(requestId), if c.level == LEVEL1 then Some(ts) else None,
                         if c.level == LEVEL1 then None else Some(c.packTime(ts)), auth);
    if Entry(members, "error").None? then
      var items := Spread(Entry(members, "data"));
      if items == [] then
        Some(m.(success := Some(Success(None, Some(c.marshal(Entry(members, "metadata")))))))
      else
        var data :- ReadPackages(items, c);
        Some(m.(success := Some(Success(Some(data), None))))
    else
      var e :- ReadError(Entry(members, "error"));
      Some(m.(status := ERROR, error := Some(e)))
  }

  function ReadResponse(members: seq<Member>): Option<SubscribeStream> {
    var requestId :- AsString(Lookup(members, "requestId"));
    var ts :- AsString(Lookup(members, "ts"));
    var auth :- OptString(Entry(members, "authorization"));
    if Entry(members, "error").None? then
      var subId :- OptString(Entry(members, "subscriptionId"));
      Some(Response(SUCCESS, Some(SubscribeResponse(None, subId, requestId, ts, auth))))
    else
      var e :- ReadError(Entry(members, "error"));
      Some(Response(ERROR, Some(SubscribeResponse(Some(e), None, requestId, ts, auth))))
  }

  function ReadEvent(members: seq<Member>, c: Config): Option<SubscribeStream> {
    var subId :- AsString(Lookup(members, "subscriptionId"));
    var ts :- AsString(Lookup(members, "ts"));
    var e := SubscribeEvent(subId, None, None, if c.level == LEVEL1 then Some(ts) else None,
                            if c.level == LEVEL1 then None else Some(c.packTime(ts)));
    if Entry(members, "error").None? then
      var data :- ReadPackages(Spread(Entry(members, "data")), c);
      Some(Event(SUCCESS, Some(e.(success := Some(Success(Some(data), None))))))
    else
      var error :- ReadError(Entry(members, "error"));
      Some(Event(ERROR, Some(e.(error := Some(error)))))
  }

  function ReadStream(members: seq<Member>, c: Config): Option<SubscribeStream> {
    if Lookup(members, "action") == Some(Str("subscribe")) then ReadResponse(members) else ReadEvent(members, c)
  }

  function ReadStrings(items: seq<Json>): Option<seq<string>> {
    if items == [] then Some([])
    else
      var texts :- ReadStrings(items[..|items| - 1]);
      var text :- AsString(Some(items[|items| - 1]));
      Some(texts + [text])
  }

  /** getPbPathsFilterValue: a parameter that is neither string nor array gives no paths. */
  function ReadPaths(parameter: Option<Json>): Option<Filter> {
    if parameter.None? || parameter.value.Obj? || parameter.value.Lit? then Some(Paths([]))
    else
      var texts :- ReadStrings(Spread(parameter));
      Some(Paths(texts))
  }

  function ReadRange(j: Json): Option<RangeValue> {
    var members :- AsObject(Some(j));
    var op :- AsString(Lookup(members, "boundary-op"));
    var boundary :- AsString(Lookup(members, "boundary"));
    Some(RangeValue(op, boundary))
  }

  function ReadRanges(items: seq<Json>): Option<seq<RangeValue>> {
    if items == [] then Some([])
    else
      var bounds :- ReadRanges(items[..|items| - 1]);
      var bound :- ReadRange(items[|items| - 1]);
      Some(bounds + [bound])
  }

  /** getPbRangeFilterValue: a parameter that is neither object nor array gives one empty value. */
  function ReadBounds(parameter: Option<Json>): Option<Filter> {
    if parameter.None? || parameter.value.Str? || parameter.value.Lit? then Some(Range([RangeValue("", "")]))
    else
      var bounds :- ReadRanges(Spread(parameter));
      Some(Range(bounds))
  }

  /** createPbFilter. */
  function ReadFilter(j: Json): Option<Filter> {
    var members :- AsObject(Some(j));
    var kind :- AsString(Lookup(members, "type"));
    var parameter := Lookup(members, "parameter");
    if kind == "paths" then ReadPaths(parameter)
    else if kind == "timebased" then
      var ms :- AsObject(parameter);
      var period :- AsString(Lookup(ms, "period"));
      Some(Timebased(period))
    else if kind == "range" then ReadBounds(parameter)
    else if kind == "change" then
      var ms :- AsObject(parameter);
      var op :- AsString(Lookup(ms, "logic-op"));
      var diff :- AsString(Lookup(ms, "diff"));
      Some(Change(op, diff))
    else if kind == "curvelog" then
      var ms :- AsObject(parameter);
      var maxErr :- AsString(Lookup(ms, "maxerr"));
      var bufSize :- AsString(Lookup(ms, "bufsize"));
      Some(Curvelog(maxErr, bufSize))
    else if kind == "history" then
      var period :- AsString(parameter);
      Some(History(period))
    else if kind == "dynamic-metadata" then
      var domain :- AsString(parameter);
      Some(DynamicMetadata(domain))
    else if kind == "static-metadata" then Some(StaticMetadata(""))
    else Some(Undefined)
  }

  /** An object is one filter; of arrays only those of two elements are read, the others leave no filter. */
  function ReadFilters(o: Option<Json>): Option<Option<seq<Filter>>> {
    if o.None? || o.value.Str? || o.value.Lit? then Some(None)
    else if o.value.Obj? then
      var f :- ReadFilter(o.value);
      Some(Some([f]))
    else if |o.value.items| != 2 then Some(None)
    else
      var f :- ReadFilter(o.value.items[0]);
      var g :- ReadFilter(o.value.items[1]);
      Some(Some([f, g]))
  }

  function ReadRequest(action: string, members: seq<Member>): Option<Request> {
    var path :- AsString(Lookup(members, "path"));
    var filter :- ReadFilters(Entry(members, "filter"));
    var auth :- OptString(Entry(members, "authorization"));
    var requestId :- OptString(Entry(members, "requestId"));
    Some(Request(action, path, filter, auth, requestId))
  }

  /** Unmarshalling the printed text into a map. */
  function Unmarshal(text: string): Option<seq<Member>> {
    var j :- Parse(text);
    AsObject(Some(j))
  }
}
