/** What the converters read from any JSON object, whoever wrote it. */
module GrpcReads {
  import opened Text
  import opened PathList
  import opened Json
  import opened Grpc

  // ---------------------------------------------------------------- members

  predicate TextAt(ms: seq<Member>, key: string, text: string) {
    Lookup(ms, key) == Some(Json.Str(text))
  }

  /** There is no such member, or it holds null. */
  predicate NothingAt(ms: seq<Member>, key: string) {
    Lookup(ms, key) == None || Lookup(ms, key) == Some(Lit("null"))
  }

  /** A text that may be missing. */
  predicate MayBeAt(ms: seq<Member>, key: string, text: Option<string>) {
    if NothingAt(ms, key) then text == None else text.Some? && TextAt(ms, key, text.value)
  }

  /** The elements of the array, or the one value that stands there. */
  predicate ListAt(ms: seq<Member>, key: string, items: seq<Json>) {
    if NothingAt(ms, key) then items == []
    else if Lookup(ms, key).value.Arr? then items == Lookup(ms, key).value.items
    else items == [Lookup(ms, key).value]
  }

  /** The time as it is written in level 1, packed otherwise. */
  predicate TimeAt(ms: seq<Member>, c: Config, ts: Option<string>, tsC: Option<Int32>) {
    match Lookup(ms, "ts")
    case Some(Str(text)) =>
      if c.level == LEVEL1 then ts == Some(text) && tsC == None else ts == None && tsC == Some(c.packTime(text))
    case _ => false
  }

  // ---------------------------------------------------------------- data

  predicate IsPoint(j: Json, c: Config, p: DataPoint) {
    j.Obj? && TextAt(j.members, "value", p.value) && TimeAt(j.members, c, p.ts, p.tsC)
  }

  predicate ArePoints(items: seq<Json>, c: Config, points: seq<DataPoint>) {
    |points| == |items| && forall i :: 0 <= i < |items| ==> IsPoint(items[i], c, points[i])
  }

  /** The path as it is written in level 1, its place in the list otherwise. */
  predicate PathAt(ms: seq<Member>, c: Config, d: DataPackage) {
    match Lookup(ms, "path")
    case Some(Str(path)) =>
      if c.level == LEVEL1 then d.path == Some(path) && d.pathC == None
      else d.path == None && d.pathC == Some(ToInt32(PathToIndex(c.paths, path)))
    case _ => false
  }

  ghost predicate IsPackage(j: Json, c: Config, d: DataPackage) {
    j.Obj? && PathAt(j.members, c, d) && exists items :: ListAt(j.members, "dp", items) && ArePoints(items, c, d.dp)
  }

  ghost predicate ArePackages(items: seq<Json>, c: Config, data: seq<DataPackage>) {
    |data| == |items| && forall i :: 0 <= i < |items| ==> IsPackage(items[i], c, data[i])
  }

  lemma SpreadIs(ms: seq<Member>, key: string, items: seq<Json>)
    ensures ListAt(ms, key, items) <==> items == Spread(Entry(ms, key))
  {
  }

  lemma PointIff(j: Json, c: Config, p: DataPoint)
    ensures ReadPoint(j, c) == Some(p) <==> IsPoint(j, c, p)
  {
  }

  lemma {:induction false} PointsIff(items: seq<Json>, c: Config, points: seq<DataPoint>)
    ensures ReadPoints(items, c) == Some(points) <==> ArePoints(items, c, points)
  {
    hide IsPoint, ReadPoint;
    if items != [] {
      var n := |items| - 1;
      var front := items[..n];
      if ReadPoints(items, c) == Some(points) {
        var read := ReadPoints(front, c).value;
        PointsIff(front, c, read);
        PointIff(items[n], c, ReadPoint(items[n], c).value);
      }
      if ArePoints(items, c, points) {
        PointsIff(front, c, points[..n]);
        PointIff(items[n], c, points[n]);
        assert points[..n] + [points[n]] == points;
      }
    }
  }

  lemma PackageIff(j: Json, c: Config, d: DataPackage)
    ensures ReadPackage(j, c) == Some(d) <==> IsPackage(j, c, d)
  {
    hide ArePoints, ReadPoints, ListAt, PathToIndex;
    if j.Obj? {
      var items := Spread(Entry(j.members, "dp"));
      SpreadIs(j.members, "dp", items);
      PointsIff(items, c, d.dp);
      forall other | ListAt(j.members, "dp", other) ensures other == items {
        SpreadIs(j.members, "dp", other);
      }
      if ReadPackage(j, c) == Some(d) {
        assert ReadPoints(items, c) == Some(d.dp);
      }
    }
  }

  lemma {:induction false} PackagesIff(items: seq<Json>, c: Config, data: seq<DataPackage>)
    ensures ReadPackages(items, c) == Some(data) <==> ArePackages(items, c, data)
  {
    hide IsPackage, ReadPackage;
    if items != [] {
      var n := |items| - 1;
      var front := items[..n];
      if ReadPackages(items, c) == Some(data) {
        var read := ReadPackages(front, c).value;
        PackagesIff(front, c, read);
        PackageIff(items[n], c, ReadPackage(items[n], c).value);
      }
      if ArePackages(items, c, data) {
        PackagesIff(front, c, data[..n]);
        PackageIff(items[n], c, data[n]);
        assert data[..n] + [data[n]] == data;
      }
    }
  }

  // ---------------------------------------------------------------- responses and events

  /** A member of the error object: it may be missing, but not be anything else than a text. */
  predicate PartAt(ms: seq<Member>, key: string, text: Option<string>) {
    if text.Some? then TextAt(ms, key, text.value) else Lookup(ms, key) == None
  }

  predicate ErrorAt(ms: seq<Member>, e: ErrorResponse) {
    && Lookup(ms, "error").Some? && Lookup(ms, "error").value.Obj?
    && var parts := Lookup(ms, "error").value.members;
       && (TextAt(parts, "number", e.number) || (Lookup(parts, "number") == None && e.number == ""))
       && PartAt(parts, "reason", e.reason) && PartAt(parts, "message", e.message)
  }

  /** Data packages, or what json.Marshal makes of the metadata if there are none. */
  ghost predicate SuccessAt(ms: seq<Member>, c: Config, s: Success) {
    exists items :: ListAt(ms, "data", items)
      && if items == [] then
           s == Success(None, Some(c.marshal(if NothingAt(ms, "metadata") then None else Lookup(ms, "metadata"))))
         else s.metadata == None && s.dataPack.Some? && ArePackages(items, c, s.dataPack.value)
  }

  /** With an error member, whatever else there is. */
  ghost predicate IsGetResponse(ms: seq<Member>, c: Config, m: GetResponse) {
    && m.requestId.Some? && TextAt(ms, "requestId", m.requestId.value) && TimeAt(ms, c, m.ts, m.tsC)
    && MayBeAt(ms, "authorization", m.authorization)
    && if NothingAt(ms, "error") then
         m.status == SUCCESS && m.error == None && m.success.Some? && SuccessAt(ms, c, m.success.value)
       else m.status == ERROR && m.success == None && m.error.Some? && ErrorAt(ms, m.error.value)
  }

  lemma ErrorIff(ms: seq<Member>, e: ErrorResponse)
    requires !NothingAt(ms, "error")
    ensures ReadError(Entry(ms, "error")) == Some(e) <==> ErrorAt(ms, e)
  {
    hide Lookup;
  }

  lemma SuccessIff(ms: seq<Member>, c: Config, s: Success)
    ensures var items := Spread(Entry(ms, "data"));
            SuccessAt(ms, c, s)
            <==> if items == [] then s == Success(None, Some(c.marshal(Entry(ms, "metadata"))))
                 else s.metadata == None && s.dataPack.Some? && ReadPackages(items, c) == Some(s.dataPack.value)
  {
    var items := Spread(Entry(ms, "data"));
    SpreadIs(ms, "data", items);
    hide ArePackages, ReadPackages, Lookup;
    if s.dataPack.Some? {
      PackagesIff(items, c, s.dataPack.value);
    }
    forall other | ListAt(ms, "data", other) ensures other == items {
      SpreadIs(ms, "data", other);
    }
  }

  /** A get response is read from any JSON object exactly in this way; from every other one reading panics. */
  lemma GetResponseIff(ms: seq<Member>, c: Config, m: GetResponse)
    ensures ReadGetResponse(ms, c) == Some(m) <==> IsGetResponse(ms, c, m)
  {
    if m.success.Some? {
      SuccessIff(ms, c, m.success.value);
    }
    if m.error.Some? && !NothingAt(ms, "error") {
      ErrorIff(ms, m.error.value);
    }
    hide SuccessAt, ErrorAt, ReadPackages, ReadError, Lookup, Spread;
  }

  /** A response to a subscription: its id is looked for only where there is no error. */
  ghost predicate IsResponse(ms: seq<Member>, status: Status, r: SubscribeResponse) {
    && TextAt(ms, "requestId", r.requestId) && TextAt(ms, "ts", r.ts) && MayBeAt(ms, "authorization", r.authorization)
    && if NothingAt(ms, "error") then
         status == SUCCESS && r.error == None && MayBeAt(ms, "subscriptionId", r.subscriptionId)
       else status == ERROR && r.subscriptionId == None && r.error.Some? && ErrorAt(ms, r.error.value)
  }

  ghost predicate IsEvent(ms: seq<Member>, c: Config, status: Status, e: SubscribeEvent) {
    && TextAt(ms, "subscriptionId", e.subscriptionId) && TimeAt(ms, c, e.ts, e.tsC)
    && if NothingAt(ms, "error") then
         && status == SUCCESS && e.error == None && e.success.Some? && e.success.value.metadata == None
         && e.success.value.dataPack.Some?
         && exists items :: ListAt(ms, "data", items) && ArePackages(items, c, e.success.value.dataPack.value)
       else status == ERROR && e.success == None && e.error.Some? && ErrorAt(ms, e.error.value)
  }

  /** Only the action tells a response from an event. */
  ghost predicate IsStream(ms: seq<Member>, c: Config, m: SubscribeStream) {
    if TextAt(ms, "action", "subscribe") then
      m.Response? && m.response.Some? && IsResponse(ms, m.status, m.response.value)
    else m.Event? && m.event.Some? && IsEvent(ms, c, m.status, m.event.value)
  }

  lemma ResponseIff(ms: seq<Member>, m: SubscribeStream)
    ensures ReadResponse(ms) == Some(m)
            <==> m.Response? && m.response.Some? && IsResponse(ms, m.status, m.response.value)
  {
    if m.Response? && m.response.Some? && m.response.value.error.Some? && !NothingAt(ms, "error") {
      ErrorIff(ms, m.response.value.error.value);
    }
    hide ErrorAt, ReadError, Lookup;
  }

  lemma EventIff(ms: seq<Member>, c: Config, m: SubscribeStream)
    ensures ReadEvent(ms, c) == Some(m) <==> m.Event? && m.event.Some? && IsEvent(ms, c, m.status, m.event.value)
  {
    var items := Spread(Entry(ms, "data"));
    SpreadIs(ms, "data", items);
    forall other | ListAt(ms, "data", other) ensures other == items {
      SpreadIs(ms, "data", other);
    }
    hide ArePackages, ReadPackages, Lookup, ErrorAt, ReadError, ListAt, Spread;
    if m.Event? && m.event.Some? {
      var e := m.event.value;
      if e.error.Some? && !NothingAt(ms, "error") {
        ErrorIff(ms, e.error.value);
      }
      if e.success.Some? && e.success.value.dataPack.Some? {
        PackagesIff(items, c, e.success.value.dataPack.value);
      }
    }
  }

  lemma StreamIff(ms: seq<Member>, c: Config, m: SubscribeStream)
    ensures ReadStream(ms, c) == Some(m) <==> IsStream(ms, c, m)
  {
    ResponseIff(ms, m);
    EventIff(ms, c, m);
    hide ReadResponse, ReadEvent, IsResponse, IsEvent, Lookup;
  }

  // ---------------------------------------------------------------- requests

  /** The paths: one text or an array of texts; anything else gives none. */
  predicate PathsAt(parameter: Option<Json>, paths: seq<string>) {
    match parameter
    case Some(Str(text)) => paths == [text]
    case Some(Arr(items)) =>
      |paths| == |items| && forall i :: 0 <= i < |items| ==> items[i] == Json.Str(paths[i])
    case _ => paths == []
  }

  /** One bound; its operator goes by another name than the one that is printed. */
  predicate IsBound(j: Json, b: RangeValue) {
    j.Obj? && TextAt(j.members, "boundary-op", b.logicOp) && TextAt(j.members, "boundary", b.boundary)
  }

  /** The bounds: one object or an array of objects; anything else gives one empty bound. */
  predicate BoundsAt(parameter: Option<Json>, bounds: seq<RangeValue>) {
    match parameter
    case Some(Obj(_)) => |bounds| == 1 && IsBound(parameter.value, bounds[0])
    case Some(Arr(items)) => |bounds| == |items| && forall i :: 0 <= i < |items| ==> IsBound(items[i], bounds[i])
    case _ => bounds == [RangeValue("", "")]
  }

  /** Two texts in an object. */
  predicate PairAt(parameter: Option<Json>, k1: string, t1: string, k2: string, t2: string) {
    parameter.Some? && parameter.value.Obj? && TextAt(parameter.value.members, k1, t1)
    && TextAt(parameter.value.members, k2, t2)
  }

  /** A filter by its type; the parameter of static metadata is not looked at. */
  predicate IsFilter(j: Json, f: Filter) {
    && j.Obj? && Lookup(j.members, "type").Some? && Lookup(j.members, "type").value.Str?
    && var kind, parameter := Lookup(j.members, "type").value.text, Lookup(j.members, "parameter");
       match f
       case Paths(paths) => kind == "paths" && PathsAt(parameter, paths)
       case Timebased(period) => kind == "timebased" && PairAt(parameter, "period", period, "period", period)
       case Range(bounds) => kind == "range" && BoundsAt(parameter, bounds)
       case Change(op, diff) => kind == "change" && PairAt(parameter, "logic-op", op, "diff", diff)
       case Curvelog(maxErr, bufSize) => kind == "curvelog" && PairAt(parameter, "maxerr", maxErr, "bufsize", bufSize)
       case History(period) => kind == "history" && parameter == Some(Json.Str(period))
       case DynamicMetadata(domain) => kind == "dynamic-metadata" && parameter == Some(Json.Str(domain))
       case StaticMetadata(tree) => kind == "static-metadata" && tree == ""
       case Undefined =>
         kind !in {"paths", "timebased", "range", "change", "curvelog", "history", "static-metadata",
                   "dynamic-metadata"}
  }

  lemma {:induction false} StringsIff(items: seq<Json>, texts: seq<string>)
    ensures ReadStrings(items) == Some(texts)
            <==> |texts| == |items| && forall i :: 0 <= i < |items| ==> items[i] == Json.Str(texts[i])
  {
    if items != [] {
      var n := |items| - 1;
      if ReadStrings(items) == Some(texts) {
        StringsIff(items[..n], ReadStrings(items[..n]).value);
      }
      if |texts| == |items| && forall i :: 0 <= i < |items| ==> items[i] == Json.Str(texts[i]) {
        StringsIff(items[..n], texts[..n]);
        assert texts[..n] + [texts[n]] == texts;
      }
    }
  }

  lemma {:induction false} RangesIff(items: seq<Json>, bounds: seq<RangeValue>)
    ensures ReadRanges(items) == Some(bounds)
            <==> |bounds| == |items| && forall i :: 0 <= i < |items| ==> IsBound(items[i], bounds[i])
  {
    hide Lookup;
    if items != [] {
      var n := |items| - 1;
      if ReadRanges(items) == Some(bounds) {
        RangesIff(items[..n], ReadRanges(items[..n]).value);
      }
      if |bounds| == |items| && forall i :: 0 <= i < |items| ==> IsBound(items[i], bounds[i]) {
        RangesIff(items[..n], bounds[..n]);
        assert bounds[..n] + [bounds[n]] == bounds;
      }
    }
  }

  lemma PathsIff(parameter: Option<Json>, f: Filter)
    ensures ReadPaths(parameter) == Some(f) <==> f.Paths? && PathsAt(parameter, f.relative)
  {
    if f.Paths? {
      StringsIff(Spread(parameter), f.relative);
    }
  }

  lemma BoundsIff(parameter: Option<Json>, f: Filter)
    ensures ReadBounds(parameter) == Some(f) <==> f.Range? && BoundsAt(parameter, f.bounds)
  {
    if f.Range? {
      RangesIff(Spread(parameter), f.bounds);
    }
    hide ReadRange, Lookup;
  }

  /** The eight types, and all others. */
  lemma TypesDiffer(kind: string)
    ensures kind == "paths" ==> |kind| == 5 && kind[0] == 'p'
    ensures kind == "timebased" ==> |kind| == 9
    ensures kind == "range" ==> |kind| == 5 && kind[0] == 'r'
    ensures kind == "change" ==> |kind| == 6
    ensures kind == "curvelog" ==> |kind| == 8
    ensures kind == "history" ==> |kind| == 7
    ensures kind == "dynamic-metadata" ==> |kind| == 16
    ensures kind == "static-metadata" ==> |kind| == 15
  {
  }

  lemma FilterIff(j: Json, f: Filter)
    ensures ReadFilter(j) == Some(f) <==> IsFilter(j, f)
  {
    if j.Obj? && Lookup(j.members, "type").Some? && Lookup(j.members, "type").value.Str? {
      PathsIff(Lookup(j.members, "parameter"), f);
      BoundsIff(Lookup(j.members, "parameter"), f);
      TypesDiffer(Lookup(j.members, "type").value.text);
    }
    hide Lookup, ReadPaths, ReadBounds, PathsAt, BoundsAt;
  }

  /** One filter, or an array of two; everything else leaves no filter. */
  predicate FiltersAt(ms: seq<Member>, filter: Option<seq<Filter>>) {
    var j := Lookup(ms, "filter");
    if j.Some? && j.value.Obj? then filter.Some? && |filter.value| == 1 && IsFilter(j.value, filter.value[0])
    else if j.Some? && j.value.Arr? && |j.value.items| == 2 then
      && filter.Some? && |filter.value| == 2
      && IsFilter(j.value.items[0], filter.value[0]) && IsFilter(j.value.items[1], filter.value[1])
    else filter == None
  }

  predicate IsRequest(ms: seq<Member>, m: Request) {
    && TextAt(ms, "path", m.path) && FiltersAt(ms, m.filter) && MayBeAt(ms, "authorization", m.authorization)
    && MayBeAt(ms, "requestId", m.requestId)
  }

  lemma FiltersIff(ms: seq<Member>, filter: Option<seq<Filter>>)
    ensures ReadFilters(Entry(ms, "filter")) == Some(filter) <==> FiltersAt(ms, filter)
  {
    hide ReadFilter, IsFilter;
    var j := Entry(ms, "filter");
    hide Lookup;
    if j.Some? && filter.Some? {
      if j.value.Obj? && |filter.value| == 1 {
        FilterIff(j.value, filter.value[0]);
        assert filter.value == [filter.value[0]];
      } else if j.value.Arr? && |j.value.items| == 2 == |filter.value| {
        FilterIff(j.value.items[0], filter.value[0]);
        FilterIff(j.value.items[1], filter.value[1]);
        assert filter.value == [filter.value[0], filter.value[1]];
      } else if ReadFilters(j) == Some(filter) {
        assert |filter.value| <= 2;
      }
    }
  }

  /** A get or subscribe request is read from any JSON object exactly in this way. */
  lemma RequestIff(action: string, ms: seq<Member>, m: Request)
    requires m.action == action
    ensures ReadRequest(action, ms) == Some(m) <==> IsRequest(ms, m)
  {
    FiltersIff(ms, m.filter);
    hide FiltersAt, ReadFilters, Lookup;
  }
}
