/** The server core: what it sends for a request, and what its one error response keeps from earlier requests. */
module Dispatcher {
  import opened Text
  import opened Json
  import opened AccessLevel

  /** A value in a decoded message. Failure is the error object of the error response. */
  datatype Value = Null | Str(text: string) | Other(json: Json) | Failure(index: nat, message: string)

  type Map = map<string, Value>

  /** Go's comparison of an entry with nil. */
  predicate Has(m: Map, key: string) {
    key in m && m[key] != Null
  }

  predicate Is(m: Map, key: string, text: string) {
    key in m && m[key] == Value.Str(text)
  }

  datatype Filter = Filter(kind: string, parameter: string)

  datatype Node = Node(path: string, actuator: bool)

  datatype Search = Search(found: seq<Node>, validation: int)

  datatype Verdict = Verdict(code: int, handle: string, gatingId: string)

  /** What the dispatcher asks for outside itself: the order in which Go visits the entries of a filter's map, the text
      of json.Marshal behind the first bracket, the token's context (None for a panic), the metadata, the tree search,
      the token server and the clock. */
  datatype World = World(order: (nat, seq<Member>) -> seq<string>,
                         marshal: Json -> string,
                         tokenContext: string -> Option<string>,
                         metadata: (string, string) -> string,
                         search: string -> Search,
                         verify: (string, string, string, int) -> Verdict,
                         now: string)

  /** A request as text, and as MapRequest decodes it (None: it fails). */
  datatype Request = Request(text: string, decoded: Option<Map>)

  datatype Message = Raw(text: string) | Finalized(fields: Map) | WithMetadata(fields: Map, metadata: string)

  datatype Output = ToBackend(message: Message) | ToService(message: Message)

  /** The channel of a transport manager, or of a service manager. */
  datatype Channel = Backend(index: nat) | Service(index: nat)

  datatype Post = Post(channel: Channel, message: Message)

  predicate Contains(s: string, pat: string) {
    Find(s, pat) != -1
  }

  predicate ValidGetFilter(request: string) {
    && Contains(request, "parameter")
    && (Contains(request, "paths") || Contains(request, "history")
        || Contains(request, "static-metadata") || Contains(request, "dynamic-metadata"))
  }

  predicate ValidSubscribeFilter(request: string) {
    || ValidGetFilter(request)
    || (Contains(request, "timebased") && Contains(request, "parameter") && Contains(request, "period"))
    || (Contains(request, "range") && Contains(request, "parameter") && Contains(request, "logic-op")
        && Contains(request, "boundary"))
    || (Contains(request, "change") && Contains(request, "parameter") && Contains(request, "logic-op")
        && Contains(request, "diff"))
    || (Contains(request, "curvelog") && Contains(request, "parameter") && Contains(request, "maxerr")
        && Contains(request, "bufsize"))
  }

  /** validRequest: words that the text of a request must hold. */
  predicate ValidRequest(request: string, action: string) {
    match action
    case "get" => Contains(request, "path") && (Contains(request, "filter") ==> ValidGetFilter(request))
    case "set" => Contains(request, "path") && Contains(request, "value")
    case "subscribe" => Contains(request, "path") && (Contains(request, "filter") ==> ValidSubscribeFilter(request))
    case "unsubscribe" => Contains(request, "subscriptionId")
    case "internal-killsubscriptions" => true
    case "internal-cancelsubscription" => true
    case _ => false
  }

  function UrlToPath(url: string): string {
    var path := ReplaceAll(url, '/', '.');
    if path != "" && path[0] == '.' then path[1..] else path
  }

  function TokenMessage(code: int): string {
    match code
    case 1 => "Invalid Access Token. "
    case 2 => "Access Token not found. "
    case 5 => "Invalid Access Token Signature. "
    case 6 => "Invalid Access Token Signature Algorithm. "
    case 10 => "Invalid iat claim. Invalid time format. "
    case 11 => "Invalid iat claim. Future time. "
    case 15 => "Invalid exp claim. Invalid time format. "
    case 16 => "Invalid exp claim. Token Expired. "
    case 20 => "Invalid AUD. "
    case 21 => "Invalid Context. "
    case 30 => "Invalid Token: token revoked. "
    case 40 => "Internal error. "
    case 41 => "Internal error. "
    case 42 => "Internal error. "
    case 60 => "Permission denied. Purpose does not match signals requested. "
    case 61 => "Permission denied. Read only access mode trying to write. "
    case _ => "Unknown error. "
  }

  // ---------------------------------------------------------------- filters

  /** What an entry of a filter's map sets the parameter to, if it sets it. */
  function Setter(marshal: Json -> string, key: string, value: Json): Option<string> {
    match value
    case Str(text) => if key == "parameter" then Some(text) else None
    case Arr(_) => if key == "parameter" then Some("[" + marshal(value)) else None
    case Obj(_) => Some("{" + marshal(value))
    case Lit(_) => None
  }

  function Visit(marshal: Json -> string, f: Filter, key: string, value: Json): Filter {
    if key == "type" && value.Str? then f.(kind := value.text)
    else
      match Setter(marshal, key, value) case None => f case Some(text) => f.(parameter := text)
  }

  /** The entries in this order. */
  function VisitAll(marshal: Json -> string, ms: seq<Member>, keys: seq<string>): Filter {
    if keys == [] then Filter("", "")
    else
      var f, key := VisitAll(marshal, ms, keys[..|keys| - 1]), keys[|keys| - 1];
      match Lookup(ms, key) case None => f case Some(value) => Visit(marshal, f, key, value)
  }

  /** The keys, each of them once. */
  function KeysOf(ms: seq<Member>): seq<string> {
    if ms == [] then []
    else
      var keys, key := KeysOf(ms[..|ms| - 1]), ms[|ms| - 1].key;
      if key in keys then keys else keys + [key]
  }

  /** An order in which Go may visit the map of these members. */
  predicate IsOrder(keys: seq<string>, ms: seq<Member>) {
    && Distinct(keys)
    && (forall i :: 0 <= i < |keys| ==> Lookup(ms, keys[i]).Some?)
    && (forall i :: 0 <= i < |ms| ==> ms[i].key in keys)
  }

  function Visited(w: World, i: nat, ms: seq<Member>): seq<string> {
    if IsOrder(w.order(i, ms), ms) then w.order(i, ms) else KeysOf(ms)
  }

  function FilterOf(w: World, i: nat, j: Json): Filter {
    if j.Obj? then VisitAll(w.marshal, j.members, Visited(w, i, j.members)) else Filter("", "")
  }

  /** UnpackFilter. */
  function Unpacked(w: World, filter: Value): seq<Filter> {
    match filter
    case Other(Arr(items)) => seq(|items|, i requires 0 <= i < |items| => FilterOf(w, i, items[i]))
    case Other(Obj(_)) => [FilterOf(w, 0, filter.json)]
    case _ => []
  }

  function FiltersOf(w: World, m: Map): seq<Filter> {
    if Has(m, "filter") then Unpacked(w, m["filter"]) else []
  }

  // ---------------------------------------------------------------- the specification

  function Keep(m: Map, reqMap: Map, key: string): Map {
    if Has(reqMap, key) then m[key := reqMap[key]] else m
  }

  /** SetErrorResponse. */
  function ErrorResponse(err: Map, reqMap: Map, index: nat, alt: string, now: string): Map {
    var m := Keep(Keep(err, reqMap, "RouterId"), reqMap, "action");
    var m := if Has(reqMap, "requestId") then m["requestId" := reqMap["requestId"]] else m - {"requestId"};
    Keep(m, reqMap, "subscriptionId")["error" := Failure(index, alt)]["ts" := Value.Str(now)]
  }

  /** FinalizeMessage takes the origin out. */
  function Finalize(m: Map): Message {
    Finalized(m - {"origin"})
  }

  /** What a request leads to: a message, or an error. */
  datatype Outcome = Sent(output: Output) | Refused(index: nat, alt: string)

  function Searched(w: World, path: string): Search {
    if path == "" then Search([], -1) else w.search(path)
  }

  function FoundAll(w: World, paths: seq<string>): seq<Node> {
    if paths == [] then [] else FoundAll(w, paths[..|paths| - 1]) + Searched(w, paths[|paths| - 1]).found
  }

  function Levels(w: World, paths: seq<string>): seq<int> {
    seq(|paths|, i requires 0 <= i < |paths| => Searched(w, paths[i]).validation)
  }

  function PathItems(found: seq<Node>): (items: seq<Json>)
    ensures |items| == |found|
  {
    seq(|found|, i requires 0 <= i < |found| => Json.Str(found[i].path))
  }

  /** One path as it is, several as a JSON array. */
  function PathsText(found: seq<Node>): string {
    if |found| == 1 then found[0].path else Print(Arr(PathItems(found)), SPACED)
  }

  datatype Scan = Paths(paths: seq<string>) | Done(outcome: Option<Outcome>)

  function UnderRoot(root: string, paths: seq<string>): seq<string> {
    seq(|paths|, i requires 0 <= i < |paths| => root + "." + UrlToPath(paths[i]))
  }

  function TokenContext(w: World, reqMap: Map): Option<string> {
    if !Has(reqMap, "authorization") then Some("")
    else if !reqMap["authorization"].Str? then None
    else w.tokenContext(reqMap["authorization"].text)
  }

  function Metadata(w: World, reqMap: Map, root: string): Option<Outcome> {
    var context :- TokenContext(w, reqMap);
    var metadata := w.metadata(root, if context == "" then "Undefined+Undefined+Undefined" else context);
    if metadata == "" then Some(Refused(0, ""))
    else
      var m := (reqMap - {"path", "filter"})["ts" := Value.Str(w.now)];
      Some(Sent(ToBackend(WithMetadata(m - {"origin"}, metadata))))
  }

  /** The loop over the filters: the paths that the first paths filter gives, or what ends the request before. */
  function ScanFilters(w: World, reqMap: Map, root: string, filters: seq<Filter>): Scan {
    if filters == [] then Paths([])
    else
      var f := filters[0];
      if f.kind == "paths" then
        if '[' in f.parameter then
          match ParseStrings(f.parameter)
          case None => Done(Some(Refused(0, "")))
          case Some(paths) => Paths(UnderRoot(root, paths))
        else Paths([root + "." + UrlToPath(f.parameter)])
      else if f.kind == "static-metadata" then Done(Metadata(w, reqMap, root))
      else if f.kind == "dynamic-metadata" && f.parameter == "server_capabilities" then
        Done(Some(Sent(ToService(Finalize(reqMap)))))
      else ScanFilters(w, reqMap, root, filters[1..])
  }

  /** The action is known to be a string. */
  predicate HasAction(reqMap: Map) {
    "action" in reqMap && reqMap["action"].Str?
  }

  function Verified(w: World, reqMap: Map, paths: string, level: int): Verdict
    requires HasAction(reqMap)
  {
    if !Has(reqMap, "authorization") then Verdict(2, "", "")
    else if Is(reqMap, "action", "set") || level % 10 == 2 then
      if !reqMap["authorization"].Str? then Verdict(1, "", "")
      else w.verify(reqMap["authorization"].text, reqMap["action"].text, paths, level)
    else Verdict(0, "", "")
  }

  function Forwarded(reqMap: Map, paths: string, v: Verdict): Message {
    var m := reqMap["path" := Value.Str(paths)];
    var m := if v.handle == "" then m else m["handle" := Value.Str(v.handle)];
    var m := if v.gatingId == "" then m else m["gatingId" := Value.Str(v.gatingId)];
    Finalize(m)
  }

  /** The level that counts: an internal request needs none. */
  function Level(w: World, reqMap: Map, paths: seq<string>): int {
    if Is(reqMap, "origin", "internal") then 0 else Folded(Levels(w, paths))
  }

  /** The switch on the last digit of the access level. */
  function Decided(w: World, reqMap: Map, paths: string, level: int): Outcome
    requires HasAction(reqMap)
  {
    if level % 10 == 0 then Sent(ToService(Forwarded(reqMap, paths, Verdict(0, "", ""))))
    else if level % 10 == 1 || level % 10 == 2 then
      var v := Verified(w, reqMap, paths, level);
      if v.code != 0 then Refused(3, TokenMessage(v.code)) else Sent(ToService(Forwarded(reqMap, paths, v)))
    else Refused(7, "")
  }

  /** The search, the access check and the forwarding. The panic is on the first node of an empty last search. */
  function Checked(w: World, reqMap: Map, paths: seq<string>): Option<Outcome>
    requires HasAction(reqMap) && paths != []
  {
    var found, last := FoundAll(w, paths), Searched(w, paths[|paths| - 1]).found;
    if found == [] then Some(Refused(6, ""))
    else if Is(reqMap, "action", "set") && last == [] then None
    else if Is(reqMap, "action", "set") && !last[0].actuator then Some(Refused(1, ""))
    else
      Some(Decided(w, reqMap, PathsText(found), Level(w, reqMap, paths)))
  }

  /** issueServiceRequest. */
  function Issued(w: World, reqMap: Map): Option<Outcome>
    requires HasAction(reqMap)
  {
    if Is(reqMap, "action", "internal-killsubscriptions") || Is(reqMap, "action", "internal-cancelsubscription") then
      Some(Sent(ToService(Finalize(reqMap))))
    else if !("path" in reqMap && reqMap["path"].Str?) then None
    else
      var root := reqMap["path"].text;
      match ScanFilters(w, reqMap, root, FiltersOf(w, reqMap))
      case Done(outcome) => outcome
      case Paths(paths) => Checked(w, reqMap, if paths == [] then [root] else paths)
  }

  /** serveRequest, from the decoded map; None for a panic. */
  function Served(w: World, request: Request): Option<Outcome> {
    match request.decoded
    case None => Some(Refused(0, ""))
    case Some(reqMap) =>
      if !Has(reqMap, "action") then Some(Refused(1, ""))
      else if !reqMap["action"].Str? then None
      else if !ValidRequest(request.text, reqMap["action"].text) then Some(Refused(1, ""))
      else if Has(reqMap, "path") && !reqMap["path"].Str? then None
      else if Has(reqMap, "path") && '*' in reqMap["path"].text then Some(Refused(1, ""))
      else
        var m := WithDots(reqMap);
        if Is(m, "action", "set") && Has(m, "filter") then Some(Refused(0, ""))
        else if Is(m, "action", "unsubscribe") then Some(Sent(ToService(Raw(request.text))))
        else Issued(w, m)
  }

  function WithDots(reqMap: Map): Map
    requires Has(reqMap, "path") ==> reqMap["path"].Str?
  {
    if Has(reqMap, "path") then reqMap["path" := Value.Str(UrlToPath(reqMap["path"].text))] else reqMap
  }

  function Fields(request: Request): Map {
    match request.decoded case None => map[] case Some(m) => m
  }

  /** What goes out for a request that came over backend channel tD, and the error response afterwards. */
  function Reply(w: World, request: Request, tD: nat, sD: nat, err: Map): Option<(Post, Map)> {
    match Served(w, request)
    case None => None
    case Some(Sent(output)) => Some((Posted(output, tD, sD), err))
    case Some(Refused(index, alt)) =>
      var m := ErrorResponse(err, Fields(request), index, alt, w.now);
      Some((Post(Backend(tD), Finalize(m)), m - {"origin"}))
  }

  function Posted(output: Output, tD: nat, sD: nat): Post {
    match output
    case ToBackend(message) => Post(Backend(tD), message)
    case ToService(message) => Post(Service(sD), message)
  }

  // ---------------------------------------------------------------- the text of a request

  function ToValue(j: Json): Value {
    match j
    case Str(text) => Value.Str(text)
    case Lit(token) => if token == "null" then Null else Other(j)
    case _ => Other(j)
  }

  /** The Go map of an object's members: the last of equal keys wins. */
  function DecodedMap(ms: seq<Member>): Map {
    if ms == [] then map[] else DecodedMap(ms[..|ms| - 1])[ms[|ms| - 1].key := ToValue(ms[|ms| - 1].value)]
  }

  /** MapRequest: the first value of the text, which must be an object or null. */
  function MapRequest(text: string): Option<Map> {
    match ParseValue(text)
    case Some((Obj(ms), _)) => Some(DecodedMap(ms))
    case Some((Lit(token), _)) => if token == "null" then Some(map[]) else None
    case _ => None
  }

  function Received(text: string): Request {
    Request(text, MapRequest(text))
  }

  // ---------------------------------------------------------------- the code

  /** What has been put on each channel. */
  datatype Channels = Channels(backend: seq<seq<Message>>, service: seq<seq<Message>>)

  predicate HasChannel(c: Channels, channel: Channel) {
    match channel case Backend(i) => i < |c.backend| case Service(i) => i < |c.service|
  }

  function Put(c: Channels, p: Post): Channels
    requires HasChannel(c, p.channel)
  {
    match p.channel
    case Backend(i) => c.(backend := c.backend[i := c.backend[i] + [p.message]])
    case Service(i) => c.(service := c.service[i := c.service[i] + [p.message]])
  }

  const INITIAL: Map := map["RouterId" := Other(Lit("0")), "action" := Value.Str("unknown"),
                            "requestId" := Value.Str("XXX"),
                            "error" := Value.Str("{\"number\":AAA, \"reason\": \"BBB\", \"message\": \"CCC\"}"),
                            "ts" := Other(Lit("1234"))]

  /** The package state, with what has been put on its channels. */
  class Server {
    var errorResponseMap: Map
    var backendChan: seq<seq<Message>>
    var serviceDataChan: seq<seq<Message>>

    constructor (backends: nat, services: nat)
      ensures errorResponseMap == INITIAL
      ensures Chans() == Channels(seq(backends, _ => []), seq(services, _ => []))
    {
      errorResponseMap, backendChan, serviceDataChan := INITIAL, seq(backends, _ => []), seq(services, _ => []);
    }

    function Chans(): Channels
      reads this`backendChan, this`serviceDataChan
    {
      Channels(backendChan, serviceDataChan)
    }

    /** The two channels that serve a request exist. */
    predicate Ready(tD: nat, sD: nat)
      reads this`backendChan, this`serviceDataChan
    {
      tD < |backendChan| && sD < |serviceDataChan|
    }

    method ToBackendChan(tD: nat, message: Message)
      requires tD < |backendChan|
      modifies this`backendChan
      ensures Chans() == Put(old(Chans()), Post(Backend(tD), message))
    {
      backendChan := backendChan[tD := backendChan[tD] + [message]];
    }

    method ToServiceChan(sD: nat, message: Message)
      requires sD < |serviceDataChan|
      modifies this`serviceDataChan
      ensures Chans() == Put(old(Chans()), Post(Service(sD), message))
    {
      serviceDataChan := serviceDataChan[sD := serviceDataChan[sD] + [message]];
    }

    method SetErrorResponse(reqMap: Map, errorListIndex: nat, altErrorMessage: string, now: string)
      modifies this`errorResponseMap
      ensures errorResponseMap == ErrorResponse(old(errorResponseMap), reqMap, errorListIndex, altErrorMessage, now)
    {
      if Has(reqMap, "RouterId") {
        errorResponseMap := errorResponseMap["RouterId" := reqMap["RouterId"]];
      }
      if Has(reqMap, "action") {
        errorResponseMap := errorResponseMap["action" := reqMap["action"]];
      }
      if Has(reqMap, "requestId") {
        errorResponseMap := errorResponseMap["requestId" := reqMap["requestId"]];
      } else {
        errorResponseMap := errorResponseMap - {"requestId"};
      }
      if Has(reqMap, "subscriptionId") {
        errorResponseMap := errorResponseMap["subscriptionId" := reqMap["subscriptionId"]];
      }
      errorResponseMap := errorResponseMap["error" := Failure(errorListIndex, altErrorMessage)];
      errorResponseMap := errorResponseMap["ts" := Value.Str(now)];
    }

    method Refuse(reqMap: Map, tD: nat, errorListIndex: nat, altErrorMessage: string, now: string)
      requires tD < |backendChan|
      modifies this
      ensures var m := ErrorResponse(old(errorResponseMap), reqMap, errorListIndex, altErrorMessage, now);
              errorResponseMap == m - {"origin"} && Chans() == Put(old(Chans()), Post(Backend(tD), Finalize(m)))
    {
      SetErrorResponse(reqMap, errorListIndex, altErrorMessage, now);
      errorResponseMap := errorResponseMap - {"origin"};
      ToBackendChan(tD, Finalized(errorResponseMap));
    }

    /** The outcome has taken effect: one message on one channel, and an error response that only a refusal changes. */
    twostate predicate Did(outcome: Option<Outcome>, reqMap: Map, tD: nat, sD: nat, now: string, ok: bool)
      requires old(Ready(tD, sD))
      reads this
    {
      match outcome
      case None => !ok && Chans() == old(Chans()) && errorResponseMap == old(errorResponseMap)
      case Some(Sent(output)) =>
        ok && Chans() == Put(old(Chans()), Posted(output, tD, sD)) && errorResponseMap == old(errorResponseMap)
      case Some(Refused(index, alt)) =>
        var m := ErrorResponse(old(errorResponseMap), reqMap, index, alt, now);
        ok && Chans() == Put(old(Chans()), Post(Backend(tD), Finalize(m))) && errorResponseMap == m - {"origin"}
    }

    method ServeRequest(w: World, request: Request, tD: nat, sD: nat) returns (ok: bool)
      requires Ready(tD, sD)
      modifies this
      ensures match Reply(w, request, tD, sD, old(errorResponseMap))
              case None => !ok && Chans() == old(Chans()) && errorResponseMap == old(errorResponseMap)
              case Some((post, err)) => ok && Chans() == Put(old(Chans()), post) && errorResponseMap == err
    {
      hide Issued, ErrorResponse, Put, UrlToPath, Finalize, ValidRequest;
      var requestMap := Fields(request);
      if request.decoded == None {
        Refuse(requestMap, tD, 0, "", w.now);
        return true;
      }
      if Has(requestMap, "action") && !requestMap["action"].Str? {
        return false;
      }
      if !Has(requestMap, "action") || !ValidRequest(request.text, requestMap["action"].text) {
        Refuse(requestMap, tD, 1, "", w.now);
        return true;
      }
      if Has(requestMap, "path") && !requestMap["path"].Str? {
        return false;
      }
      if Has(requestMap, "path") && '*' in requestMap["path"].text {
        Refuse(requestMap, tD, 1, "", w.now);
        return true;
      }
      if Has(requestMap, "path") {
        requestMap := requestMap["path" := Value.Str(UrlToPath(requestMap["path"].text))];
      }
      SameReply(errorResponseMap, Fields(request), w.now);
      if Is(requestMap, "action", "set") && Has(requestMap, "filter") {
        Refuse(requestMap, tD, 0, "", w.now);
        return true;
      }
      if Is(requestMap, "action", "unsubscribe") {
        ToServiceChan(sD, Raw(request.text));
        return true;
      }
      ok := IssueServiceRequest(w, requestMap, tD, sD);
    }

    method IssueServiceRequest(w: World, reqMap: Map, tD: nat, sD: nat) returns (ok: bool)
      requires HasAction(reqMap) && Ready(tD, sD)
      modifies this
      ensures Did(Issued(w, reqMap), reqMap, tD, sD, w.now, ok)
    {
      hide ErrorResponse, Checked, ScanFilters;
      if Is(reqMap, "action", "internal-killsubscriptions") || Is(reqMap, "action", "internal-cancelsubscription") {
        ToServiceChan(sD, Finalize(reqMap));
        return true;
      }
      if !("path" in reqMap && reqMap["path"].Str?) {
        return false;
      }
      var rootPath := reqMap["path"].text;
      var filterList := [];
      if Has(reqMap, "filter") {
        filterList := UnpackFilter(w, reqMap["filter"]);
      }
      var searchPath := ReadFilters(w, reqMap, rootPath, filterList);
      match searchPath {
        case Done(outcome) => ok := Conclude(outcome, reqMap, tD, sD, w.now);
        case Paths(paths) => ok := CheckAndForward(w, reqMap, if |paths| == 0 then [rootPath] else paths, tD, sD);
      }
    }

    method Conclude(outcome: Option<Outcome>, reqMap: Map, tD: nat, sD: nat, now: string) returns (ok: bool)
      requires Ready(tD, sD)
      modifies this
      ensures Did(outcome, reqMap, tD, sD, now, ok)
    {
      hide ErrorResponse;
      match outcome {
        case None => return false;
        case Some(Sent(ToBackend(message))) => ToBackendChan(tD, message);
        case Some(Sent(ToService(message))) => ToServiceChan(sD, message);
        case Some(Refused(index, alt)) => Refuse(reqMap, tD, index, alt, now);
      }
      return true;
    }

    method ReadFilters(w: World, reqMap: Map, rootPath: string, filterList: seq<Filter>) returns (scan: Scan)
      ensures scan == ScanFilters(w, reqMap, rootPath, filterList)
    {
      assert filterList[0..] == filterList;
      for i := 0 to |filterList|
        invariant ScanFilters(w, reqMap, rootPath, filterList) == ScanFilters(w, reqMap, rootPath, filterList[i..])
      {
        hide Metadata, UnderRoot, UrlToPath;
        var f := filterList[i];
        assert filterList[i..][1..] == filterList[i + 1..];
        if f.kind == "paths" {
          if '[' !in f.parameter {
            return Paths([rootPath + "." + UrlToPath(f.parameter)]);
          }
          var searchPath := ParseStrings(f.parameter);
          if searchPath == None {
            return Done(Some(Refused(0, "")));
          }
          return Paths(UnderRoot(rootPath, searchPath.value));
        }
        if f.kind == "static-metadata" {
          return Done(Metadata(w, reqMap, rootPath));
        }
        if f.kind == "dynamic-metadata" && f.parameter == "server_capabilities" {
          return Done(Some(Sent(ToService(Finalize(reqMap)))));
        }
      }
      return Paths([]);
    }

    method CheckAndForward(w: World, reqMap: Map, searchPath: seq<string>, tD: nat, sD: nat) returns (ok: bool)
      requires HasAction(reqMap) && searchPath != [] && Ready(tD, sD)
      modifies this
      ensures Did(Checked(w, reqMap, searchPath), reqMap, tD, sD, w.now, ok)
    {
      hide ErrorResponse, PathsText, Forwarded, Verified, TokenMessage;
      var found, paths, maxValidation := SearchAll(w, searchPath);
      if |found| == 0 {
        Refuse(reqMap, tD, 6, "", w.now);
        return true;
      }
      var last := Searched(w, searchPath[|searchPath| - 1]).found;
      if Is(reqMap, "action", "set") {
        if |last| == 0 {
          return false;
        }
        if !last[0].actuator {
          Refuse(reqMap, tD, 1, "", w.now);
          return true;
        }
      }
      paths := TrimPaths(found, paths);
      if Is(reqMap, "origin", "internal") {
        maxValidation := 0;
      }
      ok := VerifyAndForward(w, reqMap, paths, maxValidation, tD, sD);
    }

    method VerifyAndForward(w: World, reqMap: Map, paths: string, maxValidation: int, tD: nat,
                            sD: nat) returns (ok: bool)
      requires HasAction(reqMap) && Ready(tD, sD)
      modifies this
      ensures Did(Some(Decided(w, reqMap, paths, maxValidation)), reqMap, tD, sD, w.now, ok)
    {
      hide ErrorResponse, TokenMessage;
      var tokenHandle, gatingId := "", "";
      match maxValidation % 10 {
        case 0 =>
        case 1 | 2 =>
          var v := Verdict(0, "", "");
          if !Has(reqMap, "authorization") {
            v := Verdict(2, "", "");
          } else if Is(reqMap, "action", "set") || maxValidation % 10 == 2 {
            if !reqMap["authorization"].Str? {
              v := Verdict(1, "", "");
            } else {
              v := w.verify(reqMap["authorization"].text, reqMap["action"].text, paths, maxValidation);
            }
          }
          if v.code != 0 {
            Refuse(reqMap, tD, 3, TokenMessage(v.code), w.now);
            return true;
          }
          tokenHandle, gatingId := v.handle, v.gatingId;
        case _ =>
          Refuse(reqMap, tD, 7, "", w.now);
          return true;
      }
      var m := reqMap["path" := Value.Str(paths)];
      if tokenHandle != "" {
        m := m["handle" := Value.Str(tokenHandle)];
      }
      if gatingId != "" {
        m := m["gatingId" := Value.Str(gatingId)];
      }
      ToServiceChan(sD, Finalize(m));
      return true;
    }
  }

  method UnpackFilter(w: World, filter: Value) returns (fList: seq<Filter>)
    ensures fList == Unpacked(w, filter)
  {
    match filter {
      case Other(Arr(items)) =>
        fList := UnpackFilterLevel1(w, items);
      case Other(Obj(members)) =>
        var f := UnpackFilterLevel2(w, 0, members);
        fList := [f];
      case _ =>
        fList := [];
    }
  }

  method UnpackFilterLevel1(w: World, filterArray: seq<Json>) returns (fList: seq<Filter>)
    ensures |fList| == |filterArray| && forall i :: 0 <= i < |fList| ==> fList[i] == FilterOf(w, i, filterArray[i])
  {
    hide VisitAll, Visited;
    fList := seq(|filterArray|, _ => Filter("", ""));
    for i := 0 to |filterArray|
      invariant |fList| == |filterArray|
      invariant forall k :: 0 <= k < i ==> fList[k] == FilterOf(w, k, filterArray[k])
      invariant forall k :: i <= k < |fList| ==> fList[k] == Filter("", "")
    {
      if filterArray[i].Obj? {
        var f := UnpackFilterLevel2(w, i, filterArray[i].members);
        fList := fList[i := f];
      }
    }
  }

  method UnpackFilterLevel2(w: World, index: nat, members: seq<Member>) returns (f: Filter)
    ensures f == VisitAll(w.marshal, members, Visited(w, index, members))
  {
    f := Filter("", "");
    var keys := Visited(w, index, members);
    for i := 0 to |keys|
      invariant f == VisitAll(w.marshal, members, keys[..i])
    {
      assert keys[..i + 1][..i] == keys[..i];
      match Lookup(members, keys[i]) {
        case Some(Str(text)) =>
          if keys[i] == "type" {
            f := f.(kind := text);
          } else if keys[i] == "parameter" {
            f := f.(parameter := text);
          }
        case Some(Arr(items)) =>
          if keys[i] == "parameter" {
            f := f.(parameter := "[" + w.marshal(Arr(items)));
          }
        case Some(Obj(ms)) =>
          f := f.(parameter := "{" + w.marshal(Obj(ms)));
        case _ =>
      }
    }
    assert keys[..|keys|] == keys;
  }

  lemma SameReply(err: Map, reqMap: Map, now: string)
    requires Has(reqMap, "path") ==> reqMap["path"].Str?
    ensures forall index: nat, alt ::
              ErrorResponse(err, WithDots(reqMap), index, alt, now) == ErrorResponse(err, reqMap, index, alt, now)
  {
  }

  /** The loop over the search paths. */
  method SearchAll(w: World, searchPath: seq<string>) returns (found: seq<Node>, paths: string, maxValidation: int)
    ensures found == FoundAll(w, searchPath) && maxValidation == Folded(Levels(w, searchPath))
    ensures paths == EachPath(found)
  {
    hide GetMaxValidation, Searched, EachPath, FoundAll, Folded, Levels;
    SearchedNothing(w);
    found, paths, maxValidation := [], "", -1;
    for i := 0 to |searchPath|
      invariant found == FoundAll(w, searchPath[..i]) && maxValidation == Folded(Levels(w, searchPath[..i]))
      invariant paths == EachPath(found)
    {
      SearchStep(w, searchPath, i);
      var search := Searched(w, searchPath[i]);
      ghost var before := found;
      for k := 0 to |search.found|
        invariant found == before + search.found[..k] && paths == EachPath(found)
      {
        EachPathLast(found + [search.found[k]]);
        assert (found + [search.found[k]])[..|found|] == found;
        paths := paths + (Quoted(search.found[k].path) + ", ");
        found := found + [search.found[k]];
      }
      assert search.found[..|search.found|] == search.found;
      maxValidation := GetMaxValidation(search.validation, maxValidation);
    }
    assert searchPath[..|searchPath|] == searchPath;
  }

  lemma SearchedNothing(w: World)
    ensures FoundAll(w, []) == [] && Folded(Levels(w, [])) == -1 && EachPath([]) == ""
  {
  }

  lemma SearchStep(w: World, paths: seq<string>, i: nat)
    requires i < |paths|
    ensures FoundAll(w, paths[..i + 1]) == FoundAll(w, paths[..i]) + Searched(w, paths[i]).found
    ensures Folded(Levels(w, paths[..i + 1]))
            == GetMaxValidation(Searched(w, paths[i]).validation, Folded(Levels(w, paths[..i])))
  {
    hide GetMaxValidation, Searched;
    assert paths[..i + 1][..i] == paths[..i];
    assert Levels(w, paths[..i + 1])[..i] == Levels(w, paths[..i]);
  }

  /** Every found path in quotes, a comma and a space behind it. */
  function EachPath(found: seq<Node>): string {
    if found == [] then ""
    else EachPath(found[..|found| - 1]) + (Quoted(found[|found| - 1].path) + ", ")
  }

  lemma {:induction false} EachPathHead(found: seq<Node>)
    requires found != []
    ensures EachPath(found) == Quoted(found[0].path) + ", " + EachPath(found[1..])
  {
    hide Quoted;
    var n := |found| - 1;
    if n == 0 {
      assert found[..0] == [] && found[1..] == [];
      assert "" + (Quoted(found[0].path) + ", ") == Quoted(found[0].path) + ", " + "";
    } else {
      EachPathHead(found[..n]);
      EachPathLast(found[1..]);
      assert found[..n][1..] == found[1..][..n - 1] && found[1..][n - 1] == found[n];
      EachPathLast(found);
      hide EachPath;
    }
  }

  lemma EachPathLast(found: seq<Node>)
    requires found != []
    ensures EachPath(found) == EachPath(found[..|found| - 1]) + (Quoted(found[|found| - 1].path) + ", ")
  {
  }

  lemma {:induction false} EachPathJoined(found: seq<Node>)
    requires found != []
    ensures var s := EachPath(found);
            |s| >= 4 && s[..|s| - 2] + "]" == PrintItems(PathItems(found), SPACED)
  {
    hide EachPath, Quoted, PrintItems;
    EachPathHead(found);
    QuotedIsPrinted(found[0].path);
    var first, rest := Quoted(found[0].path), EachPath(found[1..]);
    PathItemsPrinted(found);
    if |found| == 1 {
      EachPathNothing(found[1..]);
      assert (first + ", " + "")[..|first|] == first;
    } else {
      EachPathJoined(found[1..]);
      CutComma(first, rest);
    }
  }

  lemma EachPathNothing(found: seq<Node>)
    requires found == []
    ensures EachPath(found) == ""
  {
  }

  lemma QuotedIsPrinted(path: string)
    ensures Quoted(path) == Print(Json.Str(path), SPACED) && |Quoted(path)| >= 2
  {
  }

  lemma PathItemsPrinted(found: seq<Node>)
    requires found != []
    ensures PrintItems(PathItems(found), SPACED)
         == Quoted(found[0].path)
             + (if |found| == 1 then "]" else "," + " " + PrintItems(PathItems(found[1..]), SPACED))
  {
    QuotedIsPrinted(found[0].path);
    hide Print, Quoted;
    assert PathItems(found)[1..] == PathItems(found[1..]);
  }

  lemma CutComma(first: string, rest: string)
    requires |rest| >= 2
    ensures var s := first + ", " + rest;
            s[..|s| - 2] + "]" == first + ("," + " " + (rest[..|rest| - 2] + "]"))
  {
    var s := first + ", " + rest;
    assert s[..|s| - 2] == first + ", " + rest[..|rest| - 2];
  }

  /** The trimming behind the loop. */
  method TrimPaths(found: seq<Node>, all: string) returns (paths: string)
    requires found != [] && all == EachPath(found)
    ensures paths == PathsText(found)
  {
    EachPathJoined(found);
    hide PrintItems;
    paths := all[..|all| - 2];
    if |found| == 1 {
      EachPathHead(found);
      assert found[1..] == [];
      assert paths == "\"" + found[0].path + "\"";
      paths := paths[1..|paths| - 1];
    } else {
      paths := "[" + paths + "]";
      assert paths == "[" + "" + (all[..|all| - 2] + "]");
    }
  }
}
