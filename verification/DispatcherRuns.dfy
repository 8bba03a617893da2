/** What the dispatcher keeps over any history of requests. */
module DispatcherRuns {
  import opened Text
  import opened Json
  import opened AccessLevel
  import opened Dispatcher

  /** A request, in its world, over the channels of its transport manager and its service. */
  datatype Call = Call(w: World, request: Request, tD: nat, sD: nat)

  function Replied(call: Call, err: Map): Option<(Post, Map)> {
    Reply(call.w, call.request, call.tD, call.sD, err)
  }

  /** The error response and what has been posted after some requests; None if one of them panics. */
  function After(calls: seq<Call>): Option<(Map, seq<Post>)> {
    if calls == [] then Some((INITIAL, []))
    else
      var (err, posts) :- After(calls[..|calls| - 1]);
      var (post, err2) :- Replied(calls[|calls| - 1], err);
      Some((err2, posts + [post]))
  }

  /** Where the message for a request belongs: what the service has to do goes there, all else to the manager that
      asked. */
  function ChannelOf(call: Call): Channel {
    match Served(call.w, call.request)
    case Some(Sent(ToService(_))) => Service(call.sD)
    case _ => Backend(call.tD)
  }

  /** The fields of the refused requests, in order. */
  function Refusals(calls: seq<Call>): seq<Map> {
    if calls == [] then []
    else
      var call := calls[|calls| - 1];
      Refusals(calls[..|calls| - 1])
      + match Served(call.w, call.request) case Some(Refused(_, _)) => [Fields(call.request)] case _ => []
  }

  function Get(m: Map, key: string): Option<Value> {
    if key in m then Some(m[key]) else None
  }

  /** The value under a key in the last of the maps that has one. */
  function LastWith(ms: seq<Map>, key: string): Option<Value> {
    if ms == [] then Get(INITIAL, key)
    else if Has(ms[|ms| - 1], key) then Some(ms[|ms| - 1][key])
    else LastWith(ms[..|ms| - 1], key)
  }

  /** The value under a key in the very last of the maps. */
  function InLast(ms: seq<Map>, key: string): Option<Value> {
    if ms == [] then Get(INITIAL, key)
    else if Has(ms[|ms| - 1], key) then Some(ms[|ms| - 1][key])
    else None
  }

  const STICKY := {"RouterId", "action", "subscriptionId"}

  /** The error response shows these refused requests, and nothing else. */
  predicate Shows(err: Map, refused: seq<Map>) {
    && (forall key :: key in STICKY ==> Get(err, key) == LastWith(refused, key))
    && Get(err, "requestId") == InLast(refused, "requestId")
    && err.Keys <= {"RouterId", "action", "requestId", "subscriptionId", "error", "ts"}
  }

  lemma KeysDiffer()
    ensures "RouterId" != "action" && "RouterId" != "requestId" && "RouterId" != "subscriptionId"
    ensures "action" != "requestId" && "action" != "subscriptionId" && "requestId" != "subscriptionId"
    ensures "error" != "RouterId" && "error" != "action" && "error" != "requestId" && "error" != "subscriptionId"
    ensures "ts" != "RouterId" && "ts" != "action" && "ts" != "requestId" && "ts" != "subscriptionId" && "ts" != "error"
    ensures "origin" != "RouterId" && "origin" != "action" && "origin" != "requestId" && "origin" != "subscriptionId"
    ensures "origin" != "error" && "origin" != "ts"
  {
    assert "RouterId"[0] == 'R' && "action"[0] == 'a' && "requestId"[0] == 'r' && "subscriptionId"[0] == 's';
    assert "error"[0] == 'e' && "ts"[0] == 't' && "origin"[0] == 'o';
  }

  /** The fields of the error response. */
  lemma ErrorFields(err: Map, reqMap: Map, index: nat, alt: string, now: string)
    ensures var m := ErrorResponse(err, reqMap, index, alt, now);
            && (forall key :: key in STICKY ==>
                Get(m, key) == if Has(reqMap, key) then Some(reqMap[key]) else Get(err, key))
            && Get(m, "requestId") == (if Has(reqMap, "requestId") then Some(reqMap["requestId"]) else None)
            && Get(m, "error") == Some(Failure(index, alt))
            && Get(m, "ts") == Some(Value.Str(now))
            && m.Keys <= err.Keys + {"RouterId", "action", "requestId", "subscriptionId", "error", "ts"}
  {
    KeysDiffer();
    hide Has;
  }

  lemma ErrorShows(err: Map, refused: seq<Map>, reqMap: Map, index: nat, alt: string, now: string)
    requires Shows(err, refused)
    ensures var m := ErrorResponse(err, reqMap, index, alt, now);
            Shows(m, refused + [reqMap]) && m - {"origin"} == m
            && Get(m, "error") == Some(Failure(index, alt)) && Get(m, "ts") == Some(Value.Str(now))
  {
    ErrorFields(err, reqMap, index, alt, now);
    NoOrigin();
    hide ErrorResponse, Has;
    var ms := refused + [reqMap];
    assert ms[..|ms| - 1] == refused;
  }

  lemma NoOrigin()
    ensures "origin" !in {"RouterId", "action", "requestId", "subscriptionId", "error", "ts"}
  {
    KeysDiffer();
  }

  /** Over any history: one message for each request, on its own channel, and the error response shows under RouterId,
      action and subscriptionId the last refused request that had such a field, under requestId the last refused one. */
  lemma {:induction false} History(calls: seq<Call>)
    requires After(calls).Some?
    ensures |After(calls).value.1| == |calls|
    ensures forall i :: 0 <= i < |calls| ==> After(calls).value.1[i].channel == ChannelOf(calls[i])
    ensures Shows(After(calls).value.0, Refusals(calls))
  {
    hide Served, ErrorResponse, Fields, Shows;
    if calls == [] {
      InitialShows();
    } else {
      var n := |calls| - 1;
      History(calls[..n]);
      var (err, posts) := After(calls[..n]).value;
      assert forall i :: 0 <= i < n ==> After(calls).value.1[i] == posts[i] && calls[..n][i] == calls[i];
      match Served(calls[n].w, calls[n].request)
      case Some(Refused(index, alt)) =>
        ErrorShows(err, Refusals(calls[..n]), Fields(calls[n].request), index, alt, calls[n].w.now);
      case Some(Sent(_)) =>
        assert Refusals(calls[..n]) + [] == Refusals(calls[..n]);
      case None =>
    }
  }

  lemma InitialShows()
    ensures Shows(INITIAL, [])
  {
  }

  /** An error reply goes to the backend channel of the manager that asked. Its request id is that of the request, or
      missing. Its router id, action and subscription id are those of the request if the request has them; otherwise
      they are left over from the last refused request that had them. */
  lemma ErrorReply(calls: seq<Call>, call: Call)
    requires After(calls).Some? && Served(call.w, call.request).Some? && Served(call.w, call.request).value.Refused?
    ensures var (post, _) := Replied(call, After(calls).value.0).value;
            var reqMap := Fields(call.request);
            post.channel == Backend(call.tD) && post.message.Finalized?
            && var m := post.message.fields;
               var refused := Served(call.w, call.request).value;
               && Get(m, "error") == Some(Failure(refused.index, refused.alt))
               && Get(m, "ts") == Some(Value.Str(call.w.now))
               && Get(m, "requestId") == (if Has(reqMap, "requestId") then Some(reqMap["requestId"]) else None)
               && (forall key :: key in STICKY ==>
                     Get(m, key) == if Has(reqMap, key) then Some(reqMap[key]) else LastWith(Refusals(calls), key))
  {
    History(calls);
    hide Served, Fields, ErrorResponse;
    var err, ms := After(calls).value.0, Refusals(calls) + [Fields(call.request)];
    var Refused(index, alt) := Served(call.w, call.request).value;
    ErrorShows(err, Refusals(calls), Fields(call.request), index, alt, call.w.now);
    assert ms[..|ms| - 1] == Refusals(calls);
  }

  // ---------------------------------------------------------------- what is forwarded

  /** A request is refused as malformed, as invalid, for its token or for want of data; the switch on the level has
      no other case. */
  lemma NeverUnavailable(w: World, request: Request)
    ensures Served(w, request).Some? && Served(w, request).value.Refused? ==>
              Served(w, request).value.index in {0, 1, 3, 6}
  {
    hide TokenMessage, Forwarded, PathsText, Verified, UrlToPath, Finalize;
    if request.decoded.Some? && HasAction(request.decoded.value)
       && (Has(request.decoded.value, "path") ==> request.decoded.value["path"].Str?) {
      IssuedNeverUnavailable(w, WithDots(request.decoded.value));
    }
  }

  lemma IssuedNeverUnavailable(w: World, reqMap: Map)
    requires HasAction(reqMap)
    ensures Issued(w, reqMap).Some? && Issued(w, reqMap).value.Refused? ==>
            Issued(w, reqMap).value.index in {0, 1, 3, 6}
  {
    hide TokenMessage, Forwarded, PathsText, Verified, UrlToPath, Finalize, Checked, Folded;
    if "path" in reqMap && reqMap["path"].Str? {
      var root := reqMap["path"].text;
      ScanRefuses(w, reqMap, root, FiltersOf(w, reqMap));
      forall paths | paths != []
        ensures Checked(w, reqMap, paths).Some? && Checked(w, reqMap, paths).value.Refused? ==>
                  Checked(w, reqMap, paths).value.index in {1, 3, 6}
      {
        CheckedRefuses(w, reqMap, paths);
      }
    }
  }

  lemma CheckedRefuses(w: World, reqMap: Map, paths: seq<string>)
    requires HasAction(reqMap) && paths != []
    ensures Checked(w, reqMap, paths).Some? && Checked(w, reqMap, paths).value.Refused? ==>
              Checked(w, reqMap, paths).value.index in {1, 3, 6}
  {
    hide TokenMessage, Forwarded, PathsText, Verified, Folded, Searched, FoundAll;
    OneOfThree(Levels(w, paths));
  }

  lemma {:induction false} ScanRefuses(w: World, reqMap: Map, root: string, filters: seq<Filter>)
    ensures var s := ScanFilters(w, reqMap, root, filters);
            s.Done? && s.outcome.Some? && s.outcome.value.Refused? ==> s.outcome.value.index == 0
  {
    hide UnderRoot, UrlToPath, TokenContext;
    if filters != [] {
      ScanRefuses(w, reqMap, root, filters[1..]);
    }
  }

  /** Several paths go to the service as a JSON array of them, in the order they were found. */
  lemma PathsRead(found: seq<Node>)
    requires |found| != 1 && forall i :: 0 <= i < |found| ==> RawText(found[i].path)
    ensures Parse(PathsText(found)) == Some(Arr(PathItems(found)))
  {
    var j := Arr(PathItems(found));
    ParseOfPrint(j, SPACED, "");
    assert Print(j, SPACED) + "" == Print(j, SPACED);
    hide Print, Parse;
  }
}
