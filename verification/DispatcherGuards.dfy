/** What the dispatcher lets through to the service: exactly when an access token is asked for. */
module DispatcherGuards {
  import opened Text
  import opened AccessLevel
  import opened Json
  import opened Dispatcher
  import opened DispatcherFilters
  import opened DispatcherRuns

  lemma WithDotsKeeps(m: Map, key: string)
    requires Has(m, "path") ==> m["path"].Str?
    requires key != "path"
    ensures Get(WithDots(m), key) == Get(m, key)
  {
  }

  /** A set request carries no filter, so that there is one search and its first node exists where it is looked at. */
  lemma SetSearchesOnce(w: World, request: Request, reqMap: Map)
    requires request.decoded == Some(reqMap) && Is(reqMap, "action", "set")
    requires ValidRequest(request.text, "set") && !Has(reqMap, "filter")
    requires Has(reqMap, "path") && reqMap["path"].Str? && '*' !in reqMap["path"].text
    ensures var root := UrlToPath(reqMap["path"].text);
            Served(w, request) == Checked(w, WithDots(reqMap), [root]) && Served(w, request).Some?
  {
    hide Checked, UrlToPath;
    SetIsNoOther();
    WithDotsKeeps(reqMap, "action");
    WithDotsKeeps(reqMap, "filter");
    SingleSearch(w, WithDots(reqMap), UrlToPath(reqMap["path"].text));
  }

  lemma SetIsNoOther()
    ensures "set" != "unsubscribe" && "set" != "internal-killsubscriptions" && "set" != "internal-cancelsubscription"
    ensures "action" != "path" && "filter" != "path" && "origin" != "path" && "authorization" != "path"
  {
    assert "path"[0] == 'p' && "action"[0] == 'a' && "filter"[0] == 'f' && "origin"[0] == 'o'
        && "authorization"[0] == 'a';
  }

  lemma SingleSearch(w: World, reqMap: Map, root: string)
    requires HasAction(reqMap)
    ensures FoundAll(w, [root]) == Searched(w, root).found && Checked(w, reqMap, [root]).Some?
    ensures Levels(w, [root]) == [Searched(w, root).validation]
  {
    assert [root][..0] == [];
    assert FoundAll(w, [root]) == [] + Searched(w, root).found;
    hide Verified, TokenMessage, Forwarded, PathsText, Folded, Searched;
  }

  /** What the service is asked to do on a path that is protected for reading and writing has a token that the token
      server accepts for just these paths, this action and this level, if the path went through the search. */
  lemma CheckedRead(w: World, reqMap: Map, paths: seq<string>, i: nat)
    requires HasAction(reqMap) && i < |paths| && Access(Searched(w, paths[i]).validation) == 2
    requires !Is(reqMap, "origin", "internal")
    requires Checked(w, reqMap, paths).Some? && Checked(w, reqMap, paths).value.Sent?
    ensures Accepted(w, reqMap, PathsText(FoundAll(w, paths)), Folded(Levels(w, paths)))
  {
    FoldedIsHighest(Levels(w, paths));
    OneOfThree(Levels(w, paths));
    assert Levels(w, paths)[i] == Searched(w, paths[i]).validation;
    hide TokenMessage, Forwarded, PathsText, Folded, Searched, FoundAll, Levels;
  }

  /** The request carries a token that the token server accepts for these paths and this level. */
  predicate Accepted(w: World, reqMap: Map, paths: string, level: int)
    requires HasAction(reqMap)
  {
    Has(reqMap, "authorization") && reqMap["authorization"].Str?
    && w.verify(reqMap["authorization"].text, reqMap["action"].text, paths, level).code == 0
  }

  lemma CheckedSet(w: World, m: Map, paths: seq<string>)
    requires HasAction(m) && Is(m, "action", "set") && !Is(m, "origin", "internal") && paths != []
    requires Checked(w, m, paths).Some? && Checked(w, m, paths).value.Sent?
    ensures var last := Searched(w, paths[|paths| - 1]).found; last != [] && last[0].actuator
    ensures Access(Folded(Levels(w, paths))) > 0 ==>
              Accepted(w, m, PathsText(FoundAll(w, paths)), Folded(Levels(w, paths)))
  {
    OneOfThree(Levels(w, paths));
    hide TokenMessage, Forwarded, PathsText, Folded, Searched, FoundAll, Levels;
  }

  // ---------------------------------------------------------------- set requests

  predicate HasPath(m: Map) {
    "path" in m && m["path"].Str?
  }

  /** The path of a request, with dots. */
  function Root(m: Map): string
    requires HasPath(m)
  {
    UrlToPath(m["path"].text)
  }

  /** If the request is a set request and goes through, its node is an actuator, and unprotected or paid for by a token
      that the token server accepts for just this path, this action and this level. */
  predicate SetGuarded(w: World, request: Request) {
    request.decoded.Some? && Is(request.decoded.value, "action", "set")
    && Served(w, request).Some? && Served(w, request).value.Sent? ==>
      var m := request.decoded.value;
      HasPath(m) && !Has(m, "filter")
      && var search := Searched(w, Root(m));
         && search.found != [] && search.found[0].actuator
         && (Access(search.validation) > 0 ==> Accepted(w, m, PathsText(search.found), Folded([search.validation])))
  }

  /** A set request that some server can carry out. */
  predicate Settable(text: string, m: Map) {
    && Is(m, "action", "set") && ValidRequest(text, "set")
    && HasPath(m) && '*' !in m["path"].text && Root(m) != ""
    && !Has(m, "filter")
  }

  /** A set request that goes through has been searched on its one path. */
  lemma SetGoesThrough(w: World, text: string, m: Map)
    requires Is(m, "action", "set")
    requires Served(w, Request(text, Some(m))).Some? && Served(w, Request(text, Some(m))).value.Sent?
    ensures ValidRequest(text, "set") && HasPath(m) && '*' !in m["path"].text && !Has(m, "filter")
    ensures Served(w, Request(text, Some(m))) == Checked(w, WithDots(m), [Root(m)])
    ensures Searched(w, Root(m)).found != [] && Root(m) != ""
  {
    SetIsNoOther();
    SetFields(w, text, m);
    SetSearchesOnce(w, Request(text, Some(m)), m);
    SingleSearch(w, WithDots(m), Root(m));
    hide Decided, PathsText, Level, UrlToPath;
  }

  lemma SetFields(w: World, text: string, m: Map)
    requires Is(m, "action", "set")
    requires Served(w, Request(text, Some(m))).Some? && Served(w, Request(text, Some(m))).value.Sent?
    ensures ValidRequest(text, "set") && HasPath(m) && '*' !in m["path"].text && !Has(m, "filter")
  {
    hide Checked, ScanFilters, UrlToPath, ValidRequest;
    SetIsNoOther();
    if Has(m, "path") && m["path"].Str? {
      WithDotsKeeps(m, "filter");
      WithDotsKeeps(m, "action");
    }
  }

  lemma SetIsGuarded(w: World, text: string, m: Map)
    requires !Is(m, "origin", "internal")
    ensures SetGuarded(w, Request(text, Some(m)))
  {
    var request := Request(text, Some(m));
    if Is(m, "action", "set") && Served(w, request).Some? && Served(w, request).value.Sent? {
      SetGoesThrough(w, text, m);
      SetIsNoOther();
      hide Served, Checked, UrlToPath, ValidRequest;
      var root, dotted := Root(m), WithDots(m);
      SingleSearch(w, dotted, root);
      WithDotsKeeps(m, "action");
      WithDotsKeeps(m, "origin");
      WithDotsKeeps(m, "authorization");
      CheckedSet(w, dotted, [root]);
      FoldedIsHighest([Searched(w, root).validation]);
      hide Searched, PathsText, Folded;
    }
  }

  /** A server with one actuator that is protected with consent, and a token server that accepts nothing. */
  function Strict(marshal: Json -> string, orders: seq<seq<string>>): World {
    World(Choice(orders), marshal, _ => None, (_, _) => "", _ => Search([Node("A", true)], 12),
          (_, _, _, _) => Verdict(1, "", ""), "")
  }

  lemma StrictSet(text: string, m: Map, marshal: Json -> string)
    requires Settable(text, m) && Is(m, "origin", "internal")
    ensures !SetGuarded(Strict(marshal, []), Request(text, Some(m)))
  {
    var w, request, root := Strict(marshal, []), Request(text, Some(m)), Root(m);
    SetIsNoOther();
    SetSearchesOnce(w, request, m);
    hide Served, UrlToPath, ValidRequest;
    SingleSearch(w, WithDots(m), root);
    WithDotsKeeps(m, "action");
    WithDotsKeeps(m, "origin");
    InternalPasses(w, WithDots(m), [root]);
    assert Searched(w, root).validation == 12;
    hide PathsText, Folded;
  }

  /** A request that says it is internal is forwarded without a token. */
  lemma InternalPasses(w: World, m: Map, paths: seq<string>)
    requires HasAction(m) && Is(m, "origin", "internal") && paths != [] && FoundAll(w, paths) != []
    requires Is(m, "action", "set") ==>
               Searched(w, paths[|paths| - 1]).found != [] && Searched(w, paths[|paths| - 1]).found[0].actuator
    ensures Checked(w, m, paths).Some? && Checked(w, m, paths).value.Sent?
            && Checked(w, m, paths).value.output.ToService?
  {
    hide PathsText, Forwarded, Searched, FoundAll, Folded;
  }

  /** Whatever the server: set requests are guarded exactly when none that can be carried out says it is internal. */
  lemma SetGuardedIff(text: string, m: Map)
    ensures (forall w :: SetGuarded(w, Request(text, Some(m)))) <==> !(Settable(text, m) && Is(m, "origin", "internal"))
  {
    hide SetGuarded, ValidRequest, UrlToPath;
    if Settable(text, m) && Is(m, "origin", "internal") {
      StrictSet(text, m, _ => "");
    } else {
      forall w ensures SetGuarded(w, Request(text, Some(m))) {
        if Is(m, "origin", "internal") {
          NotSettable(w, text, m);
        } else {
          SetIsGuarded(w, text, m);
        }
      }
    }
  }

  lemma NotSettable(w: World, text: string, m: Map)
    requires !Settable(text, m)
    ensures SetGuarded(w, Request(text, Some(m)))
  {
    var request := Request(text, Some(m));
    if Is(m, "action", "set") && Served(w, request).Some? && Served(w, request).value.Sent? {
      SetGoesThrough(w, text, m);
    }
  }

  // ---------------------------------------------------------------- get and subscribe requests

  predicate Asks(m: Map) {
    Is(m, "action", "get") || Is(m, "action", "subscribe")
  }

  /** The first filter that decides how a request goes on. The paths are None if they cannot be read. */
  datatype Way = Plain | ByPaths(paths: Option<seq<string>>) | Static | Capabilities

  function WayOf(root: string, filters: seq<Filter>): Way {
    if filters == [] then Plain
    else
      var f := filters[0];
      if f.kind == "paths" then
        if '[' !in f.parameter then ByPaths(Some([root + "." + UrlToPath(f.parameter)]))
        else
          match ParseStrings(f.parameter)
          case None => ByPaths(None)
          case Some(paths) => ByPaths(Some(UnderRoot(root, paths)))
      else if f.kind == "static-metadata" then Static
      else if f.kind == "dynamic-metadata" && f.parameter == "server_capabilities" then Capabilities
      else WayOf(root, filters[1..])
  }

  /** The paths that a request is about. */
  function Touched(w: World, m: Map): seq<string>
    requires HasPath(m)
  {
    match WayOf(Root(m), FiltersOf(w, m))
    case ByPaths(Some(paths)) => if paths == [] then [Root(m)] else paths
    case _ => [Root(m)]
  }

  predicate Forwards(w: World, request: Request) {
    Served(w, request).Some? && Served(w, request).value.Sent? && Served(w, request).value.output.ToService?
  }

  predicate Protected(w: World, paths: seq<string>) {
    exists i :: 0 <= i < |paths| && Access(Searched(w, paths[i]).validation) == 2
  }

  /** If the service is asked for a path that is protected for reading, the token server has accepted the request's
      token for just these paths, this action and this level. */
  predicate ReadGuarded(w: World, request: Request) {
    request.decoded.Some? && Asks(request.decoded.value) && Forwards(w, request) ==>
      var m := request.decoded.value;
      HasPath(m)
      && (Protected(w, Touched(w, m)) ==>
            Accepted(w, m, PathsText(FoundAll(w, Touched(w, m))), Folded(Levels(w, Touched(w, m)))))
  }

  lemma {:induction false} ScanWay(w: World, m: Map, root: string, filters: seq<Filter>)
    ensures ScanFilters(w, m, root, filters)
         == match WayOf(root, filters)
            case Plain => Paths([])
            case ByPaths(None) => Done(Some(Refused(0, "")))
            case ByPaths(Some(paths)) => Paths(paths)
            case Static => Done(Metadata(w, m, root))
            case Capabilities => Done(Some(Sent(ToService(Finalize(m)))))
  {
    hide Metadata, UnderRoot, UrlToPath, Finalize, ParseStrings;
    if filters != [] {
      ScanWay(w, m, root, filters[1..]);
    }
  }

  lemma MetadataStays(w: World, m: Map, root: string)
    ensures Metadata(w, m, root).Some? && Metadata(w, m, root).value.Sent? ==>
            Metadata(w, m, root).value.output.ToBackend?
  {
    hide TokenContext;
  }

  lemma AsksNoOther()
    ensures "get" != "set" && "get" != "unsubscribe" && "get" != "internal-killsubscriptions"
    ensures "get" != "internal-cancelsubscription"
    ensures "subscribe" != "set" && "subscribe" != "unsubscribe" && "subscribe" != "internal-killsubscriptions"
    ensures "subscribe" != "internal-cancelsubscription"
  {
    assert "get"[0] == 'g' && "set"[0] == 's' && "unsubscribe"[0] == 'u' && "internal-killsubscriptions"[0] == 'i';
    assert "internal-cancelsubscription"[0] == 'i' && "subscribe"[0] == 's' && |"subscribe"| != |"set"|;
  }

  /** How a get or subscribe request is issued. */
  lemma AskedIssued(w: World, text: string, m: Map)
    requires Asks(m)
    ensures Served(w, Request(text, Some(m)))
         == if !ValidRequest(text, m["action"].text) then Some(Refused(1, ""))
            else if Has(m, "path") && !m["path"].Str? then None
            else if Has(m, "path") && '*' in m["path"].text then Some(Refused(1, ""))
            else Issued(w, WithDots(m))
  {
    AsksNoOther();
    SetIsNoOther();
    hide Issued, ValidRequest, UrlToPath;
    if Has(m, "path") && m["path"].Str? {
      WithDotsKeeps(m, "action");
    }
  }

  lemma SameFilters(w: World, m: Map)
    requires Has(m, "path") ==> m["path"].Str?
    ensures FiltersOf(w, WithDots(m)) == FiltersOf(w, m)
  {
    SetIsNoOther();
    hide Unpacked;
    WithDotsKeeps(m, "filter");
  }

  lemma IssuedAsked(w: World, m: Map)
    requires Asks(m) && (Has(m, "path") ==> m["path"].Str?)
    ensures HasAction(WithDots(m))
    ensures Issued(w, WithDots(m))
         == if !HasPath(m) then None
            else
              match ScanFilters(w, WithDots(m), Root(m), FiltersOf(w, m))
              case Done(outcome) => outcome
              case Paths(_) => Checked(w, WithDots(m), Touched(w, m))
  {
    AsksNoOther();
    SetIsNoOther();
    SameFilters(w, m);
    hide Checked, UrlToPath, FiltersOf, WayOf;
    WithDotsKeeps(m, "action");
    if HasPath(m) {
      ScanWay(w, WithDots(m), Root(m), FiltersOf(w, m));
      hide ScanFilters;
      assert Has(m, "path") && WithDots(m)["path"] == Value.Str(Root(m));
    }
  }

  /** A get or subscribe request that, with this list of filters, some server forwards without asking for the token: a
      server_capabilities filter stands in front of the first paths or static-metadata filter, or the request says it is
      internal. */
  predicate UnguardedBy(text: string, m: Map, filters: seq<Filter>) {
    && Asks(m) && ValidRequest(text, m["action"].text)
    && HasPath(m) && '*' !in m["path"].text
    && match WayOf(Root(m), filters)
       case Plain => Is(m, "origin", "internal") && Root(m) != ""
       case ByPaths(None) => false
       case ByPaths(Some(paths)) => Is(m, "origin", "internal") && (paths != [] || Root(m) != "")
       case Static => false
       case Capabilities => Root(m) != ""
  }

  /** The filter member as it is decoded; null stands for none. */
  function FilterValue(m: Map): Value {
    if "filter" in m then m["filter"] else Null
  }

  /** Such a list may be unpacked from the request's filter. */
  ghost predicate Unguarded(text: string, m: Map, marshal: Json -> string) {
    exists filters :: MayUnpack(marshal, FilterValue(m), filters) && UnguardedBy(text, m, filters)
  }

  lemma FiltersAre(w: World, m: Map)
    ensures FiltersOf(w, m) == Unpacked(w, FilterValue(m))
  {
  }

  lemma ReadIsGuarded(w: World, text: string, m: Map)
    requires !UnguardedBy(text, m, FiltersOf(w, m))
    ensures ReadGuarded(w, Request(text, Some(m)))
  {
    var request := Request(text, Some(m));
    hide Served, Issued, ValidRequest, UrlToPath, ScanFilters, Checked, WayOf, Metadata, Protected, Accepted, WithDots,
        Root, FiltersOf;
    if Asks(m) && Forwards(w, request) {
      AskedIssued(w, text, m);
      IssuedAsked(w, m);
      ScanWay(w, WithDots(m), Root(m), FiltersOf(w, m));
      MetadataStays(w, WithDots(m), Root(m));
      if Protected(w, Touched(w, m)) {
        ProtectedAccepted(w, text, m);
      }
    }
  }

  lemma ProtectedAccepted(w: World, text: string, m: Map)
    requires Asks(m) && HasPath(m) && ValidRequest(text, m["action"].text) && '*' !in m["path"].text
    requires !UnguardedBy(text, m, FiltersOf(w, m)) && Protected(w, Touched(w, m))
    requires Issued(w, WithDots(m)).Some? && Issued(w, WithDots(m)).value.Sent?
    requires Issued(w, WithDots(m)).value.output.ToService?
    ensures Accepted(w, m, PathsText(FoundAll(w, Touched(w, m))), Folded(Levels(w, Touched(w, m))))
  {
    hide Issued, ValidRequest, UrlToPath, Checked, Metadata, WayOf, ScanFilters, PathsText, FoundAll, Folded, Levels,
        FiltersOf;
    IssuedAsked(w, m);
    ScanWay(w, WithDots(m), Root(m), FiltersOf(w, m));
    MetadataStays(w, WithDots(m), Root(m));
    if Touched(w, m) == [Root(m)] {
      RootSearched(w, m);
    }
    SetIsNoOther();
    WithDotsKeeps(m, "action");
    WithDotsKeeps(m, "origin");
    WithDotsKeeps(m, "authorization");
    var paths := Touched(w, m);
    var i :| 0 <= i < |paths| && Access(Searched(w, paths[i]).validation) == 2;
    hide Touched, Searched, Root;
    if !Is(m, "origin", "internal") {
      CheckedRead(w, WithDots(m), paths, i);
    }
  }

  /** An empty path is not searched. */
  lemma RootSearched(w: World, m: Map)
    requires HasPath(m) && Touched(w, m) == [Root(m)] && Protected(w, Touched(w, m))
    ensures Root(m) != ""
  {
    hide UrlToPath, WayOf;
  }

  lemma StrictFound(w: World, paths: seq<string>)
    requires w.search == ((_: string) => Search([Node("A", true)], 12))
    requires paths != [] && forall i :: 0 <= i < |paths| ==> paths[i] != ""
    ensures Protected(w, paths) && FoundAll(w, paths) != []
            && Searched(w, paths[|paths| - 1]).found == [Node("A", true)]
  {
    assert Searched(w, paths[0]).validation == 12;
    assert Searched(w, paths[|paths| - 1]).found == [Node("A", true)];
    assert FoundAll(w, paths) == FoundAll(w, paths[..|paths| - 1]) + [Node("A", true)];
  }

  /** Such a request gets through to a strict server. */
  lemma StrictRead(text: string, m: Map, marshal: Json -> string, orders: seq<seq<string>>)
    requires UnguardedBy(text, m, FiltersOf(Strict(marshal, orders), m))
    ensures !ReadGuarded(Strict(marshal, orders), Request(text, Some(m)))
  {
    var w, request := Strict(marshal, orders), Request(text, Some(m));
    hide Served, Issued, ValidRequest, UrlToPath, Checked, Metadata, Finalize, FiltersOf, WayOf;
    AskedIssued(w, text, m);
    IssuedAsked(w, m);
    ScanWay(w, WithDots(m), Root(m), FiltersOf(w, m));
    WayPaths(Root(m), FiltersOf(w, m));
    var paths := Touched(w, m);
    StrictFound(w, paths);
    SetIsNoOther();
    AsksNoOther();
    WithDotsKeeps(m, "action");
    WithDotsKeeps(m, "origin");
    if !WayOf(Root(m), FiltersOf(w, m)).Capabilities? {
      InternalPasses(w, WithDots(m), paths);
    }
    hide Strict, Searched, FoundAll, PathsText, Folded, Levels, Touched, ScanFilters, WithDots;
    StrictAccepts(marshal, orders, m, PathsText(FoundAll(w, paths)), Folded(Levels(w, paths)));
  }

  lemma StrictAccepts(marshal: Json -> string, orders: seq<seq<string>>, m: Map, paths: string, level: int)
    requires HasAction(m)
    ensures !Accepted(Strict(marshal, orders), m, paths, level)
  {
  }

  /** Paths under a root hold a dot. */
  lemma {:induction false} WayPaths(root: string, filters: seq<Filter>)
    ensures var way := WayOf(root, filters);
            way.ByPaths? && way.paths.Some? ==> forall i :: 0 <= i < |way.paths.value| ==> way.paths.value[i] != ""
  {
    hide UrlToPath, ParseStrings, UnderRoot;
    if filters != [] {
      WayPaths(root, filters[1..]);
      var parameter := filters[0].parameter;
      assert |root + "." + UrlToPath(parameter)| > 0;
      if ParseStrings(parameter).Some? {
        UnderRootFilled(root, ParseStrings(parameter).value);
      }
    }
  }

  lemma UnderRootFilled(root: string, paths: seq<string>)
    ensures forall i :: 0 <= i < |UnderRoot(root, paths)| ==> UnderRoot(root, paths)[i] != ""
  {
    hide UrlToPath;
    forall i | 0 <= i < |paths| ensures UnderRoot(root, paths)[i] != "" {
      assert |UnderRoot(root, paths)[i]| == |root| + 1 + |UrlToPath(paths[i])|;
    }
  }

  /** For each request, whatever json.Marshal prints: on every server, and whatever order Go visits the filter's maps
      in, a get or subscribe request that touches a path protected for reading is forwarded only with an accepted
      token, exactly when it is not unguarded. */
  lemma ReadGuardedIff(text: string, m: Map, marshal: Json -> string)
    ensures (forall w: World :: w.marshal == marshal ==> ReadGuarded(w, Request(text, Some(m))))
            <==> !Unguarded(text, m, marshal)
  {
    hide ReadGuarded, UnguardedBy, MayUnpack, Unpacked;
    if Unguarded(text, m, marshal) {
      var fs :| MayUnpack(marshal, FilterValue(m), fs) && UnguardedBy(text, m, fs);
      var orders := ListOrders(m, marshal, fs);
      StrictRead(text, m, marshal, orders);
      assert Strict(marshal, orders).marshal == marshal;
    } else {
      forall w: World | w.marshal == marshal ensures ReadGuarded(w, Request(text, Some(m))) {
        UnpackedMay(w, FilterValue(m));
        FiltersAre(w, m);
        ReadIsGuarded(w, text, m);
      }
    }
  }

  lemma ListOrders(m: Map, marshal: Json -> string, fs: seq<Filter>) returns (orders: seq<seq<string>>)
    requires MayUnpack(marshal, FilterValue(m), fs)
    ensures FiltersOf(Strict(marshal, orders), m) == fs
  {
    hide VisitAll, IsOrder, MayBe;
    orders := OrdersFor(marshal, ItemsOf(FilterValue(m)), fs);
    UnpackedSo(Strict(marshal, orders), FilterValue(m), fs, orders);
    FiltersAre(Strict(marshal, orders), m);
  }

  // ---------------------------------------------------------------- requests that do not say they are internal

  lemma {:induction false} CapabilitiesLead(marshal: Json -> string, root: string, items: seq<Json>, fs: seq<Filter>)
    requires |fs| == |items| && forall i :: 0 <= i < |fs| ==> MayBe(marshal, items[i], fs[i])
    ensures WayOf(root, fs).Capabilities? ==> CapabilitiesFirst(items)
  {
    hide MaySet, KindOf, UrlToPath, ParseStrings;
    if fs != [] {
      CapabilitiesLead(marshal, root, items[1..], fs[1..]);
      CapabilitiesMay(marshal, items[0]);
      assert fs[0] == Filter(fs[0].kind, fs[0].parameter);
    }
  }

  lemma {:induction false} CapabilitiesReached(marshal: Json -> string, root: string, items: seq<Json>)
    returns (fs: seq<Filter>)
    requires CapabilitiesFirst(items)
    ensures |fs| == |items| && forall i :: 0 <= i < |fs| ==> MayBe(marshal, items[i], fs[i])
    ensures WayOf(root, fs).Capabilities?
  {
    hide MaySet, KindOf, UrlToPath, ParseStrings, VisitAll, KeysOf;
    if AsksCapabilities(items[0]) {
      CapabilitiesMay(marshal, items[0]);
      fs := seq(|items|, i requires 0 <= i < |items| =>
                if i == 0 then Filter("dynamic-metadata", "server_capabilities") else SomeFilter(marshal, items[i]));
    } else {
      var rest := CapabilitiesReached(marshal, root, items[1..]);
      var f := SomeFilter(marshal, items[0]);
      fs := [f] + rest;
      CapabilitiesMay(marshal, items[0]);
      assert f == Filter(f.kind, f.parameter);
      assert fs[1..] == rest;
    }
  }

  /** What remains of the condition for a request that does not say it is internal. */
  predicate AsksAround(text: string, m: Map) {
    && Asks(m) && ValidRequest(text, m["action"].text)
    && HasPath(m) && '*' !in m["path"].text && Root(m) != ""
    && CapabilitiesFirst(ItemsOf(FilterValue(m)))
  }

  /** Such a request is unguarded exactly when a server_capabilities filter stands in front of the first paths or
      static-metadata filter. */
  lemma OutsideUnguardedIff(text: string, m: Map, marshal: Json -> string)
    requires !Is(m, "origin", "internal")
    ensures Unguarded(text, m, marshal) <==> AsksAround(text, m)
  {
    hide ValidRequest, WayOf, MayBe, CapabilitiesFirst, UrlToPath, ItemsOf;
    var items := ItemsOf(FilterValue(m));
    if Unguarded(text, m, marshal) {
      var fs :| MayUnpack(marshal, FilterValue(m), fs) && UnguardedBy(text, m, fs);
      CapabilitiesLead(marshal, Root(m), items, fs);
    }
    if AsksAround(text, m) {
      var fs := CapabilitiesReached(marshal, Root(m), items);
      assert MayUnpack(marshal, FilterValue(m), fs) && UnguardedBy(text, m, fs);
    }
  }
}
