/** What becomes of a request with a path: what is searched, when it is refused, and what the service gets. */
module DispatcherForwards {
  import opened Text
  import opened AccessLevel
  import opened Json
  import opened Dispatcher
  import opened DispatcherFilters
  import opened DispatcherRuns
  import opened DispatcherGuards

  // ---------------------------------------------------------------- the paths that are searched

  /** The text with dots for its slashes, and without the first of them where it starts with one. */
  predicate IsPathOf(url: string, path: string) {
    var lead := if url != "" && (url[0] == '/' || url[0] == '.') then 1 else 0;
    |path| + lead == |url|
    && forall i :: 0 <= i < |path| ==> path[i] == if url[i + lead] == '/' then '.' else url[i + lead]
  }

  lemma PathOfUrl(url: string, path: string)
    ensures IsPathOf(url, path) <==> path == UrlToPath(url)
  {
    if IsPathOf(url, path) {
      assert |path| == |UrlToPath(url)| && forall i :: 0 <= i < |path| ==> path[i] == UrlToPath(url)[i];
    }
  }

  /** A path below the root. */
  predicate IsBelow(root: string, url: string, path: string) {
    |path| > |root| && path[..|root|] == root && path[|root|] == '.' && IsPathOf(url, path[|root| + 1..])
  }

  lemma BelowRoot(root: string, url: string, path: string)
    ensures IsBelow(root, url, path) <==> path == root + "." + UrlToPath(url)
  {
    hide UrlToPath, IsPathOf;
    var dotted := UrlToPath(url);
    var s := root + "." + dotted;
    PathOfUrl(url, dotted);
    assert s[..|root|] == root && s[|root|] == '.' && s[|root| + 1..] == dotted;
    if IsBelow(root, url, path) {
      PathOfUrl(url, path[|root| + 1..]);
      assert path == path[..|root|] + [path[|root|]] + path[|root| + 1..];
    }
  }

  /** A filter that ends the loop over the filters. */
  predicate Decides(f: Filter) {
    || f.kind == "paths" || f.kind == "static-metadata"
    || (f.kind == "dynamic-metadata" && f.parameter == "server_capabilities")
  }

  predicate First(filters: seq<Filter>, i: int) {
    0 <= i < |filters| && Decides(filters[i]) && forall k :: 0 <= k < i ==> !Decides(filters[k])
  }

  /** The paths that the parameter of a paths filter stands for. */
  predicate AskedBy(root: string, parameter: string, paths: seq<string>) {
    if '[' in parameter then
      match ParseStrings(parameter)
      case None => false
      case Some(urls) =>
        if urls == [] then paths == [root]
        else |paths| == |urls| && forall i :: 0 <= i < |urls| ==> IsBelow(root, urls[i], paths[i])
    else |paths| == 1 && IsBelow(root, parameter, paths[0])
  }

  /** The paths that are searched: those of the first paths filter, or the request's own. */
  ghost predicate Asked(root: string, filters: seq<Filter>, paths: seq<string>) {
    || (paths == [root] && forall i :: 0 <= i < |filters| ==> !Decides(filters[i]))
    || exists i :: First(filters, i) && filters[i].kind == "paths" && AskedBy(root, filters[i].parameter, paths)
  }

  lemma UnderRootIs(root: string, urls: seq<string>, paths: seq<string>)
    ensures |paths| == |urls| && (forall i :: 0 <= i < |urls| ==> IsBelow(root, urls[i], paths[i]))
            <==> paths == UnderRoot(root, urls)
  {
    hide IsBelow, UrlToPath;
    forall i | 0 <= i < |urls| && i < |paths|
      ensures IsBelow(root, urls[i], paths[i]) <==> paths[i] == root + "." + UrlToPath(urls[i])
    {
      BelowRoot(root, urls[i], paths[i]);
    }
    assert forall i :: 0 <= i < |urls| ==> UnderRoot(root, urls)[i] == root + "." + UrlToPath(urls[i]);
  }

  /** How the request goes on with a paths filter. */
  lemma AskedByWay(root: string, f: Filter, paths: seq<string>)
    requires f.kind == "paths" && AskedBy(root, f.parameter, paths)
    ensures WayOf(root, [f]).ByPaths? && WayOf(root, [f]).paths.Some?
    ensures var listed := WayOf(root, [f]).paths.value; paths == if listed == [] then [root] else listed
  {
    hide IsBelow, UrlToPath, UnderRoot;
    if '[' in f.parameter {
      var urls := ParseStrings(f.parameter).value;
      UnderRootIs(root, urls, paths);
      UnderRootIs(root, urls, UnderRoot(root, urls));
    } else {
      BelowRoot(root, f.parameter, paths[0]);
    }
  }

  lemma {:induction false} WayOfFirst(root: string, filters: seq<Filter>, i: int)
    requires First(filters, i)
    ensures WayOf(root, filters) == WayOf(root, [filters[i]])
  {
    hide UrlToPath, UnderRoot, ParseStrings;
    if i > 0 {
      assert !Decides(filters[0]);
      assert First(filters[1..], i - 1) by {
        assert forall k :: 0 <= k < i - 1 ==> filters[1..][k] == filters[k + 1];
      }
      WayOfFirst(root, filters[1..], i - 1);
    }
  }

  lemma {:induction false} WayOfNone(root: string, filters: seq<Filter>)
    requires forall i :: 0 <= i < |filters| ==> !Decides(filters[i])
    ensures WayOf(root, filters) == Plain
  {
    hide UrlToPath, UnderRoot, ParseStrings;
    if filters != [] {
      assert !Decides(filters[0]);
      WayOfNone(root, filters[1..]);
    }
  }

  lemma AskedTouched(w: World, m: Map, paths: seq<string>)
    requires HasPath(m) && Asked(Root(m), FiltersOf(w, m), paths)
    ensures paths == Touched(w, m) && paths != []
    ensures var way := WayOf(Root(m), FiltersOf(w, m)); way.Plain? || (way.ByPaths? && way.paths.Some?)
  {
    hide WayOf, FiltersOf, Decides, AskedBy, UrlToPath;
    var root, filters := Root(m), FiltersOf(w, m);
    hide Root;
    if forall i :: 0 <= i < |filters| ==> !Decides(filters[i]) {
      WayOfNone(root, filters);
    } else {
      var i :| First(filters, i) && filters[i].kind == "paths" && AskedBy(root, filters[i].parameter, paths);
      WayOfFirst(root, filters, i);
      AskedByWay(root, filters[i], paths);
    }
  }

  // ---------------------------------------------------------------- what is found

  /** The nodes are those of the searches, one after the other. */
  lemma {:induction false} FoundInOrder(w: World, paths: seq<string>, path: string)
    ensures FoundAll(w, [path]) == if path == "" then [] else w.search(path).found
    ensures FoundAll(w, paths + [path]) == FoundAll(w, paths) + FoundAll(w, [path]) && FoundAll(w, []) == []
  {
    assert [path][..0] == [] && [] + Searched(w, path).found == Searched(w, path).found;
    assert (paths + [path])[..|paths|] == paths;
  }

  /** The levels are those of the searches. */
  lemma LevelsAre(w: World, paths: seq<string>, i: nat)
    requires i < |paths|
    ensures |Levels(w, paths)| == |paths|
    ensures Levels(w, paths)[i] == if paths[i] == "" then -1 else w.search(paths[i]).validation
  {
  }

  // ---------------------------------------------------------------- the decision

  /** The request says it comes from inside, or touches nothing protected. */
  predicate Free(m: Map, level: int) {
    Is(m, "origin", "internal") || Access(level) == 0
  }

  /** The token server is asked: for a set request, or where reading is protected. */
  predicate Questioned(m: Map, level: int) {
    !Free(m, level) && (Is(m, "action", "set") || Access(level) == 2)
  }

  /** The number of the token error, 0 for none: 2 without a token, 1 if it is no string, or the token server's. */
  function TokenError(w: World, m: Map, paths: string, level: int): int
    requires HasAction(m)
  {
    if Free(m, level) then 0
    else if !Has(m, "authorization") then 2
    else if !Questioned(m, level) then 0
    else if !m["authorization"].Str? then 1
    else w.verify(m["authorization"].text, m["action"].text, paths, level).code
  }

  /** What is said of the found paths: the one path as it is, or a text that reads as the array of them in order. */
  predicate Tells(text: string, found: seq<Node>) {
    if |found| == 1 then text == found[0].path
    else
      (forall i :: 0 <= i < |found| ==> RawText(found[i].path)) ==>
        match Parse(text)
        case Some(Arr(items)) =>
          |items| == |found| && forall i :: 0 <= i < |found| ==> items[i] == Json.Str(found[i].path)
        case _ => false
  }

  lemma PathsTell(found: seq<Node>)
    ensures Tells(PathsText(found), found)
  {
    hide Parse, Print, RawText;
    if |found| != 1 && forall i :: 0 <= i < |found| ==> RawText(found[i].path) {
      PathsRead(found);
    }
  }

  /** What the token server gives with the token, or the request's own field. */
  predicate Granted(fields: Map, m: Map, key: string, given: string) {
    Get(fields, key) == if given == "" then Get(m, key) else Some(Value.Str(given))
  }

  /** The message for the service: the found paths, what the token server gives, and the request's other fields without
      its origin. */
  ghost predicate Carries(fields: Map, m: Map, text: string, v: Verdict) {
    && Get(fields, "path") == Some(Value.Str(text))
    && Granted(fields, m, "handle", v.handle) && Granted(fields, m, "gatingId", v.gatingId)
    && forall key :: key != "path" && key != "handle" && key != "gatingId" ==>
         Get(fields, key) == if key == "origin" then None else Get(m, key)
  }

  /** The answer of the token server, if it is asked. */
  function Answer(w: World, m: Map, paths: string, level: int): Verdict
    requires HasAction(m)
  {
    if Questioned(m, level) && Has(m, "authorization") && m["authorization"].Str? then
      w.verify(m["authorization"].text, m["action"].text, paths, level)
    else Verdict(0, "", "")
  }

  lemma HandleKeys()
    ensures "handle" != "path" && "handle" != "gatingId" && "handle" != "origin" && "gatingId" != "path"
    ensures "gatingId" != "origin" && "path" != "origin"
  {
    assert "handle"[0] == 'h' && "path"[0] == 'p' && "gatingId"[0] == 'g' && "origin"[0] == 'o';
  }

  lemma ForwardedCarries(m: Map, text: string, v: Verdict)
    ensures Forwarded(m, text, v).Finalized? && Carries(Forwarded(m, text, v).fields, m, text, v)
  {
    HandleKeys();
  }

  /** The outcome for these search paths, where this text is said of what is found. */
  ghost predicate OutcomeWith(r: Option<Outcome>, w: World, m: Map, paths: seq<string>, text: string)
    requires HasAction(m)
  {
    var found, level := FoundAll(w, paths), Folded(Levels(w, paths));
    if found == [] then r == Some(Refused(6, ""))
    else if Is(m, "action", "set") && !found[0].actuator then r == Some(Refused(1, ""))
    else Decision(r, w, m, text, level)
  }

  /** The outcome for these search paths. */
  ghost predicate Outcomes(r: Option<Outcome>, w: World, m: Map, paths: seq<string>)
    requires HasAction(m)
  {
    exists text :: Tells(text, FoundAll(w, paths)) && OutcomeWith(r, w, m, paths, text)
  }

  /** A token error, or the message. */
  ghost predicate Decision(r: Option<Outcome>, w: World, m: Map, text: string, level: int)
    requires HasAction(m)
  {
    var error := TokenError(w, m, text, level);
    if error != 0 then r == Some(Refused(3, TokenMessage(error)))
    else
      && r.Some? && r.value.Sent? && r.value.output.ToService? && r.value.output.message.Finalized?
      && Carries(r.value.output.message.fields, m, text, Answer(w, m, text, level))
  }

  lemma DecidedIs(w: World, m: Map, text: string, levels: seq<int>)
    requires HasAction(m) && levels != []
    ensures var level := if Is(m, "origin", "internal") then 0 else Folded(levels);
            Decision(Some(Decided(w, m, text, level)), w, m, text, Folded(levels))
  {
    OneOfThree(levels);
    FoldedIsHighest(levels);
    var level := Folded(levels);
    hide Folded, TokenMessage, Forwarded, Carries;
    ForwardedCarries(m, text, Verdict(0, "", ""));
    ForwardedCarries(m, text, Answer(w, m, text, level));
  }

  lemma CheckedIs(w: World, m: Map, paths: seq<string>)
    requires HasAction(m) && paths != [] && (Is(m, "action", "set") ==> |paths| == 1)
    ensures OutcomeWith(Checked(w, m, paths), w, m, paths, PathsText(FoundAll(w, paths)))
  {
    DecidedIs(w, m, PathsText(FoundAll(w, paths)), Levels(w, paths));
    if Is(m, "action", "set") {
      assert paths == [paths[0]];
      SingleSearch(w, m, paths[0]);
    }
    hide FoundAll, Levels, Folded, PathsText, Decided, Decision, Searched;
  }

  lemma DotsKeepOthers(m: Map)
    requires HasPath(m)
    ensures HasPath(WithDots(m)) && forall key :: key != "path" ==> Get(WithDots(m), key) == Get(m, key)
  {
    forall key | key != "path" ensures Get(WithDots(m), key) == Get(m, key) {
      WithDotsKeeps(m, key);
    }
    hide UrlToPath;
  }

  lemma SameDecision(r: Option<Outcome>, w: World, m: Map, dotted: Map, text: string, level: int)
    requires HasAction(m) && HasAction(dotted) && Decision(r, w, dotted, text, level)
    requires forall key :: key != "path" ==> Get(dotted, key) == Get(m, key)
    ensures Decision(r, w, m, text, level)
  {
    SetIsNoOther();
    HandleKeys();
    assert Get(dotted, "origin") == Get(m, "origin") && Get(dotted, "action") == Get(m, "action");
    assert Get(dotted, "authorization") == Get(m, "authorization");
    hide TokenMessage;
  }

  lemma DotsChangeNothing(r: Option<Outcome>, w: World, m: Map, paths: seq<string>, text: string)
    requires HasAction(m) && HasPath(m) && OutcomeWith(r, w, WithDots(m), paths, text)
    ensures OutcomeWith(r, w, m, paths, text)
  {
    DotsKeepOthers(m);
    SetIsNoOther();
    var found, level := FoundAll(w, paths), Folded(Levels(w, paths));
    hide FoundAll, Levels, Folded, WithDots, Decision;
    assert Get(WithDots(m), "action") == Get(m, "action");
    if found != [] && !(Is(m, "action", "set") && !found[0].actuator) {
      SameDecision(r, w, m, WithDots(m), text, level);
    }
  }

  /** The same with the text that is put together from the paths. */
  lemma DispatchedWith(w: World, text: string, m: Map, root: string, paths: seq<string>)
    requires Is(m, "action", "get") || Is(m, "action", "subscribe") || Is(m, "action", "set")
    requires ValidRequest(text, m["action"].text)
    requires HasPath(m) && '*' !in m["path"].text && IsPathOf(m["path"].text, root)
    requires if Is(m, "action", "set") then !Has(m, "filter") && paths == [root]
             else Asked(root, FiltersOf(w, m), paths)
    ensures OutcomeWith(Served(w, Request(text, Some(m))), w, m, paths, PathsText(FoundAll(w, paths)))
  {
    PathOfUrl(m["path"].text, root);
    SetIsNoOther();
    WithDotsKeeps(m, "action");
    hide IsPathOf, UrlToPath, Checked, OutcomeWith, ValidRequest, FiltersOf, Asked, PathsText, FoundAll;
    if Is(m, "action", "set") {
      SetSearchesOnce(w, Request(text, Some(m)), m);
    } else {
      AskedTouched(w, m, paths);
      AskedIssued(w, text, m);
      IssuedAsked(w, m);
      ScanWay(w, WithDots(m), Root(m), FiltersOf(w, m));
    }
    hide Served, Issued, ScanFilters, Touched, WayOf;
    CheckedIs(w, WithDots(m), paths);
    DotsChangeNothing(Served(w, Request(text, Some(m))), w, m, paths, PathsText(FoundAll(w, paths)));
  }

  /** What becomes of a get, set or subscribe request that asks about paths: it is refused if nothing is found, if a set
      request finds no actuator, or for its token; else the service gets the found paths with the request's fields. */
  lemma Dispatched(w: World, text: string, m: Map, root: string, paths: seq<string>)
    requires Is(m, "action", "get") || Is(m, "action", "subscribe") || Is(m, "action", "set")
    requires ValidRequest(text, m["action"].text)
    requires HasPath(m) && '*' !in m["path"].text && IsPathOf(m["path"].text, root)
    requires if Is(m, "action", "set") then !Has(m, "filter") && paths == [root]
             else Asked(root, FiltersOf(w, m), paths)
    ensures Outcomes(Served(w, Request(text, Some(m))), w, m, paths)
  {
    DispatchedWith(w, text, m, root, paths);
    PathsTell(FoundAll(w, paths));
    hide Served, ValidRequest, IsPathOf, Asked, FiltersOf, FoundAll, OutcomeWith, Tells, PathsText;
  }

  // ---------------------------------------------------------------- requests that are not searched

  /** The requests that end before any filter is looked at. None stands for a panic. */
  lemma EndedEarly(w: World, text: string, decoded: Option<Map>)
    ensures var r := Served(w, Request(text, decoded));
            if decoded == None then r == Some(Refused(0, ""))
            else
              var m := decoded.value;
              if !Has(m, "action") then r == Some(Refused(1, ""))
              else if !m["action"].Str? then r == None
              else if !ValidRequest(text, m["action"].text) then r == Some(Refused(1, ""))
              else if Has(m, "path") && !m["path"].Str? then r == None
              else if Has(m, "path") && '*' in m["path"].text then r == Some(Refused(1, ""))
              else if Is(m, "action", "set") && Has(m, "filter") then r == Some(Refused(0, ""))
              else if Is(m, "action", "unsubscribe") then r == Some(Sent(ToService(Raw(text))))
              else if (Is(m, "action", "get") || Is(m, "action", "set") || Is(m, "action", "subscribe")) && !HasPath(m)
                then r == None
              else true
  {
    hide ValidRequest, UrlToPath, Checked, ScanFilters, FiltersOf;
    SetIsNoOther();
    AsksNoOther();
    if decoded.Some? && HasAction(decoded.value) {
      var m := decoded.value;
      if Has(m, "path") ==> m["path"].Str? {
        WithDotsKeeps(m, "action");
        WithDotsKeeps(m, "filter");
      }
    }
  }

  /** A message with the request's fields, its path in dot form and without its origin. */
  ghost predicate Passed(message: Message, m: Map) {
    && message.Finalized?
    && (forall key :: key != "path" ==> Get(message.fields, key) == if key == "origin" then None else Get(m, key))
    && (HasPath(m) ==>
          "path" in message.fields && message.fields["path"].Str?
          && IsPathOf(m["path"].text, message.fields["path"].text))
  }

  lemma FinalizedPasses(m: Map)
    requires Has(m, "path") ==> m["path"].Str?
    ensures Passed(Finalize(WithDots(m)), m)
  {
    HandleKeys();
    if HasPath(m) {
      DotsKeepOthers(m);
      PathOfUrl(m["path"].text, UrlToPath(m["path"].text));
    }
    hide UrlToPath, IsPathOf;
  }

  /** Where a filter decides that is no paths filter: metadata go back to the client, under the token's context; a
      request for the server's capabilities goes to the service; and paths that cannot be read are refused. */
  lemma FilterDecides(w: World, text: string, m: Map, i: int)
    requires Is(m, "action", "get") || Is(m, "action", "subscribe")
    requires ValidRequest(text, m["action"].text) && HasPath(m) && '*' !in m["path"].text
    requires First(FiltersOf(w, m), i)
    ensures var r, f := Served(w, Request(text, Some(m))), FiltersOf(w, m)[i];
            && (f.kind == "paths" && '[' in f.parameter && ParseStrings(f.parameter) == None ==>
                  r == Some(Refused(0, "")))
            && (f.kind == "static-metadata" ==>
                  exists root :: IsPathOf(m["path"].text, root) && ShowsMetadata(r, w, m, root))
            && (f.kind == "dynamic-metadata" ==>
                  r.Some? && r.value.Sent? && r.value.output.ToService? && Passed(r.value.output.message, m))
  {
    var root, filters := Root(m), FiltersOf(w, m);
    PathOfUrl(m["path"].text, root);
    hide IsPathOf, UrlToPath, ValidRequest, FiltersOf, Checked, Passed;
    KindsDiffer();
    AskedIssued(w, text, m);
    IssuedAsked(w, m);
    ScanWay(w, WithDots(m), root, filters);
    WayOfFirst(root, filters, i);
    FinalizedPasses(m);
    hide Served, Issued, ScanFilters, Touched, Metadata, Root;
    if filters[i].kind == "static-metadata" {
      MetadataShown(w, m, root);
    }
  }

  lemma KindsDiffer()
    ensures "paths" != "static-metadata" && "paths" != "dynamic-metadata" && "static-metadata" != "dynamic-metadata"
  {
    assert "paths"[0] == 'p' && "static-metadata"[0] == 's' && "dynamic-metadata"[0] == 'd';
  }

  /** The metadata of the tree under the root go back with the request's fields and the time. */
  ghost predicate ShowsMetadata(r: Option<Outcome>, w: World, m: Map, root: string) {
    var context := if !Has(m, "authorization") then Some("")
                   else if m["authorization"].Str? then w.tokenContext(m["authorization"].text) else None;
    if context == None then r == None
    else
      var tree := w.metadata(root, if context.value == "" then "Undefined+Undefined+Undefined" else context.value);
      if tree == "" then r == Some(Refused(0, ""))
      else
        && r.Some? && r.value.Sent? && r.value.output.ToBackend? && r.value.output.message.WithMetadata?
        && r.value.output.message.metadata == tree
        && var fields := r.value.output.message.fields;
           forall key :: Get(fields, key)
                         == if key == "path" || key == "filter" || key == "origin" then None
                            else if key == "ts" then Some(Value.Str(w.now)) else Get(m, key)
  }

  lemma MetadataShown(w: World, m: Map, root: string)
    requires HasPath(m)
    ensures ShowsMetadata(Metadata(w, WithDots(m), root), w, m, root)
  {
    DotsKeepOthers(m);
    hide UrlToPath, WithDots;
    var dotted := WithDots(m);
    assert "ts"[0] == 't' && "path"[0] == 'p' && "filter"[0] == 'f' && "origin"[0] == 'o' && "authorization"[0] == 'a';
    assert Get(dotted, "authorization") == Get(m, "authorization");
  }

  // ---------------------------------------------------------------- requests with a paths filter

  /** A filter as a client writes it. */
  function WrittenFilter(kind: string, parameter: Json): Value {
    Other(Obj([Member("type", Json.Str(kind)), Member("parameter", parameter)]))
  }

  lemma WrittenKeys(kind: string, parameter: Json)
    ensures var ms := [Member("type", Json.Str(kind)), Member("parameter", parameter)];
            Lookup(ms, "type") == Some(Json.Str(kind)) && Lookup(ms, "parameter") == Some(parameter)
            && ms[0].key == "type" && ms[1].key == "parameter"
  {
    var ms := [Member("type", Json.Str(kind)), Member("parameter", parameter)];
    assert "type"[0] != "parameter"[0] && ms[..1] == [ms[0]] && ms[..1][..0] == [];
    assert Lookup(ms[..1], "type") == Some(Json.Str(kind));
  }

  /** Whatever order Go visits the two entries in, this is the filter. */
  lemma WrittenFilterRead(w: World, m: Map, kind: string, parameter: Json)
    requires "filter" in m && m["filter"] == WrittenFilter(kind, parameter)
    ensures FiltersOf(w, m)
         == [Filter(kind, match parameter
                          case Str(text) => text
                          case Arr(_) => "[" + w.marshal(parameter)
                          case Obj(_) => "{" + w.marshal(parameter)
                          case Lit(_) => "")]
  {
    var ms := [Member("type", Json.Str(kind)), Member("parameter", parameter)];
    WrittenKeys(kind, parameter);
    UnpackedMay(w, m["filter"]);
    hide Lookup, Unpacked;
    var fs := FiltersOf(w, m);
    assert fs == Unpacked(w, m["filter"]) && |fs| == 1 && MayBe(w.marshal, Obj(ms), fs[0]);
    assert "type"[0] != "parameter"[0];
    assert SetBy(w.marshal, ms, ms[0].key) == None;
  }

  function Strings(texts: seq<string>): Json {
    Arr(seq(|texts|, i requires 0 <= i < |texts| => Json.Str(texts[i])))
  }

  lemma StringsParse(urls: seq<string>)
    requires urls != [] && forall i :: 0 <= i < |urls| ==> ReadableText(urls[i], Full)
    ensures var text := Print(Strings(urls), COMPACT);
            text != "" && text[0] == '[' && '[' in text && ParseStrings(text) == Some(urls)
  {
    var j := Strings(urls);
    ParseOfPrint(j, COMPACT, "");
    assert Print(j, COMPACT) + "" == Print(j, COMPACT);
    assert Print(j, COMPACT)[0] == '[';
    hide Print, ParseValue, ReadableText;
    assert StringsOf(j).value == urls;
  }

  /** A get or subscribe request with a paths filter asks about the paths below its own that the filter lists. */
  lemma PathsFilter(w: World, text: string, m: Map, root: string, urls: seq<string>, paths: seq<string>)
    requires Is(m, "action", "get") || Is(m, "action", "subscribe")
    requires ValidRequest(text, m["action"].text)
    requires HasPath(m) && '*' !in m["path"].text && IsPathOf(m["path"].text, root)
    requires "filter" in m
    requires || (|urls| == 1 && m["filter"] == WrittenFilter("paths", Json.Str(urls[0])) && '[' !in urls[0])
             || (urls != [] && m["filter"] == WrittenFilter("paths", Strings(urls))
                 && "[" + w.marshal(Strings(urls)) == Print(Strings(urls), COMPACT)
                 && forall i :: 0 <= i < |urls| ==> ReadableText(urls[i], Full))
    requires |paths| == |urls| && forall i :: 0 <= i < |urls| ==> IsBelow(root, urls[i], paths[i])
    ensures Outcomes(Served(w, Request(text, Some(m))), w, m, paths)
  {
    hide IsPathOf, IsBelow, Outcomes, Served, ValidRequest, FiltersOf, Print, ReadableText, ParseStrings;
    if m["filter"] == WrittenFilter("paths", Strings(urls)) {
      WrittenFilterRead(w, m, "paths", Strings(urls));
      StringsParse(urls);
    } else {
      WrittenFilterRead(w, m, "paths", Json.Str(urls[0]));
    }
    AsksNoOther();
    assert First(FiltersOf(w, m), 0);
    Dispatched(w, text, m, root, paths);
  }

  // ---------------------------------------------------------------- the words that a request must hold

  ghost predicate Holds(text: string, word: string) {
    exists front: string, back: string :: text == front + (word + back)
  }

  lemma ContainsIff(text: string, word: string)
    ensures Contains(text, word) <==> Holds(text, word)
  {
    if Contains(text, word) {
      var i := FindFrom(text, word, 0).value;
      assert text == text[..i] + (word + text[i + |word|..]);
    } else {
      FindNone(text, word, 0);
      forall front, back ensures text != front + (word + back) {
        if text == front + (word + back) {
          Inside(front, word, back);
        }
      }
    }
  }

  lemma Inside(front: string, word: string, back: string)
    ensures OccursAt(front + (word + back), word, |front|)
  {
    var text := front + (word + back);
    assert text[|front|..] == word + back;
    assert text[|front|..|front| + |word|] == word;
  }

  /** The words of a filter that a get request may have. */
  ghost predicate HoldsGetFilter(text: string) {
    && Holds(text, "parameter")
    && (Holds(text, "paths") || Holds(text, "history") || Holds(text, "static-metadata")
        || Holds(text, "dynamic-metadata"))
  }

  ghost predicate HoldsThree(text: string, a: string, b: string, c: string) {
    Holds(text, a) && Holds(text, b) && Holds(text, c)
  }

  /** Those that a subscribe request may have as well. */
  ghost predicate HoldsSubscribeFilter(text: string) {
    && Holds(text, "parameter")
    && (|| (Holds(text, "timebased") && Holds(text, "period"))
        || HoldsThree(text, "range", "logic-op", "boundary")
        || HoldsThree(text, "change", "logic-op", "diff")
        || HoldsThree(text, "curvelog", "maxerr", "bufsize"))
  }

  lemma GetFilterIff(text: string)
    ensures ValidGetFilter(text) <==> HoldsGetFilter(text)
  {
    hide Contains, Holds;
    ContainsIff(text, "parameter");
    ContainsIff(text, "paths");
    ContainsIff(text, "history");
    ContainsIff(text, "static-metadata");
    ContainsIff(text, "dynamic-metadata");
  }

  lemma SubscribeFilterIff(text: string)
    ensures ValidSubscribeFilter(text) <==> HoldsGetFilter(text) || HoldsSubscribeFilter(text)
  {
    GetFilterIff(text);
    hide Contains, Holds, ValidGetFilter, HoldsGetFilter;
    ContainsIff(text, "parameter");
    ContainsIff(text, "timebased");
    ContainsIff(text, "period");
    ContainsIff(text, "range");
    ContainsIff(text, "logic-op");
    ContainsIff(text, "boundary");
    ContainsIff(text, "change");
    ContainsIff(text, "diff");
    ContainsIff(text, "curvelog");
    ContainsIff(text, "maxerr");
    ContainsIff(text, "bufsize");
  }

  /** Which requests are valid is a matter of words anywhere in their text. */
  lemma ValidIff(text: string)
    ensures ValidRequest(text, "get") <==> Holds(text, "path") && (Holds(text, "filter") ==> HoldsGetFilter(text))
    ensures ValidRequest(text, "set") <==> Holds(text, "path") && Holds(text, "value")
    ensures ValidRequest(text, "subscribe")
            <==> Holds(text, "path") && (Holds(text, "filter") ==> HoldsGetFilter(text) || HoldsSubscribeFilter(text))
    ensures ValidRequest(text, "unsubscribe") <==> Holds(text, "subscriptionId")
    ensures ValidRequest(text, "internal-killsubscriptions") && ValidRequest(text, "internal-cancelsubscription")
    ensures forall action :: ValidRequest(text, action) ==>
              action in {"get", "set", "subscribe", "unsubscribe", "internal-killsubscriptions",
                         "internal-cancelsubscription"}
  {
    GetFilterIff(text);
    SubscribeFilterIff(text);
    hide Contains, Holds, ValidGetFilter, ValidSubscribeFilter, HoldsGetFilter, HoldsSubscribeFilter;
    ContainsIff(text, "path");
    ContainsIff(text, "filter");
    ContainsIff(text, "value");
    ContainsIff(text, "subscriptionId");
    SetIsNoOther();
    AsksNoOther();
  }

  // ---------------------------------------------------------------- two error replies written out

  /** Without a token a request for something protected is refused as such. */
  lemma NoToken(w: World, text: string, m: Map, root: string, paths: seq<string>)
    requires Is(m, "action", "get") || Is(m, "action", "subscribe") || Is(m, "action", "set")
    requires ValidRequest(text, m["action"].text)
    requires HasPath(m) && '*' !in m["path"].text && IsPathOf(m["path"].text, root)
    requires if Is(m, "action", "set") then !Has(m, "filter") && paths == [root]
             else Asked(root, FiltersOf(w, m), paths)
    requires FoundAll(w, paths) != [] && (Is(m, "action", "set") ==> FoundAll(w, paths)[0].actuator)
    requires !Is(m, "origin", "internal") && !Has(m, "authorization") && Access(Folded(Levels(w, paths))) > 0
    ensures Served(w, Request(text, Some(m))) == Some(Refused(3, "Access Token not found. "))
  {
    hide Served, ValidRequest, IsPathOf, Asked, FiltersOf, FoundAll, Folded, Levels, Access, Tells;
    Dispatched(w, text, m, root, paths);
    hide Carries;
  }

  /** What is said of the token server's number. */
  predicate Says(code: int, message: string) {
    || (code == 1 && message == "Invalid Access Token. ")
    || (code == 2 && message == "Access Token not found. ")
    || (code == 5 && message == "Invalid Access Token Signature. ")
    || (code == 6 && message == "Invalid Access Token Signature Algorithm. ")
    || (code == 10 && message == "Invalid iat claim. Invalid time format. ")
    || (code == 11 && message == "Invalid iat claim. Future time. ")
    || (code == 15 && message == "Invalid exp claim. Invalid time format. ")
    || (code == 16 && message == "Invalid exp claim. Token Expired. ")
    || (code == 20 && message == "Invalid AUD. ")
    || (code == 21 && message == "Invalid Context. ")
    || (code == 30 && message == "Invalid Token: token revoked. ")
    || (code in {40, 41, 42} && message == "Internal error. ")
    || (code == 60 && message == "Permission denied. Purpose does not match signals requested. ")
    || (code == 61 && message == "Permission denied. Read only access mode trying to write. ")
    || (code !in {1, 2, 5, 6, 10, 11, 15, 16, 20, 21, 30, 40, 41, 42, 60, 61} && message == "Unknown error. ")
  }

  lemma SaysIs(code: int, message: string)
    requires Says(code, message)
    ensures message == TokenMessage(code)
  {
  }

  /** A request whose token the token server does not accept. */
  lemma BadToken(w: World, text: string, m: Map, root: string, paths: seq<string>, code: int, message: string)
    requires Is(m, "action", "get") || Is(m, "action", "subscribe") || Is(m, "action", "set")
    requires ValidRequest(text, m["action"].text)
    requires HasPath(m) && '*' !in m["path"].text && IsPathOf(m["path"].text, root)
    requires if Is(m, "action", "set") then !Has(m, "filter") && paths == [root]
             else Asked(root, FiltersOf(w, m), paths)
    requires FoundAll(w, paths) != [] && (Is(m, "action", "set") ==> FoundAll(w, paths)[0].actuator)
    requires Questioned(m, Folded(Levels(w, paths))) && Has(m, "authorization") && m["authorization"].Str?
    requires forall told :: Tells(told, FoundAll(w, paths)) ==>
               w.verify(m["authorization"].text, m["action"].text, told, Folded(Levels(w, paths))).code == code
    requires code != 0 && Says(code, message)
    ensures Served(w, Request(text, Some(m))) == Some(Refused(3, message))
  {
    hide Served, ValidRequest, IsPathOf, Asked, FiltersOf, FoundAll, Folded, Levels, Access, Tells;
    Dispatched(w, text, m, root, paths);
    SaysIs(code, message);
    hide Carries, Says, TokenMessage;
  }

  /** The error reply of a fresh server to a text that it cannot decode. */
  lemma FirstReply(w: World, text: string, tD: nat, sD: nat)
    ensures var reply := Reply(w, Request(text, None), tD, sD, INITIAL);
            && reply.Some? && reply.value.0.channel == Backend(tD) && reply.value.0.message.Finalized?
            && var fields := reply.value.0.message.fields;
               && Get(fields, "RouterId") == Some(Other(Lit("0")))
               && Get(fields, "action") == Some(Value.Str("unknown"))
               && Get(fields, "error") == Some(Failure(0, "")) && Get(fields, "ts") == Some(Value.Str(w.now))
               && Get(fields, "requestId") == None && Get(fields, "subscriptionId") == None
  {
    InitialFields();
    ErrorFields(INITIAL, map[], 0, "", w.now);
    KeysDiffer();
    hide ErrorResponse, INITIAL;
  }

  lemma InitialFields()
    ensures Get(INITIAL, "RouterId") == Some(Other(Lit("0"))) && Get(INITIAL, "action") == Some(Value.Str("unknown"))
    ensures Get(INITIAL, "subscriptionId") == None
  {
    KeysDiffer();
  }
}
