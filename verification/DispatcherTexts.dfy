/** Requests as the texts that clients send: through the transport manager, the decoder and the dispatcher. */
module DispatcherTexts {
  import opened Text
  import opened Json
  import opened Routing
  import opened Dispatcher
  import opened DispatcherFilters
  import opened DispatcherRuns
  import opened DispatcherGuards

  // ---------------------------------------------------------------- what the dispatcher decodes

  /** The members of the object that a client's text starts with; None if it does not start with a nonempty object. */
  function ClientMembers(message: string): Option<seq<Member>> {
    var t := Skip(message);
    if t == "" || t[0] != '{' then None
    else match ParseMembers(t[1..]) case None => None case Some((ms, _)) => Some(ms)
  }

  /** With those that the manager puts in front. */
  function Routed(ms: seq<Member>, mgrId: int, clientId: int): seq<Member> {
    [Member("RouterId", Json.Str(RouterId(mgrId, clientId))), Member("origin", Json.Str("external"))] + ms
  }

  /** The request of a client that sends this text. */
  function Sent(message: string, mgrId: int, clientId: int): Request {
    Received(AddRouting(message, mgrId, clientId))
  }

  lemma {:induction false} DecodedIs(ms: seq<Member>, key: string)
    ensures Get(DecodedMap(ms), key)
         == match Lookup(ms, key) case None => None case Some(j) => Some(ToValue(j))
  {
    if ms != [] {
      DecodedIs(ms[..|ms| - 1], key);
    }
  }

  /** A string member in front of other members. */
  lemma FirstMember(key: string, text: string, rest: string)
    requires RawText(key) && RawText(text)
    ensures ParseMembers("\"" + (key + ("\":\"" + (text + ("\"" + ("," + (" " + rest)))))))
         == Cons(Member(key, Json.Str(text)), ParseMembers(rest))
  {
    hide *;
    var after := "," + (" " + rest);
    RawReads(key, text, after);
    QuoteIsNoSpace();
    MemberStep(key, UNESCAPED, Json.Str(text), Print(Json.Str(text), UNESCAPED), after);
    SkipInMembers(" ", rest);
    assert after[1..] == " " + rest;
    OpenRaw(key, text, after);
  }

  lemma OpenRaw(key: string, text: string, after: string)
    ensures "\"" + (key + "\"" + (":" + ("\"" + text + "\"" + after)))
            == "\"" + (key + ("\":\"" + (text + ("\"" + after))))
  {
  }

  lemma RawReads(key: string, text: string, after: string)
    requires RawText(key) && RawText(text)
    ensures ReadableText(key, UNESCAPED.escape) && Shown(key, UNESCAPED) == key
    ensures Print(Json.Str(text), UNESCAPED) == "\"" + text + "\""
    ensures ParseValue(Print(Json.Str(text), UNESCAPED) + after) == Some((Json.Str(text), after))
    ensures AllSpaces(" ")
  {
    ValueRoundTrip(Json.Str(text), UNESCAPED, after);
    hide ParseValue;
  }

  lemma IdRaw(mgrId: int, clientId: int)
    ensures RawText(RouterId(mgrId, clientId)) && RawText("RouterId") && RawText("origin") && RawText("external")
  {
    DigitsRaw(mgrId);
    DigitsRaw(clientId);
    LettersRaw("RouterId");
    LettersRaw("origin");
    LettersRaw("external");
    hide Itoa, RawText;
    BothRaw(Itoa(mgrId), "?" + Itoa(clientId));
    MarkRaw();
    BothRaw("?", Itoa(clientId));
  }

  lemma DigitsRaw(n: int)
    ensures RawText(Itoa(n))
  {
  }

  lemma MarkRaw()
    ensures RawText("?")
  {
  }

  lemma BothRaw(a: string, b: string)
    ensures RawText(a) && RawText(b) ==> RawText(a + b)
  {
  }

  /** The manager's members, in front of the client's text behind its first brace. */
  function OriginText(body: string): string {
    "\"" + ("origin" + ("\":\"" + ("external" + ("\"" + ("," + (" " + body))))))
  }

  function RoutedText(id: string, body: string): string {
    "\"" + ("RouterId" + ("\":\"" + (id + ("\"" + ("," + (" " + OriginText(body)))))))
  }

  lemma OriginParts(body: string)
    ensures ORIGIN + body == " " + OriginText(body)
  {
  }

  lemma PropertyParts(mgrId: int, clientId: int, more: string)
    ensures Property(mgrId, clientId) + ("," + more)
         == "\"" + ("RouterId" + ("\":\"" + (RouterId(mgrId, clientId) + ("\"" + ("," + more)))))
  {
    PropertyIs(mgrId, clientId, "," + more);
    hide RouterId;
  }

  /** What the manager makes of a text whose first brace stands behind `pre`. */
  lemma RoutedParts(pre: string, body: string, mgrId: int, clientId: int)
    requires '{' !in pre
    ensures AddRouting(pre + ("{" + body), mgrId, clientId) == pre + ("{" + RoutedText(RouterId(mgrId, clientId), body))
  {
    hide RouterId, ORIGIN, IndexOf, Property, OriginText;
    var message := pre + (['{'] + body);
    IndexBehind(pre, '{', body);
    assert message[..|pre|] == pre && message[|pre| + 1..] == body;
    OriginParts(body);
    PropertyParts(mgrId, clientId, " " + OriginText(body));
  }

  lemma SkipSplit(s: string) returns (pre: string)
    ensures s == pre + Skip(s) && AllSpaces(pre) && '{' !in pre
  {
    if s != "" && IsSpace(s[0]) {
      var rest := SkipSplit(s[1..]);
      pre := [s[0]] + rest;
      assert s == [s[0]] + s[1..];
    } else {
      pre := "";
    }
  }

  /** The dispatcher decodes the manager's members and the client's behind them, if there are any. */
  lemma ObjectDecoded(pre: string, body: string, mgrId: int, clientId: int)
    requires AllSpaces(pre) && '{' !in pre
    ensures Sent(pre + ("{" + body), mgrId, clientId).decoded
         == match ParseMembers(body)
            case None => None
            case Some((ms, _)) => Some(DecodedMap(Routed(ms, mgrId, clientId)))
  {
    var id := RouterId(mgrId, clientId);
    hide *;
    RoutedParts(pre, body, mgrId, clientId);
    IdRaw(mgrId, clientId);
    MembersRouted(mgrId, clientId, body);
    var text := RoutedText(id, body);
    RoutedStarts(id, body);
    BraceParsed(text);
    SkippedValue(pre, "{" + text);
    SentIs(pre + ("{" + body), mgrId, clientId);
    DecodedText(pre + ("{" + text), text);
    ConsTwice(mgrId, clientId, ParseMembers(body));
  }

  lemma RoutedStarts(id: string, body: string)
    ensures RoutedText(id, body) != "" && RoutedText(id, body)[0] == QUOTE
  {
  }

  lemma MembersRouted(mgrId: int, clientId: int, body: string)
    ensures ParseMembers(RoutedText(RouterId(mgrId, clientId), body))
         == Cons(Member("RouterId", Json.Str(RouterId(mgrId, clientId))),
                 Cons(Member("origin", Json.Str("external")), ParseMembers(body)))
  {
    hide ParseMembers, RouterId, RawText;
    IdRaw(mgrId, clientId);
    FirstMember("RouterId", RouterId(mgrId, clientId), OriginText(body));
    FirstMember("origin", "external", body);
  }

  lemma ConsTwice(mgrId: int, clientId: int, o: Option<(seq<Member>, string)>)
    ensures Cons(Member("RouterId", Json.Str(RouterId(mgrId, clientId))),
                 Cons(Member("origin", Json.Str("external")), o))
         == match o case None => None case Some((ms, rest)) => Some((Routed(ms, mgrId, clientId), rest))
  {
    hide RouterId;
    var a, b := Member("RouterId", Json.Str(RouterId(mgrId, clientId))), Member("origin", Json.Str("external"));
    assert o.Some? ==> [a] + ([b] + o.value.0) == [a, b] + o.value.0;
  }

  lemma SkippedValue(pre: string, s: string)
    requires AllSpaces(pre)
    ensures ParseValue(pre + s) == ParseValue(s)
  {
    SkipSpaces(pre, s);
  }

  lemma DecodedText(text: string, members: string)
    requires ParseValue(text)
          == match ParseMembers(members) case None => None case Some((ms, rest)) => Some((Obj(ms), rest))
    ensures MapRequest(text)
         == match ParseMembers(members) case None => None case Some((ms, _)) => Some(DecodedMap(ms))
  {
    hide ParseValue, ParseMembers;
  }

  lemma SentIs(message: string, mgrId: int, clientId: int)
    ensures var text := AddRouting(message, mgrId, clientId);
            Sent(message, mgrId, clientId) == Request(text, MapRequest(text))
  {
  }

  /** What starts with something else than an object is not decoded, or to an empty map if it is null. */
  lemma NoObject(s: string)
    requires Skip(s) == "" || Skip(s)[0] != '{'
    ensures MapRequest(s) == None || MapRequest(s) == Some(map[])
  {
    hide ParseMembers, ParseItems, ParseChars, Skip;
  }

  lemma OtherDecoded(pre: string, t: string, mgrId: int, clientId: int)
    requires AllSpaces(pre) && '{' !in pre && (t == "" || (!IsSpace(t[0]) && t[0] != '{'))
    ensures var decoded := Sent(pre + t, mgrId, clientId).decoded; decoded == None || decoded == Some(map[])
  {
    var message := pre + t;
    var text := AddRouting(message, mgrId, clientId);
    SentIs(message, mgrId, clientId);
    if t == "" {
      NoBrace(message);
      SkipSpaces(pre, t);
    } else {
      var i := IndexOf(message, '{');
      BracePlace(pre, t);
      assert text == pre + text[|pre|..] && text[|pre|..] != "" && text[|pre|..][0] == t[0];
      SkipSpaces(pre, text[|pre|..]);
    }
    NoObject(text);
  }

  lemma NoBrace(message: string)
    requires '{' !in message
    ensures IndexOf(message, '{') < 0
  {
  }

  lemma BracePlace(pre: string, t: string)
    requires '{' !in pre && t != "" && t[0] != '{'
    ensures var i := IndexOf(pre + t, '{'); i < 0 || (|pre| < i < |pre + t|)
  {
    assert forall k :: 0 <= k < |pre| ==> (pre + t)[k] == pre[k];
  }

  /** Whatever text a client sends: what the dispatcher decodes are the manager's members and the client's behind them;
      without any of the client's it decodes nothing. */
  lemma DecodedClient(message: string, mgrId: int, clientId: int)
    ensures var decoded := Sent(message, mgrId, clientId).decoded;
            match ClientMembers(message)
            case Some(ms) => decoded == Some(DecodedMap(Routed(ms, mgrId, clientId)))
            case None => decoded == None || decoded == Some(map[])
  {
    var pre := SkipSplit(message);
    var t := Skip(message);
    hide Sent, Routed, DecodedMap, Skip, IsSpace, ParseMembers;
    if t != "" && t[0] == '{' {
      assert t == "{" + t[1..];
      ObjectDecoded(pre, t[1..], mgrId, clientId);
    } else {
      OtherDecoded(pre, t, mgrId, clientId);
    }
  }

  /** With no members of the client's own a comma is left in front of the closing brace: the text cannot be decoded. */
  lemma EmptyRouted(mgrId: int, clientId: int)
    ensures ClientMembers("{}") == None && Sent("{}", mgrId, clientId).decoded == None
  {
    var s := "{}";
    assert Skip(s) == s && s[1..] == "}" && ParseMembers("}") == None;
    hide Sent;
    ObjectDecoded("", "}", mgrId, clientId);
    assert "" + ("{" + "}") == "{}";
  }

  /** A printed object starts with its members. */
  lemma PrintedClient(ms: seq<Member>, sp: Style)
    requires ms != [] && Blank(sp)
    requires forall i :: 0 <= i < |ms| ==> ReadableText(ms[i].key, sp.escape) && Readable(ms[i].value, sp.escape)
    ensures ClientMembers(Print(Obj(ms), sp)) == Some(ms)
  {
    hide ReadableText, Readable, Print, PrintMembers, ParseMembers, Skip;
    PrintedBrace(ms, sp);
    BraceOpens(sp.open + PrintMembers(ms, sp));
    SkipInMembers(sp.open, PrintMembers(ms, sp));
    MembersRoundTrip(ms, sp, "");
    assert PrintMembers(ms, sp) + "" == PrintMembers(ms, sp);
  }

  lemma PrintedBrace(ms: seq<Member>, sp: Style)
    requires ms != []
    ensures Print(Obj(ms), sp) == "{" + (sp.open + PrintMembers(ms, sp))
  {
    hide PrintMembers;
  }

  lemma BraceOpens(body: string)
    ensures ClientMembers("{" + body)
         == match ParseMembers(body) case None => None case Some((ms, _)) => Some(ms)
  {
    var s := "{" + body;
    assert !IsSpace('{') && Skip(s) == s && s[1..] == body;
    hide Skip, ParseMembers;
  }

  // ---------------------------------------------------------------- the client's members in the decoded request

  /** The members in front are those of the manager, unless the client has one of the same name. */
  lemma RoutedLookup(ms: seq<Member>, mgrId: int, clientId: int, key: string)
    ensures Lookup(Routed(ms, mgrId, clientId), key)
         == if Lookup(ms, key).Some? then Lookup(ms, key)
            else if key == "origin" then Some(Json.Str("external"))
            else if key == "RouterId" then Some(Json.Str(RouterId(mgrId, clientId)))
            else None
  {
    var a, b := Member("RouterId", Json.Str(RouterId(mgrId, clientId))), Member("origin", Json.Str("external"));
    LookupAppend([a, b], ms, key);
    LookupTwo(a, b, key);
  }

  lemma RoutedField(message: string, mgrId: int, clientId: int, key: string)
    requires ClientMembers(message).Some?
    ensures var ms := ClientMembers(message).value;
            && Sent(message, mgrId, clientId).decoded.Some?
            && Get(Sent(message, mgrId, clientId).decoded.value, key)
               == if Lookup(ms, key).Some? then Some(ToValue(Lookup(ms, key).value))
                  else if key == "origin" then Some(Value.Str("external"))
                  else if key == "RouterId" then Some(Value.Str(RouterId(mgrId, clientId)))
                  else None
  {
    hide RouterId, Lookup, Sent, DecodedMap, ClientMembers;
    var ms := ClientMembers(message).value;
    DecodedClient(message, mgrId, clientId);
    DecodedIs(Routed(ms, mgrId, clientId), key);
    RoutedLookup(ms, mgrId, clientId, key);
    hide Routed;
  }

  /** The client's last origin member says that the request is internal. */
  predicate SaysInternal(ms: seq<Member>) {
    Lookup(ms, "origin") == Some(Json.Str("internal"))
  }

  lemma ToValueStr(j: Json, text: string)
    ensures ToValue(j) == Value.Str(text) <==> j == Json.Str(text)
  {
  }

  /** The manager's origin stands in front: a request is taken for internal exactly when the client says it is. */
  lemma OriginIff(message: string, mgrId: int, clientId: int)
    ensures Is(Fields(Sent(message, mgrId, clientId)), "origin", "internal")
            <==> ClientMembers(message).Some? && SaysInternal(ClientMembers(message).value)
  {
    hide Sent, ClientMembers, Lookup, ToValue;
    DecodedClient(message, mgrId, clientId);
    if ClientMembers(message).Some? {
      var ms := ClientMembers(message).value;
      RoutedField(message, mgrId, clientId, "origin");
      FieldIs(Sent(message, mgrId, clientId).decoded.value, "origin", "internal");
      WordsDiffer();
      if Lookup(ms, "origin").Some? {
        ToValueStr(Lookup(ms, "origin").value, "internal");
      }
    }
  }

  lemma FieldIs(m: Map, key: string, text: string)
    ensures Is(m, key, text) <==> Get(m, key) == Some(Value.Str(text))
  {
  }

  lemma WordsDiffer()
    ensures "external" != "internal" && "path" != "origin" && "path" != "RouterId"
    ensures "action" != "origin" && "action" != "RouterId" && "filter" != "origin" && "filter" != "RouterId"
    ensures "origin" != "RouterId"
  {
    assert "external"[0] == 'e' && "path"[0] == 'p' && "action"[0] == 'a' && "filter"[0] == 'f';
    assert "internal"[0] == 'i' && "origin"[0] == 'o' && "RouterId"[0] == 'R';
  }

  /** Such a member of the client's, as the dispatcher finds it. */
  lemma ClientField(message: string, mgrId: int, clientId: int, key: string)
    requires ClientMembers(message).Some? && key != "origin" && key != "RouterId"
    ensures Sent(message, mgrId, clientId).decoded.Some?
    ensures var m, ms := Sent(message, mgrId, clientId).decoded.value, ClientMembers(message).value;
            && (Has(m, key) <==> Lookup(ms, key).Some? && Lookup(ms, key) != Some(Lit("null")))
            && (forall text :: Is(m, key, text) <==> Lookup(ms, key) == Some(Json.Str(text)))
            && (key in m && m[key].Str? <==> Lookup(ms, key).Some? && Lookup(ms, key).value.Str?)
            && (key in m && m[key].Str? ==> m[key].text == Lookup(ms, key).value.text)
  {
    hide Sent, ClientMembers, Lookup;
    RoutedField(message, mgrId, clientId, key);
  }

  // ---------------------------------------------------------------- guards

  /** The client's path; None if there is none, or it is no string. */
  function PathOf(ms: seq<Member>): Option<string> {
    match Lookup(ms, "path") case Some(Str(text)) => Some(text) case _ => None
  }

  /** A set request of the client's that some server can carry out. */
  predicate SettableText(text: string, ms: seq<Member>) {
    && Lookup(ms, "action") == Some(Json.Str("set")) && ValidRequest(text, "set")
    && PathOf(ms).Some? && '*' !in PathOf(ms).value && UrlToPath(PathOf(ms).value) != ""
    && (Lookup(ms, "filter") == None || Lookup(ms, "filter") == Some(Lit("null")))
  }

  lemma SettableIff(message: string, mgrId: int, clientId: int)
    requires ClientMembers(message).Some?
    ensures var request := Sent(message, mgrId, clientId);
            request.decoded.Some?
            && (Settable(request.text, request.decoded.value)
                <==> SettableText(request.text, ClientMembers(message).value))
  {
    hide Sent, ClientMembers, Lookup, ValidRequest, UrlToPath, Has;
    WordsDiffer();
    ClientField(message, mgrId, clientId, "action");
    ClientField(message, mgrId, clientId, "path");
    ClientField(message, mgrId, clientId, "filter");
  }

  lemma NothingAsked(w: World, request: Request)
    requires request.decoded == None || request.decoded == Some(map[])
    ensures SetGuarded(w, request) && ReadGuarded(w, request)
  {
  }

  /** For every text that a client may send: whatever the server, what it sets is an actuator, and paid for by an
      accepted token where it is protected, exactly when the text is no set request that says it is internal. */
  lemma SetTextGuardedIff(message: string, mgrId: int, clientId: int)
    ensures var request := Sent(message, mgrId, clientId);
            (forall w :: SetGuarded(w, request))
            <==> !(ClientMembers(message).Some? && SettableText(request.text, ClientMembers(message).value)
                   && SaysInternal(ClientMembers(message).value))
  {
    var request := Sent(message, mgrId, clientId);
    hide Sent, ClientMembers, Lookup, SetGuarded, Settable, SettableText;
    if ClientMembers(message).Some? {
      SettableIff(message, mgrId, clientId);
      OriginIff(message, mgrId, clientId);
      assert request == Request(request.text, Some(request.decoded.value));
      SetGuardedIff(request.text, request.decoded.value);
    } else {
      DecodedClient(message, mgrId, clientId);
      forall w ensures SetGuarded(w, request) {
        NothingAsked(w, request);
      }
    }
  }

  /** A get or subscribe request of the client's that, with this list of filters, some server forwards without asking
      for the token. */
  predicate UnguardedTextBy(text: string, ms: seq<Member>, filters: seq<Filter>) {
    && (Lookup(ms, "action") == Some(Json.Str("get")) || Lookup(ms, "action") == Some(Json.Str("subscribe")))
    && ValidRequest(text, Lookup(ms, "action").value.text)
    && PathOf(ms).Some? && '*' !in PathOf(ms).value
    && var root := UrlToPath(PathOf(ms).value);
       match WayOf(root, filters)
       case Plain => SaysInternal(ms) && root != ""
       case ByPaths(None) => false
       case ByPaths(Some(paths)) => SaysInternal(ms) && (paths != [] || root != "")
       case Static => false
       case Capabilities => root != ""
  }

  /** The client's filter as it is decoded. */
  function ClientFilter(ms: seq<Member>): Value {
    match Lookup(ms, "filter") case None => Null case Some(j) => ToValue(j)
  }

  /** Such a list may be unpacked from the client's filter. */
  ghost predicate UnguardedText(text: string, ms: seq<Member>, marshal: Json -> string) {
    exists filters :: MayUnpack(marshal, ClientFilter(ms), filters) && UnguardedTextBy(text, ms, filters)
  }

  lemma UnguardedByIff(message: string, mgrId: int, clientId: int, filters: seq<Filter>)
    requires ClientMembers(message).Some?
    ensures var request := Sent(message, mgrId, clientId);
            request.decoded.Some?
            && (UnguardedBy(request.text, request.decoded.value, filters)
                <==> UnguardedTextBy(request.text, ClientMembers(message).value, filters))
  {
    hide Sent, ClientMembers, Lookup, ValidRequest, UrlToPath, Has, WayOf;
    WordsDiffer();
    ClientField(message, mgrId, clientId, "action");
    ClientField(message, mgrId, clientId, "path");
    OriginIff(message, mgrId, clientId);
  }

  lemma FilterIsClients(message: string, mgrId: int, clientId: int)
    requires ClientMembers(message).Some?
    ensures Sent(message, mgrId, clientId).decoded.Some?
    ensures FilterValue(Sent(message, mgrId, clientId).decoded.value) == ClientFilter(ClientMembers(message).value)
  {
    hide Sent, ClientMembers, Lookup;
    WordsDiffer();
    RoutedField(message, mgrId, clientId, "filter");
  }

  lemma UnguardedIff(message: string, mgrId: int, clientId: int, marshal: Json -> string)
    requires ClientMembers(message).Some?
    ensures var request := Sent(message, mgrId, clientId);
            request.decoded.Some?
            && (Unguarded(request.text, request.decoded.value, marshal)
                <==> UnguardedText(request.text, ClientMembers(message).value, marshal))
  {
    hide Sent, ClientMembers, UnguardedBy, UnguardedTextBy, MayUnpack, FilterValue, ClientFilter;
    FilterIsClients(message, mgrId, clientId);
    var request, ms := Sent(message, mgrId, clientId), ClientMembers(message).value;
    forall filters
      ensures UnguardedBy(request.text, request.decoded.value, filters) <==> UnguardedTextBy(request.text, ms, filters)
    {
      UnguardedByIff(message, mgrId, clientId, filters);
    }
    var value := ClientFilter(ms);
    if Unguarded(request.text, request.decoded.value, marshal) {
      var fs :| MayUnpack(marshal, value, fs) && UnguardedBy(request.text, request.decoded.value, fs);
      assert UnguardedTextBy(request.text, ms, fs);
    }
    if UnguardedText(request.text, ms, marshal) {
      var fs :| MayUnpack(marshal, value, fs) && UnguardedTextBy(request.text, ms, fs);
      assert UnguardedBy(request.text, request.decoded.value, fs);
    }
  }

  /** For every text that a client may send, whatever json.Marshal prints: on every server, and whatever order Go visits
      the filter's maps in, a request for a path protected for reading is forwarded only with an accepted token, exactly
      when the text is not unguarded. */
  lemma ReadTextGuardedIff(message: string, mgrId: int, clientId: int, marshal: Json -> string)
    ensures var request := Sent(message, mgrId, clientId);
            (forall w: World :: w.marshal == marshal ==> ReadGuarded(w, request))
            <==> !(ClientMembers(message).Some?
                   && UnguardedText(request.text, ClientMembers(message).value, marshal))
  {
    var request := Sent(message, mgrId, clientId);
    hide Sent, ClientMembers, ReadGuarded, Unguarded, UnguardedText;
    if ClientMembers(message).Some? {
      UnguardedIff(message, mgrId, clientId, marshal);
      assert request == Request(request.text, Some(request.decoded.value));
      ReadGuardedIff(request.text, request.decoded.value, marshal);
    } else {
      DecodedClient(message, mgrId, clientId);
      forall w: World | w.marshal == marshal ensures ReadGuarded(w, request) {
        NothingAsked(w, request);
      }
    }
  }

  /** A get or subscribe request whose filter has a server_capabilities filter in front of the first paths or
      static-metadata filter. */
  predicate AsksAroundText(text: string, ms: seq<Member>) {
    && (Lookup(ms, "action") == Some(Json.Str("get")) || Lookup(ms, "action") == Some(Json.Str("subscribe")))
    && ValidRequest(text, Lookup(ms, "action").value.text)
    && PathOf(ms).Some? && '*' !in PathOf(ms).value && UrlToPath(PathOf(ms).value) != ""
    && CapabilitiesFirst(ItemsOf(ClientFilter(ms)))
  }

  /** A text that does not say it is internal is unguarded exactly when it is such a request. */
  lemma OutsideTextIff(message: string, mgrId: int, clientId: int, marshal: Json -> string)
    requires ClientMembers(message).Some? && !SaysInternal(ClientMembers(message).value)
    ensures var text, ms := Sent(message, mgrId, clientId).text, ClientMembers(message).value;
            UnguardedText(text, ms, marshal) <==> AsksAroundText(text, ms)
  {
    var request, ms := Sent(message, mgrId, clientId), ClientMembers(message).value;
    hide Sent, ClientMembers, Lookup, ValidRequest, UrlToPath, Has, Unguarded, UnguardedText, CapabilitiesFirst;
    WordsDiffer();
    UnguardedIff(message, mgrId, clientId, marshal);
    OriginIff(message, mgrId, clientId);
    FilterIsClients(message, mgrId, clientId);
    hide FilterValue, ClientFilter, ItemsOf;
    ClientField(message, mgrId, clientId, "action");
    ClientField(message, mgrId, clientId, "path");
    OutsideUnguardedIff(request.text, request.decoded.value, marshal);
  }

  // ---------------------------------------------------------------- texts that get through

  /** One text is a part of another. */
  ghost predicate Part(a: string, s: string) {
    exists i: nat :: OccursAt(s, a, i)
  }

  lemma PartContained(a: string, s: string)
    requires Part(a, s)
    ensures Contains(s, a)
  {
    if FindFrom(s, a, 0) == None {
      FindNone(s, a, 0);
    }
  }

  lemma PartOf(pre: string, a: string, post: string)
    ensures Part(a, pre + (a + post))
  {
    assert OccursAt(pre + (a + post), a, |pre|);
  }

  lemma PartTrans(a: string, b: string, s: string)
    requires Part(a, b) && Part(b, s)
    ensures Part(a, s)
  {
    var i: nat :| OccursAt(b, a, i);
    var k: nat :| OccursAt(s, b, k);
    var at: nat := k + i;
    forall j | 0 <= j < |a| ensures s[at + j] == a[j] {
      assert s[at + j] == s[k..k + |b|][i + j] == b[i..i + |a|][j];
    }
    assert s[at..at + |a|] == a;
    assert OccursAt(s, a, at);
  }

  lemma {:induction false} MemberPart(ms: seq<Member>, sp: Style, i: nat)
    requires i < |ms|
    ensures Part(Shown(ms[i].key, sp), PrintMembers(ms, sp)) && Part(Print(ms[i].value, sp), PrintMembers(ms, sp))
  {
    hide Part, Shown, Print;
    MembersUnfold(ms, sp);
    var key, value := Shown(ms[0].key, sp), Print(ms[0].value, sp);
    var more := if |ms| == 1 then "}" else "," + sp.comma + PrintMembers(ms[1..], sp);
    hide PrintMembers;
    MemberParts(key, value, more);
    if i > 0 {
      MemberPart(ms[1..], sp, i - 1);
      assert more == "," + sp.comma + (PrintMembers(ms[1..], sp) + "");
      PartOf("," + sp.comma, PrintMembers(ms[1..], sp), "");
      PartTrans(Shown(ms[i].key, sp), PrintMembers(ms[1..], sp), more);
      PartTrans(Print(ms[i].value, sp), PrintMembers(ms[1..], sp), more);
      PartTrans(Shown(ms[i].key, sp), more, PrintMembers(ms, sp));
      PartTrans(Print(ms[i].value, sp), more, PrintMembers(ms, sp));
    }
  }

  lemma MemberParts(key: string, value: string, more: string)
    ensures var s := "\"" + key + "\":" + value + more; Part(key, s) && Part(value, s) && Part(more, s)
  {
    var s := "\"" + key + "\":" + value + more;
    PartOf("\"", key, "\":" + value + more);
    assert s == "\"" + (key + ("\":" + value + more));
    PartOf("\"" + key + "\":", value, more);
    assert s == ("\"" + key + "\":") + (value + more);
    PartOf("\"" + key + "\":" + value, more, "");
    assert s == ("\"" + key + "\":" + value) + (more + "");
    hide Part;
  }

  /** The client's text behind its brace is a part of the text. */
  lemma BodyPart(body: string, mgrId: int, clientId: int)
    ensures Part(body, Sent("{" + body, mgrId, clientId).text)
  {
    hide *;
    RoutedParts("", body, mgrId, clientId);
    SentIs("" + ("{" + body), mgrId, clientId);
    assert "" + ("{" + body) == "{" + body;
    RestPart(RouterId(mgrId, clientId), body);
    PartUnder(body, "", "{" + RoutedText(RouterId(mgrId, clientId), body));
  }

  /** A text printed without spaces. */
  function Printed(ms: seq<Member>): string
    requires ms != []
  {
    Print(Obj(ms), COMPACT)
  }

  lemma PrintedPart(ms: seq<Member>, mgrId: int, clientId: int)
    requires ms != []
    ensures Part(PrintMembers(ms, COMPACT), Sent(Printed(ms), mgrId, clientId).text)
  {
    BodyPart(PrintMembers(ms, COMPACT), mgrId, clientId);
    ObjectPrinted(ms);
    assert "{" + "" + PrintMembers(ms, COMPACT) == "{" + PrintMembers(ms, COMPACT);
    hide Sent, PrintMembers, Print;
  }

  lemma RestPart(id: string, rest: string)
    ensures Part(rest, "{" + RoutedText(id, rest))
  {
    hide Part;
    PartSelf(rest);
    var s1 := "\"" + ("," + (" " + rest));
    PartUnder(rest, " ", rest);
    PartUnder(rest, ",", " " + rest);
    PartUnder(rest, "\"", "," + (" " + rest));
    PartUnder(rest, "external", s1);
    PartUnder(rest, "\":\"", "external" + s1);
    PartUnder(rest, "origin", "\":\"" + ("external" + s1));
    PartUnder(rest, "\"", "origin" + ("\":\"" + ("external" + s1)));
    var s2 := "\"" + ("," + (" " + OriginText(rest)));
    PartUnder(rest, " ", OriginText(rest));
    PartUnder(rest, ",", " " + OriginText(rest));
    PartUnder(rest, "\"", "," + (" " + OriginText(rest)));
    PartUnder(rest, id, s2);
    PartUnder(rest, "\":\"", id + s2);
    PartUnder(rest, "RouterId", "\":\"" + (id + s2));
    PartUnder(rest, "\"", "RouterId" + ("\":\"" + (id + s2)));
    PartUnder(rest, "{", RoutedText(id, rest));
  }

  lemma PartSelf(a: string)
    ensures Part(a, a)
  {
    assert OccursAt(a, a, 0);
  }

  lemma PartUnder(a: string, pre: string, s: string)
    requires Part(a, s)
    ensures Part(a, pre + s)
  {
    PartOf(pre, s, "");
    assert pre + (s + "") == pre + s;
    PartTrans(a, s, pre + s);
  }

  /** json.Marshal prints it as it is. */
  predicate Unescaped(s: string) {
    forall c :: c in s ==> EscapeChar(c, Full) == [c]
  }

  lemma LettersUnescaped(s: string)
    requires forall i :: 0 <= i < |s| ==> 'a' <= s[i] <= 'z' || 'A' <= s[i] <= 'Z'
    ensures Unescaped(s)
  {
  }

  lemma {:induction false} EscapeNothing(s: string)
    requires Unescaped(s)
    ensures Escape(s, Full) == s
  {
    if s != "" {
      assert s[0] in s;
      EscapeNothing(s[1..]);
      assert s == [s[0]] + s[1..];
    }
  }

  /** A key of the client's is in the text. */
  lemma KeyContained(ms: seq<Member>, mgrId: int, clientId: int, i: nat)
    requires i < |ms| && Unescaped(ms[i].key)
    ensures Contains(Sent(Printed(ms), mgrId, clientId).text, ms[i].key)
  {
    var key, text := ms[i].key, Sent(Printed(ms), mgrId, clientId).text;
    EscapeNothing(key);
    hide Part, Sent, Print, PrintMembers, Contains, Escape, Unescaped, Printed;
    MemberPart(ms, COMPACT, i);
    PrintedPart(ms, mgrId, clientId);
    PartTrans(key, PrintMembers(ms, COMPACT), text);
    PartContained(key, text);
  }

  const INTERNAL_SET := [Member("action", Json.Str("set")), Member("path", Json.Str("A")),
                         Member("value", Json.Str("1")),
                         Member("origin", Json.Str("internal"))]

  /** {"action":"set","path":"A","value":"1","origin":"internal"} sets a protected actuator without a token. */
  lemma InternalSetPasses(mgrId: int, clientId: int)
    ensures INTERNAL_SET != [] && exists w :: !SetGuarded(w, Sent(Printed(INTERNAL_SET), mgrId, clientId))
  {
    var message := Printed(INTERNAL_SET);
    var request := Sent(message, mgrId, clientId);
    InternalSetFields();
    KeyContained(INTERNAL_SET, mgrId, clientId, 1);
    KeyContained(INTERNAL_SET, mgrId, clientId, 2);
    assert ValidRequest(request.text, "set");
    hide Sent, ValidRequest, Contains, INTERNAL_SET, Lookup, SetGuarded, Printed, ClientMembers;
    SetTextGuardedIff(message, mgrId, clientId);
  }

  lemma InternalSetFields()
    ensures ClientMembers(Printed(INTERNAL_SET)) == Some(INTERNAL_SET)
    ensures Unescaped(INTERNAL_SET[1].key) && Unescaped(INTERNAL_SET[2].key)
    ensures INTERNAL_SET[1].key == "path" && INTERNAL_SET[2].key == "value"
    ensures Lookup(INTERNAL_SET, "action") == Some(Json.Str("set"))
    ensures PathOf(INTERNAL_SET) == Some("A") && '*' !in "A" && UrlToPath("A") != ""
    ensures Lookup(INTERNAL_SET, "filter") == None && SaysInternal(INTERNAL_SET)
  {
    hide *;
    InternalSetPrinted();
    InternalSetLookups();
    LettersUnescaped("path");
    LettersUnescaped("value");
    RootA();
    Named(INTERNAL_SET);
  }

  lemma Named(ms: seq<Member>)
    ensures forall path :: Lookup(ms, "path") == Some(Json.Str(path)) ==> PathOf(ms) == Some(path)
    ensures SaysInternal(ms) <==> Lookup(ms, "origin") == Some(Json.Str("internal"))
  {
    hide Lookup;
  }

  lemma RootA()
    ensures '*' !in "A" && UrlToPath("A") != ""
  {
  }

  lemma InternalSetLookups()
    ensures INTERNAL_SET[1].key == "path" && INTERNAL_SET[2].key == "value"
    ensures Lookup(INTERNAL_SET, "action") == Some(Json.Str("set"))
    ensures Lookup(INTERNAL_SET, "path") == Some(Json.Str("A"))
    ensures Lookup(INTERNAL_SET, "filter") == None
    ensures Lookup(INTERNAL_SET, "origin") == Some(Json.Str("internal"))
  {
    hide Lookup;
    var a, b, c, d := INTERNAL_SET[0], INTERNAL_SET[1], INTERNAL_SET[2], INTERNAL_SET[3];
    FourMembers(a, b, c, d, "action");
    FourMembers(a, b, c, d, "path");
    FourMembers(a, b, c, d, "filter");
    FourMembers(a, b, c, d, "origin");
    WordsDiffer();
    assert "value"[0] == 'v';
    assert INTERNAL_SET == [a, b, c, d];
  }

  lemma InternalSetPrinted()
    ensures ClientMembers(Printed(INTERNAL_SET)) == Some(INTERNAL_SET)
  {
    PrintedClient(INTERNAL_SET, COMPACT);
    hide ClientMembers;
  }

  lemma FourMembers(a: Member, b: Member, c: Member, d: Member, key: string)
    ensures Lookup([a, b, c, d], key)
         == if d.key == key then Some(d.value) else if c.key == key then Some(c.value)
            else if b.key == key then Some(b.value) else if a.key == key then Some(a.value) else None
  {
    assert [a, b, c, d][..3] == [a, b, c];
    LookupThree(a, b, c, key);
  }

  function FilterJson(kind: string, parameter: string): Json {
    Obj([Member("type", Json.Str(kind)), Member("parameter", Json.Str(parameter))])
  }

  const TWO_FILTERS := Arr([FilterJson("history", "P1D"), FilterJson("dynamic-metadata", "server_capabilities")])

  const HISTORY_GET := [Member("action", Json.Str("get")), Member("path", Json.Str("A")), Member("filter", TWO_FILTERS)]

  /** {"action":"get","path":"A","filter":[...]} with these two filters is forwarded with its path as it is, and without
      a token, however the path is protected. */
  lemma CapabilitiesPass(mgrId: int, clientId: int, marshal: Json -> string)
    ensures HISTORY_GET != []
    ensures exists w: World :: w.marshal == marshal && !ReadGuarded(w, Sent(Printed(HISTORY_GET), mgrId, clientId))
  {
    hide *;
    HistoryGetFields();
    var message := Printed(HISTORY_GET);
    var request := Sent(message, mgrId, clientId);
    HistoryValid(mgrId, clientId);
    CapabilitiesLeads();
    AskedOnRoot(request.text, HISTORY_GET, "get", "A", TWO_FILTERS);
    OutsideTextIff(message, mgrId, clientId, marshal);
    ReadTextGuardedIff(message, mgrId, clientId, marshal);
  }

  lemma HistoryValid(mgrId: int, clientId: int)
    ensures HISTORY_GET != [] && ValidRequest(Sent(Printed(HISTORY_GET), mgrId, clientId).text, "get")
  {
    HistoryGetFields();
    hide Sent, HISTORY_GET, Lookup, Contains, Printed, Unescaped, ClientMembers;
    KeyContained(HISTORY_GET, mgrId, clientId, 1);
    FilterContained(mgrId, clientId);
  }

  lemma AskedOnRoot(text: string, ms: seq<Member>, action: string, path: string, filter: Json)
    requires action == "get" && Lookup(ms, "action") == Some(Json.Str(action)) && ValidRequest(text, action)
    requires Lookup(ms, "path") == Some(Json.Str(path)) && '*' !in path && UrlToPath(path) != ""
    requires Lookup(ms, "filter") == Some(filter) && filter.Arr? && CapabilitiesFirst(filter.items)
    ensures AsksAroundText(text, ms)
  {
    hide Lookup, ValidRequest, CapabilitiesFirst, UrlToPath;
  }

  lemma FilterFields(kind: string, parameter: string)
    ensures var j := FilterJson(kind, parameter);
            ItemKind(j) == kind && Lookup(j.members, "parameter") == Some(Json.Str(parameter))
  {
    LookupTwo(Member("type", Json.Str(kind)), Member("parameter", Json.Str(parameter)), "type");
    LookupTwo(Member("type", Json.Str(kind)), Member("parameter", Json.Str(parameter)), "parameter");
    assert "type"[0] != "parameter"[0];
    hide Lookup;
  }

  lemma CapabilitiesLeads()
    ensures TWO_FILTERS.Arr? && CapabilitiesFirst(TWO_FILTERS.items)
  {
    FilterFields("history", "P1D");
    FilterFields("dynamic-metadata", "server_capabilities");
    hide FilterJson, ItemKind, Lookup;
    var items := TWO_FILTERS.items;
    assert "history"[0] == 'h' && "paths"[0] == 'p' && "static-metadata"[0] == 's' && "dynamic-metadata"[0] == 'd';
    assert items[1..][0] == items[1] && CapabilitiesFirst(items[1..]);
  }

  lemma HistoryGetFields()
    ensures |HISTORY_GET| == 3
    ensures ClientMembers(Printed(HISTORY_GET)) == Some(HISTORY_GET) && !SaysInternal(HISTORY_GET)
    ensures Unescaped(HISTORY_GET[1].key) && HISTORY_GET[1].key == "path"
    ensures Lookup(HISTORY_GET, "action") == Some(Json.Str("get")) && Lookup(HISTORY_GET, "path") == Some(Json.Str("A"))
    ensures Lookup(HISTORY_GET, "filter") == Some(TWO_FILTERS) && TWO_FILTERS != Lit("null")
    ensures '*' !in "A" && UrlToPath("A") != ""
  {
    hide *;
    HistoryLookups();
    HistoryPrinted();
    LettersUnescaped("path");
    RootA();
    Named(HISTORY_GET);
  }

  lemma HistoryLookups()
    ensures |HISTORY_GET| == 3 && HISTORY_GET[1].key == "path" && TWO_FILTERS != Lit("null")
    ensures Lookup(HISTORY_GET, "action") == Some(Json.Str("get")) && Lookup(HISTORY_GET, "path") == Some(Json.Str("A"))
    ensures Lookup(HISTORY_GET, "filter") == Some(TWO_FILTERS) && Lookup(HISTORY_GET, "origin") == None
  {
    hide Lookup, FilterJson;
    var a, b, c := HISTORY_GET[0], HISTORY_GET[1], HISTORY_GET[2];
    LookupThree(a, b, c, "action");
    LookupThree(a, b, c, "path");
    LookupThree(a, b, c, "filter");
    LookupThree(a, b, c, "origin");
    WordsDiffer();
    SetIsNoOther();
  }

  lemma HistoryPrinted()
    ensures HISTORY_GET != [] && ClientMembers(Printed(HISTORY_GET)) == Some(HISTORY_GET)
  {
    HistoryReadable();
    PrintedClient(HISTORY_GET, COMPACT);
    hide ClientMembers;
  }

  lemma HistoryReadable()
    ensures Readable(TWO_FILTERS, Full)
  {
    FilterReadable("history", "P1D");
    FilterReadable("dynamic-metadata", "server_capabilities");
    hide FilterJson;
  }

  lemma FilterReadable(kind: string, parameter: string)
    ensures Readable(FilterJson(kind, parameter), Full)
  {
  }

  lemma FilterContained(mgrId: int, clientId: int)
    ensures HISTORY_GET != []
    ensures var text := Sent(Printed(HISTORY_GET), mgrId, clientId).text;
            Contains(text, "parameter") && Contains(text, "history")
  {
    hide *;
    HistoryFilter();
    var text, body, filter := Sent(Printed(HISTORY_GET), mgrId, clientId).text, PrintMembers(HISTORY_GET, COMPACT),
                              Print(TWO_FILTERS, COMPACT);
    FirstFilterPart("history", "P1D", [FilterJson("dynamic-metadata", "server_capabilities")]);
    MemberPart(HISTORY_GET, COMPACT, 2);
    PrintedPart(HISTORY_GET, mgrId, clientId);
    PartTrans(filter, body, text);
    PartTrans("parameter", filter, text);
    PartTrans("history", filter, text);
    PartContained("parameter", text);
    PartContained("history", text);
  }

  lemma HistoryFilter()
    ensures |HISTORY_GET| == 3 && HISTORY_GET != [] && HISTORY_GET[2].value == TWO_FILTERS && Unescaped("history")
    ensures TWO_FILTERS == Arr([FilterJson("history", "P1D")] + [FilterJson("dynamic-metadata", "server_capabilities")])
  {
    LettersUnescaped("history");
    hide Unescaped, FilterJson;
  }

  lemma FirstFilterPart(kind: string, parameter: string, more: seq<Json>)
    requires Unescaped(kind) && more != []
    ensures var s := Print(Arr([FilterJson(kind, parameter)] + more), COMPACT); Part("parameter", s) && Part(kind, s)
  {
    hide *;
    var first := FilterJson(kind, parameter);
    FilterPart(kind, parameter);
    ArrayText(first, more);
    var text, rest := Print(first, COMPACT), "," + "" + PrintItems(more, COMPACT);
    PartOf("[" + "", text, rest);
    PartTrans("parameter", text, "[" + "" + (text + rest));
    PartTrans(kind, text, "[" + "" + (text + rest));
  }

  lemma ArrayText(first: Json, more: seq<Json>)
    requires more != []
    ensures Print(Arr([first] + more), COMPACT)
         == "[" + "" + (Print(first, COMPACT) + ("," + "" + PrintItems(more, COMPACT)))
  {
    var items := [first] + more;
    assert items[1..] == more && items[0] == first && |items| > 1;
    hide Shown;
    assert PrintItems(items, COMPACT) == Print(first, COMPACT) + ("," + "" + PrintItems(more, COMPACT));
  }

  lemma FilterPart(kind: string, parameter: string)
    requires Unescaped(kind)
    ensures var s := Print(FilterJson(kind, parameter), COMPACT); Part("parameter", s) && Part(kind, s)
  {
    hide *;
    var ms := [Member("type", Json.Str(kind)), Member("parameter", Json.Str(parameter))];
    FilterMembers(kind, parameter);
    MemberPart(ms, COMPACT, 0);
    MemberPart(ms, COMPACT, 1);
    PartOf("\"", kind, "\"");
    PartTrans(kind, Print(ms[0].value, COMPACT), PrintMembers(ms, COMPACT));
    PartUnder("parameter", "{" + "", PrintMembers(ms, COMPACT));
    PartUnder(kind, "{" + "", PrintMembers(ms, COMPACT));
  }

  lemma FilterMembers(kind: string, parameter: string)
    requires Unescaped(kind)
    ensures var ms := [Member("type", Json.Str(kind)), Member("parameter", Json.Str(parameter))];
            && Print(FilterJson(kind, parameter), COMPACT) == "{" + "" + PrintMembers(ms, COMPACT)
            && Shown(ms[1].key, COMPACT) == "parameter" && Print(ms[0].value, COMPACT) == "\"" + (kind + "\"")
  {
    LettersUnescaped("parameter");
    ShownUnescaped("parameter");
    ShownUnescaped(kind);
    hide Shown, PrintMembers, Unescaped;
    ObjectPrinted([Member("type", Json.Str(kind)), Member("parameter", Json.Str(parameter))]);
    hide Print;
  }

  lemma ShownUnescaped(s: string)
    requires Unescaped(s)
    ensures Shown(s, COMPACT) == s && Print(Json.Str(s), COMPACT) == "\"" + (s + "\"")
  {
    EscapeNothing(s);
    hide Escape;
  }

  lemma ObjectPrinted(ms: seq<Member>)
    requires ms != []
    ensures Print(Obj(ms), COMPACT) == "{" + "" + PrintMembers(ms, COMPACT)
  {
    hide PrintMembers;
  }

  // ---------------------------------------------------------------- internal actions

  predicate IsInternalAction(ms: seq<Member>) {
    || Lookup(ms, "action") == Some(Json.Str("internal-killsubscriptions"))
    || Lookup(ms, "action") == Some(Json.Str("internal-cancelsubscription"))
  }

  /** A client's text with an internal action goes to the service on every server, without a search or a token, exactly
      when it has no path, or one without wildcards. */
  lemma InternalActionIff(w: World, message: string, mgrId: int, clientId: int)
    requires ClientMembers(message).Some? && IsInternalAction(ClientMembers(message).value)
    ensures var path := Lookup(ClientMembers(message).value, "path");
            Forwards(w, Sent(message, mgrId, clientId))
            <==> path == None || path == Some(Lit("null")) || (path.value.Str? && '*' !in path.value.text)
  {
    hide Sent, ClientMembers, Lookup, UrlToPath;
    WordsDiffer();
    ClientField(message, mgrId, clientId, "action");
    ClientField(message, mgrId, clientId, "path");
    var m := Sent(message, mgrId, clientId).decoded.value;
    InternalIssued(w, Sent(message, mgrId, clientId), m);
    hide Served;
  }

  lemma InternalIssued(w: World, request: Request, m: Map)
    requires request.decoded == Some(m)
    requires Is(m, "action", "internal-killsubscriptions") || Is(m, "action", "internal-cancelsubscription")
    ensures Forwards(w, request) <==> Has(m, "path") ==> m["path"].Str? && '*' !in m["path"].text
  {
    assert "internal-killsubscriptions"[0] == 'i' && "internal-cancelsubscription"[0] == 'i';
    assert "set"[0] == 's' && "unsubscribe"[0] == 'u';
    SetIsNoOther();
    hide UrlToPath, Contains;
    if Has(m, "path") && m["path"].Str? {
      WithDotsKeeps(m, "action");
    }
  }

  // ---------------------------------------------------------------- whose answer it is

  /** The router id under which a client's request is answered. */
  lemma RouterIdIff(message: string, mgrId: int, clientId: int)
    requires ClientMembers(message).Some?
    ensures var id := Lookup(ClientMembers(message).value, "RouterId");
            Is(Fields(Sent(message, mgrId, clientId)), "RouterId", RouterId(mgrId, clientId))
            <==> id == None || id == Some(Json.Str(RouterId(mgrId, clientId)))
  {
    hide Sent, ClientMembers, Lookup, ToValue, RouterId;
    var ms, id := ClientMembers(message).value, RouterId(mgrId, clientId);
    RoutedField(message, mgrId, clientId, "RouterId");
    WordsDiffer();
    FieldIs(Sent(message, mgrId, clientId).decoded.value, "RouterId", id);
    if Lookup(ms, "RouterId").Some? {
      ToValueStr(Lookup(ms, "RouterId").value, id);
    }
  }

  /** What is forwarded keeps the router id of the request. */
  lemma ForwardedRouter(w: World, text: string, m: Map)
    requires Served(w, Request(text, Some(m))).Some? && Served(w, Request(text, Some(m))).value.Sent?
    requires !Served(w, Request(text, Some(m))).value.output.message.Raw?
    ensures Get(Served(w, Request(text, Some(m))).value.output.message.fields, "RouterId") == Get(m, "RouterId")
  {
    WordsDiffer();
    assert HasAction(m);
    var dotted := WithDots(m);
    WithDotsKeeps(m, "RouterId");
    IssuedRouter(w, dotted);
    hide Issued, UrlToPath, ValidRequest, WithDots;
  }

  lemma IssuedRouter(w: World, m: Map)
    requires HasAction(m) && Issued(w, m).Some? && Issued(w, m).value.Sent?
    ensures !Issued(w, m).value.output.message.Raw?
    ensures Get(Issued(w, m).value.output.message.fields, "RouterId") == Get(m, "RouterId")
  {
    KeysApart();
    hide ScanFilters, Checked, FiltersOf;
    if "path" in m && m["path"].Str? {
      var root, filters := m["path"].text, FiltersOf(w, m);
      ScanRouter(w, m, root, filters);
      forall paths | paths != [] && Checked(w, m, paths).Some? && Checked(w, m, paths).value.Sent?
        ensures !Checked(w, m, paths).value.output.message.Raw?
        ensures Get(Checked(w, m, paths).value.output.message.fields, "RouterId") == Get(m, "RouterId")
      {
        CheckedRouter(w, m, paths);
      }
    }
  }

  lemma KeysApart()
    ensures "RouterId" !in {"origin", "path", "filter", "ts", "handle", "gatingId"}
  {
    assert "RouterId"[0] == 'R' && "origin"[0] == 'o' && "path"[0] == 'p' && "filter"[0] == 'f';
    assert "ts"[0] == 't' && "handle"[0] == 'h' && "gatingId"[0] == 'g';
  }

  lemma CheckedRouter(w: World, m: Map, paths: seq<string>)
    requires HasAction(m) && paths != [] && Checked(w, m, paths).Some? && Checked(w, m, paths).value.Sent?
    ensures !Checked(w, m, paths).value.output.message.Raw?
    ensures Get(Checked(w, m, paths).value.output.message.fields, "RouterId") == Get(m, "RouterId")
  {
    KeysApart();
    hide FoundAll, Searched, PathsText, Level, Verified;
  }

  lemma {:induction false} ScanRouter(w: World, m: Map, root: string, filters: seq<Filter>)
    ensures var s := ScanFilters(w, m, root, filters);
            s.Done? && s.outcome.Some? && s.outcome.value.Sent? ==>
              !s.outcome.value.output.message.Raw?
                  && Get(s.outcome.value.output.message.fields, "RouterId") == Get(m, "RouterId")
  {
    KeysApart();
    hide UnderRoot, UrlToPath, TokenContext, ParseStrings;
    if filters != [] {
      ScanRouter(w, m, root, filters[1..]);
    }
  }

  /** The fields of a message; those of a text that is passed on as it is are the ones that it decodes to. */
  function FieldsOf(message: Message): Map {
    match message
    case Raw(text) => Fields(Received(text))
    case Finalized(fields) => fields
    case WithMetadata(fields, _) => fields
  }

  lemma RawIsRequest(w: World, text: string, m: Map)
    requires Served(w, Request(text, Some(m))).Some? && Served(w, Request(text, Some(m))).value.Sent?
    requires Served(w, Request(text, Some(m))).value.output.message.Raw?
    ensures Served(w, Request(text, Some(m))).value.output.message == Raw(text)
  {
    hide ValidRequest, UrlToPath, Issued;
    if HasAction(m) && (Has(m, "path") ==> m["path"].Str?) {
      WithDotsKeeps(m, "action");
      if Issued(w, WithDots(m)).Some? && Issued(w, WithDots(m)).value.Sent? && HasAction(WithDots(m)) {
        IssuedRouter(w, WithDots(m));
      }
    }
  }

  /** After any history, the message for a request names the client that asked exactly when the client's members hold no
      RouterId of another text. (With a null there an error reply names the client that was refused last.) */
  lemma AnswerRouter(calls: seq<Call>, call: Call, message: string, mgrId: int, clientId: int)
    requires ClientMembers(message).Some? && call.request == Sent(message, mgrId, clientId)
    requires After(calls).Some? && Served(call.w, call.request).Some?
    requires Lookup(ClientMembers(message).value, "RouterId") != Some(Lit("null"))
    ensures var (post, _) := Replied(call, After(calls).value.0).value;
            var id := Lookup(ClientMembers(message).value, "RouterId");
            Get(FieldsOf(post.message), "RouterId") == Some(Value.Str(RouterId(mgrId, clientId)))
            <==> id == None || id == Some(Json.Str(RouterId(mgrId, clientId)))
  {
    var request, id, ms := call.request, RouterId(mgrId, clientId), ClientMembers(message).value;
    SentIs(message, mgrId, clientId);
    hide RouterId, Lookup, ClientMembers, Sent, Served, ToValue, After, Refusals, LastWith;
    RoutedField(message, mgrId, clientId, "RouterId");
    WordsDiffer();
    if Lookup(ms, "RouterId").Some? {
      ToValueStr(Lookup(ms, "RouterId").value, id);
      NotNull(Lookup(ms, "RouterId").value);
    }
    var m := request.decoded.value;
    assert Has(m, "RouterId") && Get(m, "RouterId") == Some(m["RouterId"]);
    assert request == Request(request.text, Some(m));
    if Served(call.w, request).value.Refused? {
      assert "RouterId" in STICKY;
      ErrorReply(calls, call);
    } else if Served(call.w, request).value.output.message.Raw? {
      RawIsRequest(call.w, request.text, m);
    } else {
      ForwardedRouter(call.w, request.text, m);
    }
  }

  lemma NotNull(j: Json)
    ensures ToValue(j) == Null <==> j == Lit("null")
  {
  }

  /** After any history, a text that does not start with a nonempty object is answered under the router id that was
      refused last. */
  lemma UndecodedRouter(calls: seq<Call>, call: Call, message: string, mgrId: int, clientId: int)
    requires ClientMembers(message) == None && call.request == Sent(message, mgrId, clientId) && After(calls).Some?
    ensures Served(call.w, call.request).Some? && Served(call.w, call.request).value.Refused?
    ensures var (post, _) := Replied(call, After(calls).value.0).value;
            post.channel == Backend(call.tD)
            && Get(FieldsOf(post.message), "RouterId") == LastWith(Refusals(calls), "RouterId")
  {
    DecodedClient(message, mgrId, clientId);
    hide ClientMembers, Sent, After, Refusals, LastWith;
    UndecodedRefused(call.w, call.request);
    hide Served;
    ErrorReply(calls, call);
    assert "RouterId" in STICKY;
  }

  lemma UndecodedRefused(w: World, request: Request)
    requires request.decoded == None || request.decoded == Some(map[])
    ensures Served(w, request).Some? && Served(w, request).value.Refused? && Fields(request) == map[]
  {
  }

  // ---------------------------------------------------------------- what is left over from other requests

  /** A request with an action that does not exist. */
  function Unknown(more: seq<Member>): seq<Member> {
    [Member("action", Json.Str("x"))] + more
  }

  lemma UnknownRefused(w: World, more: seq<Member>, message: string, mgrId: int, clientId: int)
    requires ClientMembers(message) == Some(Unknown(more)) && Lookup(more, "action") == None
    ensures Served(w, Sent(message, mgrId, clientId)) == Some(Refused(1, ""))
    ensures Sent(message, mgrId, clientId).decoded.Some?
  {
    var request := Sent(message, mgrId, clientId);
    LookupAppend([Member("action", Json.Str("x"))], more, "action");
    LookupOne(Member("action", Json.Str("x")), "action");
    WordsDiffer();
    hide ClientMembers, Lookup, Sent;
    ClientField(message, mgrId, clientId, "action");
    NoSuchAction(request.text);
    hide ValidRequest, Issued;
  }

  lemma NoSuchAction(text: string)
    ensures !ValidRequest(text, "x")
  {
    assert |"x"| == 1;
  }

  /** One refused request, and what the error response keeps of it. */
  lemma OneRefused(call: Call, key: string)
    requires Served(call.w, call.request).Some? && Served(call.w, call.request).value.Refused?
    requires Has(Fields(call.request), key)
    ensures After([call]).Some? && LastWith(Refusals([call]), key) == Some(Fields(call.request)[key])
  {
    hide Served, Fields, ErrorResponse, Has;
    assert [call][..0] == [];
    assert Refusals([call]) == [] + [Fields(call.request)];
  }

  /** A field of a refused request is shown to the next refused one that has none. */
  lemma FieldStays(before: Call, call: Call, key: string)
    requires Served(before.w, before.request).Some? && Served(before.w, before.request).value.Refused?
    requires Served(call.w, call.request).Some? && Served(call.w, call.request).value.Refused?
    requires Has(Fields(before.request), key) && !Has(Fields(call.request), key) && key in STICKY
    ensures After([before]).Some?
            && var (post, _) := Replied(call, After([before]).value.0).value;
               Get(FieldsOf(post.message), key) == Some(Fields(before.request)[key])
  {
    OneRefused(before, key);
    hide Served, Fields, After, Replied, Refusals, LastWith, Has;
    ErrorReply([before], call);
  }

  /** A client that sends {} gets its error under the router id of the client that was refused before it. */
  lemma StaleRouter(w: World, first: string, a: int, b: int, c: int, d: int, tD: nat, sD: nat)
    requires ClientMembers(first) == Some(Unknown([]))
    ensures var calls, call := [Call(w, Sent(first, a, b), tD, sD)], Call(w, Sent("{}", c, d), tD, sD);
            && After(calls).Some? && Served(w, call.request).Some? && Served(w, call.request).value.Refused?
            && var (post, _) := Replied(call, After(calls).value.0).value;
               Get(FieldsOf(post.message), "RouterId") == Some(Value.Str(RouterId(a, b)))
  {
    var before, call := Call(w, Sent(first, a, b), tD, sD), Call(w, Sent("{}", c, d), tD, sD);
    LookupNothing("action");
    UnknownRefused(w, [], first, a, b);
    EmptyRouted(c, d);
    LookupAppend([Member("action", Json.Str("x"))], [], "RouterId");
    LookupOne(Member("action", Json.Str("x")), "RouterId");
    LookupNothing("RouterId");
    WordsDiffer();
    hide Sent, ClientMembers, Served, Lookup, RouterId, After, Replied, Refusals;
    RoutedField(first, a, b, "RouterId");
    OneRefused(before, "RouterId");
    UndecodedRouter([before], call, "{}", c, d);
    hide LastWith;
  }

  /** The second of two refused requests shows the subscription of the first, which may be another client's. */
  lemma StaleSubscription(w: World, id: string, first: string, second: string, a: int, b: int, c: int, d: int, tD: nat,
                          sD: nat)
    requires ClientMembers(first) == Some(Unknown([Member("subscriptionId", Json.Str(id))]))
    requires ClientMembers(second) == Some(Unknown([]))
    ensures var calls, call := [Call(w, Sent(first, a, b), tD, sD)], Call(w, Sent(second, c, d), tD, sD);
            && After(calls).Some? && Served(w, call.request) == Some(Refused(1, ""))
            && var (post, _) := Replied(call, After(calls).value.0).value;
               Get(FieldsOf(post.message), "subscriptionId") == Some(Value.Str(id))
  {
    var m := Member("subscriptionId", Json.Str(id));
    var before, call := Call(w, Sent(first, a, b), tD, sD), Call(w, Sent(second, c, d), tD, sD);
    SubscriptionFields(id);
    UnknownRefused(w, [m], first, a, b);
    UnknownRefused(w, [], second, c, d);
    hide Sent, ClientMembers, Served, Lookup, RouterId, After, Replied, Refusals, Unknown;
    ClientField(first, a, b, "subscriptionId");
    ClientField(second, c, d, "subscriptionId");
    FieldStays(before, call, "subscriptionId");
    hide *;
  }

  lemma SubscriptionFields(id: string)
    ensures var m := Member("subscriptionId", Json.Str(id));
            && Lookup([m], "action") == None && Lookup([], "action") == None
            && Lookup(Unknown([m]), "subscriptionId") == Some(Json.Str(id))
            && Lookup(Unknown([]), "subscriptionId") == None
    ensures "subscriptionId" != "origin" && "subscriptionId" != "RouterId"
  {
    var m := Member("subscriptionId", Json.Str(id));
    assert "subscriptionId"[0] == 's' && "action"[0] == 'a' && "origin"[0] == 'o' && "RouterId"[0] == 'R';
    LookupOne(m, "action");
    LookupNothing("action");
    LookupTwo(Member("action", Json.Str("x")), m, "subscriptionId");
    LookupOne(Member("action", Json.Str("x")), "subscriptionId");
    assert Unknown([m]) == [Member("action", Json.Str("x")), m] && Unknown([]) == [Member("action", Json.Str("x"))];
    hide Lookup;
  }
}
