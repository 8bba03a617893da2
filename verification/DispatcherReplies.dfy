/** The texts of two kinds of replies: an error reply on its way through the transport manager, and the answer to a
    metadata request. */
module DispatcherReplies {
  import opened Text
  import opened Json
  import opened Routing
  import opened Dispatcher
  import opened DispatcherRuns
  import TreePrinter

  // ---------------------------------------------------------------- json.Marshal of a map

  predicate Below(a: string, b: string) {
    Leq(a, b) && a != b
  }

  /** The members that json.Marshal prints for a map: keys ascending. The text of numbers and of objects is not looked
      at. */
  predicate MarshalOf(m: Map, ms: seq<Member>) {
    && (forall i, j :: 0 <= i < j < |ms| ==> Below(ms[i].key, ms[j].key))
    && (forall i :: 0 <= i < |ms| ==>
          ms[i].key in m && (m[ms[i].key].Str? ==> ms[i].value == Json.Str(m[ms[i].key].text)))
    && (forall key :: key in m ==> exists i :: 0 <= i < |ms| && ms[i].key == key)
  }

  // ---------------------------------------------------------------- error replies

  const ERROR_KEYS := {"RouterId", "action", "requestId", "subscriptionId", "error", "ts"}

  lemma RouterIdFirst(key: string)
    requires key in ERROR_KEYS && key != "RouterId"
    ensures !Leq(key, "RouterId") && key[0] != 'R'
  {
    assert key[0] == "action"[0] || key[0] == "requestId"[0] || key[0] == "subscriptionId"[0] || key[0] == "error"[0]
        || key[0] == "ts"[0];
  }

  /** The router id comes first. */
  lemma FirstIsRouterId(m: Map, ms: seq<Member>)
    requires MarshalOf(m, ms) && m.Keys <= ERROR_KEYS && "RouterId" in m
    ensures ms != [] && ms[0].key == "RouterId"
  {
    hide Leq, ERROR_KEYS;
    var i :| 0 <= i < |ms| && ms[i].key == "RouterId";
    if i > 0 {
      assert Below(ms[0].key, ms[i].key);
      assert ms[0].key in m.Keys;
      RouterIdFirst(ms[0].key);
    }
  }

  lemma IdShown(mgrId: int, clientId: int)
    ensures Shown(RouterId(mgrId, clientId), COMPACT) == RouterId(mgrId, clientId)
    ensures Shown("RouterId", COMPACT) == "RouterId"
  {
    var id := RouterId(mgrId, clientId);
    assert forall i :: 0 <= i < |id| ==> IsDigit(id[i]) || id[i] == '-' || id[i] == '?';
    Unescaped(id);
    hide Itoa;
    Unescaped("RouterId");
  }

  lemma {:induction false} Unescaped(s: string)
    requires forall i :: 0 <= i < |s| ==> IsDigit(s[i]) || s[i] == '-' || s[i] == '?' || 'a' <= s[i] <= 'z'
                                          || 'A' <= s[i] <= 'Z'
    ensures Escape(s, Full) == s
  {
    if s != "" {
      Unescaped(s[1..]);
      assert s == [s[0]] + s[1..];
    }
  }

  /** The text of an object whose first member is the router id. */
  lemma ReplyText(others: seq<Member>, mgrId: int, clientId: int)
    requires others != []
    ensures Print(Obj([Member("RouterId", Json.Str(RouterId(mgrId, clientId)))] + others), COMPACT)
         == Response("{", mgrId, clientId, "," + PrintMembers(others, COMPACT))
    ensures Print(Obj(others), COMPACT) == "{" + PrintMembers(others, COMPACT)
  {
    var m, id := Member("RouterId", Json.Str(RouterId(mgrId, clientId))), RouterId(mgrId, clientId);
    var ms := [m] + others;
    assert ms[1..] == others && |ms| > 1 && ms[0] == m;
    IdShown(mgrId, clientId);
    MembersUnfold(ms, COMPACT);
    Opened(ms);
    Opened(others);
    hide PrintMembers, Shown, RouterId;
    IdPrinted(id);
    hide Print;
    ReplyParts(id, PrintMembers(others, COMPACT));
    assert KEY == "RouterId";
  }

  lemma IdPrinted(id: string)
    requires Shown(id, COMPACT) == id
    ensures Print(Json.Str(id), COMPACT) == "\"" + id + "\""
  {
  }

  lemma Opened(ms: seq<Member>)
    requires ms != []
    ensures Print(Obj(ms), COMPACT) == "{" + PrintMembers(ms, COMPACT)
  {
    hide PrintMembers;
    assert "{" + "" + PrintMembers(ms, COMPACT) == "{" + PrintMembers(ms, COMPACT);
  }

  lemma ReplyParts(id: string, rest: string)
    ensures "{" + ("\"" + "RouterId" + "\":" + ("\"" + id + "\"") + ("," + "" + rest))
         == "{" + ("\"" + ("RouterId" + ("\":\"" + (id + ("\"" + ("," + rest))))))
  {
  }

  lemma BraceHoldsNoKey()
    ensures FirstKey("{")
  {
    assert FindFrom("{", KEY, 0) == None;
  }

  /** The manager reads the client from such a text, and passes on the object without its router id. */
  lemma RouterIdRemoved(others: seq<Member>, mgrId: int, clientId: int)
    requires others != [] && IsInt64(clientId)
    ensures RemoveInternalData(Print(Obj([Member("RouterId", Json.Str(RouterId(mgrId, clientId)))] + others), COMPACT))
         == Some((Print(Obj(others), COMPACT), clientId))
  {
    ReplyText(others, mgrId, clientId);
    BraceHoldsNoKey();
    hide *;
    ClientReadBack("{", mgrId, clientId, "," + PrintMembers(others, COMPACT));
    RemainderBehindComma(PrintMembers(others, COMPACT));
  }

  lemma ReplyKeys(calls: seq<Call>, call: Call)
    requires After(calls).Some? && Served(call.w, call.request).Some? && Served(call.w, call.request).value.Refused?
    ensures var (post, _) := Replied(call, After(calls).value.0).value;
            post.message.Finalized? && post.message.fields.Keys <= ERROR_KEYS && "ts" in post.message.fields
  {
    History(calls);
    hide Served, Fields, ErrorResponse;
    var err := After(calls).value.0;
    var Refused(index, alt) := Served(call.w, call.request).value;
    ErrorFields(err, Fields(call.request), index, alt, call.w.now);
    KeysDiffer();
  }

  /** After any history, an error reply that shows the router id of a client reaches the manager as a text from which it
      reads that client, and the client gets all other fields. */
  lemma ErrorReplyText(calls: seq<Call>, call: Call, ms: seq<Member>, mgrId: int, clientId: int)
    requires After(calls).Some? && Served(call.w, call.request).Some? && Served(call.w, call.request).value.Refused?
    requires var (post, _) := Replied(call, After(calls).value.0).value;
             post.message.Finalized? && MarshalOf(post.message.fields, ms)
             && Get(post.message.fields, "RouterId") == Some(Value.Str(RouterId(mgrId, clientId)))
    requires IsInt64(clientId)
    ensures |ms| > 1 && RemoveInternalData(Print(Obj(ms), COMPACT)) == Some((Print(Obj(ms[1..]), COMPACT), clientId))
    ensures forall i :: 1 <= i < |ms| ==> ms[i].key != "RouterId"
  {
    ReplyKeys(calls, call);
    var (post, _) := Replied(call, After(calls).value.0).value;
    var m := post.message.fields;
    hide Replied, After, Served, RouterId, Print, RemoveInternalData, ERROR_KEYS, Leq;
    FirstIsRouterId(m, ms);
    assert "ts"[0] != "RouterId"[0];
    var i :| 0 <= i < |ms| && ms[i].key == "ts";
    assert ms == [ms[0]] + ms[1..] && ms[0] == Member("RouterId", Json.Str(RouterId(mgrId, clientId)));
    RouterIdRemoved(ms[1..], mgrId, clientId);
    assert forall k :: 1 <= k < |ms| ==> Below(ms[0].key, ms[k].key);
  }

  // ---------------------------------------------------------------- metadata

  /** AddKeyValue, for a message that is not empty. */
  function AddKeyValue(message: string, key: string, value: string): string
    requires message != ""
  {
    if value == "" then message
    else if value[0] == '{' then Cut(message) + (", \"" + key + "\":" + value + "}")
    else Cut(message) + (", \"" + key + "\":\"" + value + "\"}")
  }

  lemma FrontStep(m: Member, rest: string)
    requires ReadableText(m.key, Full) && Readable(m.value, Full)
    ensures var text := "\"" + Shown(m.key, COMPACT) + "\":" + Print(m.value, COMPACT);
            ParseMembers(text + ("," + rest)) == Cons(m, ParseMembers(rest))
  {
    QuoteIsNoSpace();
    hide IsSpace, IsLiteralChar, Print, Shown, ReadableText, ParseMembers, ParseValue;
    var after := "," + rest;
    ValueRoundTrip(m.value, COMPACT, after);
    MemberStep(m.key, COMPACT, m.value, Print(m.value, COMPACT), after);
    assert after[1..] == rest;
    Lined(Shown(m.key, COMPACT), Print(m.value, COMPACT), after);
  }

  lemma Lined(key: string, value: string, after: string)
    ensures "\"" + key + "\":" + value + after == "\"" + (key + "\"" + (":" + (value + after)))
  {
  }

  /** Printed members, and others behind them. */
  lemma {:induction false} MembersOn(ms: seq<Member>, rest: string)
    requires ms != []
    requires forall i :: 0 <= i < |ms| ==> ReadableText(ms[i].key, Full) && Readable(ms[i].value, Full)
    ensures PrintMembers(ms, COMPACT) != ""
    ensures ParseMembers(Cut(PrintMembers(ms, COMPACT)) + ("," + rest)) == Prepend(ms, ParseMembers(rest))
  {
    var text := "\"" + Shown(ms[0].key, COMPACT) + "\":" + Print(ms[0].value, COMPACT);
    MembersUnfold(ms, COMPACT);
    hide Print, Shown, ReadableText, Readable, ParseMembers, PrintMembers;
    if |ms| == 1 {
      assert Cut(text + "}") == text;
      FrontStep(ms[0], rest);
      PrependOne(ms[0], ParseMembers(rest));
      assert ms == [ms[0]];
    } else {
      var more := PrintMembers(ms[1..], COMPACT);
      MembersOn(ms[1..], rest);
      CutInner(text, more, "," + rest);
      FrontStep(ms[0], Cut(more) + ("," + rest));
      PrependHead(ms[0], ms[1..], ParseMembers(rest));
      assert ms == [ms[0]] + ms[1..];
    }
  }

  lemma CutInner(text: string, more: string, rest: string)
    requires more != ""
    ensures Cut(text + ("," + "" + more)) + rest == text + ("," + (Cut(more) + rest))
  {
    assert Cut(text + ("," + "" + more)) == text + ("," + Cut(more));
  }

  lemma PrependOne(m: Member, o: Option<(seq<Member>, string)>)
    ensures Prepend([m], o) == Cons(m, o)
  {
  }

  lemma PrependHead(m: Member, ms: seq<Member>, o: Option<(seq<Member>, string)>)
    ensures Prepend([m] + ms, o) == Cons(m, Prepend(ms, o))
  {
    assert o.Some? ==> [m] + ms + o.value.0 == [m] + (ms + o.value.0);
  }

  lemma MetadataRest(value: string)
    ensures match ParseValue(value + "}")
            case None => ParseMembers(" \"metadata\":" + value + "}") == None
            case Some((j, rest)) =>
              rest == "}" ==> ParseMembers(" \"metadata\":" + value + "}") == Some(([Member("metadata", j)], ""))
  {
    LettersRaw("metadata");
    QuoteIsNoSpace();
    MetadataParts(value);
    hide *;
    var line := "\"" + ("metadata" + ("\":" + (value + "}")));
    SpaceSkipped(line);
    match ParseValue(value + "}")
    case None =>
      TreePrinter.ValueFails("metadata", value + "}");
    case Some((j, rest)) =>
      if rest == "}" {
        MetadataRead(j, value);
      }
  }

  lemma SpaceSkipped(line: string)
    ensures ParseMembers(" " + line) == ParseMembers(line)
  {
    SkipInMembers(" ", line);
    hide ParseMembers;
  }

  lemma MetadataParts(value: string)
    ensures " \"metadata\":" + value + "}" == " " + ("\"" + ("metadata" + ("\":" + (value + "}"))))
  {
  }

  lemma MetadataRead(j: Json, value: string)
    requires RawText("metadata") && ParseValue(value + "}") == Some((j, "}"))
    ensures ParseMembers("\"" + ("metadata" + ("\":" + (value + "}")))) == Some(([Member("metadata", j)], ""))
  {
    QuoteIsNoSpace();
    MemberStep("metadata", UNESCAPED, j, value, "}");
    hide ParseMembers, ParseValue;
    assert "\"" + ("metadata" + "\"" + (":" + (value + "}"))) == "\"" + ("metadata" + ("\":" + (value + "}")));
  }

  lemma MessageParts(ms: seq<Member>, value: string)
    requires ms != [] && PrintMembers(ms, COMPACT) != "" && value != "" && value[0] == '{'
    ensures AddKeyValue(Print(Obj(ms), COMPACT), "metadata", value)
         == "{" + (Cut(PrintMembers(ms, COMPACT)) + ("," + (" \"metadata\":" + value + "}")))
  {
    Opened(ms);
    hide PrintMembers, Print;
    CutBrace(PrintMembers(ms, COMPACT));
    MetadataKey(value);
    hide Cut;
    Enclosed(Cut(PrintMembers(ms, COMPACT)), "," + (" \"metadata\":" + value + "}"));
  }

  lemma CutBrace(p: string)
    requires p != ""
    ensures Cut("{" + p) == "{" + Cut(p)
  {
  }

  lemma MetadataKey(value: string)
    ensures ", \"" + "metadata" + "\":" + value + "}" == "," + (" \"metadata\":" + value + "}")
  {
    assert ", \"" + "metadata" + "\":" == ", \"metadata\":";
    assert ", \"metadata\":" + value + "}" == "," + (" \"metadata\":" + value + "}");
  }

  lemma Enclosed(p: string, rest: string)
    ensures "{" + p + rest == "{" + (p + rest)
  {
  }

  /** The answer to a metadata request, the tree put behind the printed message: one JSON object with the message's
      members and the tree, if no printed node of the tree has only children of unknown type; if one has, it is no
      JSON. */
  lemma MetadataText(ms: seq<Member>, n: TreePrinter.Node, depth: int)
    requires ms != [] && forall i :: 0 <= i < |ms| ==> ReadableText(ms[i].key, Full) && Readable(ms[i].value, Full)
    requires TreePrinter.RawTree(n) && TreePrinter.TreeText(Some(n), depth) != ""
    ensures var levels := TreePrinter.Levels(depth);
            levels > 0
            && Parse(AddKeyValue(Print(Obj(ms), COMPACT), "metadata", TreePrinter.TreeText(Some(n), depth)))
               == if TreePrinter.Healthy(n, levels) then
                    Some(Obj(ms + [Member("metadata", Obj([TreePrinter.Tree(n, levels)]))]))
                  else None
  {
    var value := TreePrinter.TreeText(Some(n), depth);
    TreePrinter.TextInPlace(n, depth, "}");
    MembersOn(ms, " \"metadata\":" + value + "}");
    MessageParts(ms, value);
    MembersStart(ms, COMPACT);
    hide *;
    MetadataRest(value);
    var body := Cut(PrintMembers(ms, COMPACT)) + ("," + (" \"metadata\":" + value + "}"));
    MembersFirst(ms, " \"metadata\":" + value + "}");
    BraceParsed(body);
    Behind(ms, ParseMembers(" \"metadata\":" + value + "}"), "{" + body, body);
  }

  lemma MembersFirst(ms: seq<Member>, rest: string)
    requires ms != []
    ensures PrintMembers(ms, COMPACT) != ""
    ensures Cut(PrintMembers(ms, COMPACT)) + ("," + rest) != ""
    ensures (Cut(PrintMembers(ms, COMPACT)) + ("," + rest))[0] == QUOTE
  {
    MembersUnfold(ms, COMPACT);
    hide PrintMembers, Print, Shown;
  }

  lemma Behind(ms: seq<Member>, o: Option<(seq<Member>, string)>, text: string, body: string)
    requires ParseMembers(body) == Prepend(ms, o) && (o.Some? ==> o.value.1 == "")
    requires ParseValue(text)
          == match ParseMembers(body) case None => None case Some((xs, rest)) => Some((Obj(xs), rest))
    ensures Parse(text) == match o case None => None case Some((more, _)) => Some(Obj(ms + more))
  {
    assert Skip("") == "";
    hide ParseMembers, ParseValue, Skip;
  }
}
