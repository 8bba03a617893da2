/** The router id that a transport manager puts into a request and takes out of the response. */
module Routing {
  import opened Text

  const KEY := "RouterId"

  /** strconv.Atoi without its error: 0 for what is no number, the nearest int64 for one out of range. */
  function AtoiValue(s: string): int {
    var signed := s != "" && (s[0] == '-' || s[0] == '+');
    var digits := if signed then s[1..] else s;
    if digits == "" || !AllDigits(digits) then 0
    else
      var m: int := DigitsValue(digits);
      var v := if signed && s[0] == '-' then -m else m;
      if v < MIN_INT64 then MIN_INT64 else if v > MAX_INT64 then MAX_INT64 else v
  }

  // ---------------------------------------------------------------- the code

  function RouterId(mgrId: int, clientId: int): string {
    Itoa(mgrId) + ("?" + Itoa(clientId))
  }

  /** createRouterIdProperty. */
  function Property(mgrId: int, clientId: int): string {
    "\"RouterId\":\"" + (RouterId(mgrId, clientId) + "\"")
  }

  const ORIGIN := " \"origin\":\"external\", "

  /** AddRoutingForwardRequest: the first opening brace is replaced. */
  function AddRouting(message: string, mgrId: int, clientId: int): string {
    var i := IndexOf(message, '{');
    if i < 0 then message else message[..i] + ("{" + (Property(mgrId, clientId) + ("," + (ORIGIN + message[i + 1..]))))
  }

  /** getRouterId; None for a slice outside the message. */
  function GetRouterId(response: string): Option<string> {
    var key := Find(response, KEY);
    if key == -1 then Some("")
    else
      var after := key + 9;
      if after > |response| then None
      else
        var start := NextQuote(response, after) + 1;
        if start > |response| then None
        else
          var stop := NextQuote(response, start);
          if start <= stop then Some(response[start..stop]) else None
  }

  /** extractMgrId; None for the slice in front of a missing question mark. */
  function ExtractMgrId(routerId: string): Option<int> {
    var delim := IndexOf(routerId, '?');
    if delim < 0 then None else Some(AtoiValue(routerId[..delim]))
  }

  /** RemoveInternalData: the rest of the message, and the client id; None where there is no quote in front of a key. */
  function RemoveInternalData(response: string): Option<(string, int)> {
    var start := Find(response, KEY) - 1;
    if start < 0 || start > |response| then None
    else
      var clientStart := IndexOf(response[start..], '?') + 1 + start;
      var clientStop := NextQuote(response, clientStart);
      if clientStop < clientStart || clientStop > |response| then None
      else
        var stop := IndexOf(response[clientStop..], ',') + 1 + clientStop;
        Some((response[..start] + response[stop..], AtoiValue(response[clientStart..clientStop])))
  }

  // ---------------------------------------------------------------- round trip

  predicate IsInt64(n: int) {
    MIN_INT64 <= n <= MAX_INT64
  }

  lemma AtoiValueOfItoa(n: int)
    requires IsInt64(n)
    ensures AtoiValue(Itoa(n)) == n
  {
    AtoiOfItoa(n);
  }

  lemma ItoaPlain(n: int, c: char)
    requires !IsDigit(c) && c != '-'
    ensures c !in Itoa(n)
  {
  }

  /** The response in front of the key holds no such text itself. */
  predicate FirstKey(pre: string) {
    FindFrom(pre, KEY, 0) == None
  }

  lemma {:induction false} QuoteFromFirst(s: string, i: nat, k: nat)
    requires i <= k < |s| && s[k] == QUOTE && forall j :: i <= j < k ==> s[j] != QUOTE
    ensures QuoteFrom(s, i) == Some(k)
    decreases k - i
  {
    if i < k {
      QuoteFromFirst(s, i + 1, k);
    }
  }

  /** The next quote behind a text without quotes. */
  lemma QuoteBehind(head: string, mid: string, rest: string)
    requires QUOTE !in mid
    ensures NextQuote(head + (mid + ("\"" + rest)), |head|) == |head| + |mid|
  {
    var s := head + (mid + ("\"" + rest));
    forall j | |head| <= j < |head| + |mid| ensures s[j] != QUOTE {
      assert s[j] == mid[j - |head|];
    }
    QuoteFromFirst(s, |head|, |head| + |mid|);
  }

  lemma IndexBehind(mid: string, c: char, rest: string)
    requires c !in mid
    ensures IndexOf(mid + ([c] + rest), c) == |mid|
  {
    var s := mid + ([c] + rest);
    assert s[..|mid|] == mid;
    IndexOfUnique(s, c, |mid|);
  }

  /** No occurrence of the key straddles the quote that stands in front of it. */
  lemma KeyFound(pre: string, rest: string)
    requires FirstKey(pre)
    ensures Find(pre + ("\"" + (KEY + rest)), KEY) == |pre| + 1
  {
    var s, k := pre + ("\"" + (KEY + rest)), |pre| + 1;
    FindNone(pre, KEY, 0);
    assert OccursAt(s, KEY, k);
    forall j: nat | j < k ensures !OccursAt(s, KEY, j) {
      NotBefore(pre, rest, j);
    }
    FindFirst(s, KEY, 0, k);
  }

  lemma NotBefore(pre: string, rest: string, j: nat)
    requires j <= |pre| && !OccursAt(pre, KEY, j)
    ensures !OccursAt(pre + ("\"" + (KEY + rest)), KEY, j)
  {
    var s := pre + ("\"" + (KEY + rest));
    if j + |KEY| <= |pre| {
      assert s[j..j + |KEY|] == pre[j..j + |KEY|];
    } else if OccursAt(s, KEY, j) {
      assert s[j..j + |KEY|][|pre| - j] == s[|pre|] == QUOTE;
      NoQuoteInKey(|pre| - j);
    }
  }

  lemma NoQuoteInKey(i: nat)
    requires i < |KEY|
    ensures KEY[i] != QUOTE
  {
  }

  /** A response with the property somewhere in it. */
  function Response(pre: string, mgrId: int, clientId: int, rest: string): string {
    pre + ("\"" + (KEY + ("\":\"" + (RouterId(mgrId, clientId) + ("\"" + rest)))))
  }

  const FIRST := "\"RouterId\""
  const SECOND := "\"RouterId\":\""

  lemma PartLengths(pre: string)
    ensures |pre + FIRST| == |pre| + 10 && |pre + SECOND| == |pre| + 12 && QUOTE !in ":"
  {
  }

  /** The same response, split at the places where the code looks. */
  lemma Views(pre: string, mgrId: int, clientId: int, rest: string)
    ensures var s, id := Response(pre, mgrId, clientId, rest), RouterId(mgrId, clientId);
            && s == (pre + FIRST) + (":" + ("\"" + (id + ("\"" + rest))))
            && s == (pre + SECOND) + (id + ("\"" + rest))
            && s == (pre + SECOND + (Itoa(mgrId) + "?")) + (Itoa(clientId) + ("\"" + rest))
            && s[|pre|..] == (SECOND + Itoa(mgrId)) + (['?'] + (Itoa(clientId) + ("\"" + rest)))
            && s[..|pre|] == pre
  {
    hide Itoa;
  }

  lemma KeyOfResponse(pre: string, mgrId: int, clientId: int, rest: string)
    requires FirstKey(pre)
    ensures Find(Response(pre, mgrId, clientId, rest), KEY) == |pre| + 1
  {
    KeyFound(pre, "\":\"" + (RouterId(mgrId, clientId) + ("\"" + rest)));
    hide FirstKey, Find, KEY, RouterId;
  }

  lemma RouterIdPlain(mgrId: int, clientId: int)
    ensures QUOTE !in RouterId(mgrId, clientId)
    ensures IsInt64(mgrId) ==> ExtractMgrId(RouterId(mgrId, clientId)) == Some(mgrId)
  {
    ItoaPlain(mgrId, QUOTE);
    ItoaPlain(clientId, QUOTE);
    ItoaPlain(mgrId, '?');
    if IsInt64(mgrId) {
      AtoiValueOfItoa(mgrId);
    }
    hide Itoa, AtoiValue, IndexOf;
    var mgr, client := Itoa(mgrId), Itoa(clientId);
    IndexBehind(mgr, '?', client);
    assert (mgr + ("?" + client))[..|mgr|] == mgr;
  }

  lemma Slices(head: string, mid: string, tail: string)
    ensures (head + (mid + tail))[|head|..|head| + |mid|] == mid
    ensures (head + (mid + tail))[|head| + |mid|..] == tail
  {
  }

  lemma ReadAt(s: string, key: nat, start: nat, stop: nat)
    requires Find(s, KEY) == key && key + 9 <= |s| && start <= stop <= |s|
    requires NextQuote(s, key + 9) + 1 == start && NextQuote(s, start) == stop
    ensures GetRouterId(s) == Some(s[start..stop])
  {
    hide Find, NextQuote, KEY;
  }

  /** The core reads back the manager that the request came from. */
  lemma ManagerReadBack(pre: string, mgrId: int, clientId: int, rest: string)
    requires FirstKey(pre) && IsInt64(mgrId)
    ensures GetRouterId(Response(pre, mgrId, clientId, rest)) == Some(RouterId(mgrId, clientId))
    ensures ExtractMgrId(RouterId(mgrId, clientId)) == Some(mgrId)
  {
    hide *;
    var s, id := Response(pre, mgrId, clientId, rest), RouterId(mgrId, clientId);
    RouterIdPlain(mgrId, clientId);
    Views(pre, mgrId, clientId, rest);
    KeyOfResponse(pre, mgrId, clientId, rest);
    PartLengths(pre);
    QuoteBehind(pre + FIRST, ":", id + ("\"" + rest));
    QuoteBehind(pre + SECOND, id, rest);
    Slices(pre + SECOND, id, "\"" + rest);
    ReadAt(s, |pre| + 1, |pre| + 12, |pre| + 12 + |id|);
  }

  /** What is left once the property has been taken out. */
  function Remainder(rest: string): string {
    var i := IndexOf(rest, ',');
    if i < 0 then "\"" + rest else rest[i + 1..]
  }

  lemma RemoveAt(s: string, start: nat, mark: nat, stop: nat)
    requires Find(s, KEY) == start + 1 && start <= |s| && IndexOf(s[start..], '?') == mark
    requires mark + 1 + start <= stop <= |s| && NextQuote(s, mark + 1 + start) == stop
    ensures RemoveInternalData(s)
         == Some((s[..start] + s[stop..][IndexOf(s[stop..], ',') + 1..], AtoiValue(s[mark + 1 + start..stop])))
  {
    hide Find, NextQuote, KEY, IndexOf, AtoiValue;
    DropTwice(s, stop, IndexOf(s[stop..], ',') + 1);
  }

  lemma DropTwice(s: string, a: nat, b: nat)
    requires a + b <= |s|
    ensures s[a..][b..] == s[b + a..]
  {
  }

  /** The manager takes the property out: it reads back the client, and leaves the text in front of the property and
      what stands behind the next comma; if there is none, the property's last quote and all behind it stay. */
  lemma ClientReadBack(pre: string, mgrId: int, clientId: int, rest: string)
    requires FirstKey(pre) && IsInt64(clientId)
    ensures RemoveInternalData(Response(pre, mgrId, clientId, rest)) == Some((pre + Remainder(rest), clientId))
  {
    hide *;
    var s, mark := Response(pre, mgrId, clientId, rest), 12 + |Itoa(mgrId)|;
    AtoiValueOfItoa(clientId);
    KeyOfResponse(pre, mgrId, clientId, rest);
    MarkOfResponse(pre, mgrId, clientId, rest);
    var stop := ClientOfResponse(pre, mgrId, clientId, rest);
    CommaBehind(rest);
    RemoveAt(s, |pre|, mark, stop);
  }

  lemma MarkOfResponse(pre: string, mgrId: int, clientId: int, rest: string)
    ensures var s := Response(pre, mgrId, clientId, rest);
            |pre| <= |s| && s[..|pre|] == pre && IndexOf(s[|pre|..], '?') == 12 + |Itoa(mgrId)|
  {
    hide *;
    QuoteIsOther();
    ItoaPlain(mgrId, '?');
    Views(pre, mgrId, clientId, rest);
    NoQuestionMark(Itoa(mgrId));
    IndexBehind(SECOND + Itoa(mgrId), '?', Itoa(clientId) + ("\"" + rest));
  }

  lemma ClientOfResponse(pre: string, mgrId: int, clientId: int, rest: string) returns (stop: nat)
    ensures var s, start := Response(pre, mgrId, clientId, rest), 12 + |Itoa(mgrId)| + 1 + |pre|;
            start <= stop <= |s| && NextQuote(s, start) == stop
            && s[start..stop] == Itoa(clientId) && s[stop..] == "\"" + rest
  {
    hide *;
    var head, client := pre + SECOND + (Itoa(mgrId) + "?"), Itoa(clientId);
    QuoteIsOther();
    ItoaPlain(clientId, QUOTE);
    Views(pre, mgrId, clientId, rest);
    PartLengths(pre);
    QuoteBehind(head, client, rest);
    Slices(head, client, "\"" + rest);
    stop := |head| + |client|;
  }

  lemma QuoteIsOther()
    ensures !IsDigit(QUOTE) && QUOTE != '-' && !IsDigit('?')
  {
  }

  lemma NoQuestionMark(mgr: string)
    requires '?' !in mgr
    ensures '?' !in SECOND + mgr && |SECOND + mgr| == 12 + |mgr|
  {
  }

  lemma CommaBehind(rest: string)
    ensures ("\"" + rest)[IndexOf("\"" + rest, ',') + 1..] == Remainder(rest)
  {
    assert ("\"" + rest)[1..] == rest;
  }

  /** For all ids and any text behind the brace, which need not be JSON: the ids inserted into a request are read back
      from it, and taking them out leaves the rest of the message, with its origin. */
  lemma RoutingRoundTrip(pre: string, body: string, mgrId: int, clientId: int)
    requires '{' !in pre && FirstKey(pre + "{") && IsInt64(mgrId) && IsInt64(clientId)
    ensures var s := AddRouting(pre + ("{" + body), mgrId, clientId);
            && GetRouterId(s) == Some(RouterId(mgrId, clientId))
            && ExtractMgrId(RouterId(mgrId, clientId)) == Some(mgrId)
            && RemoveInternalData(s) == Some((pre + ("{" + (ORIGIN + body)), clientId))
  {
    hide *;
    var rest := "," + (ORIGIN + body);
    RemainderBehindComma(ORIGIN + body);
    Inserted(pre, body, mgrId, clientId);
    ManagerReadBack(pre + "{", mgrId, clientId, rest);
    ClientReadBack(pre + "{", mgrId, clientId, rest);
    assert pre + "{" + (ORIGIN + body) == pre + ("{" + (ORIGIN + body));
  }

  lemma Inserted(pre: string, body: string, mgrId: int, clientId: int)
    requires '{' !in pre
    ensures AddRouting(pre + ("{" + body), mgrId, clientId)
            == Response(pre + "{", mgrId, clientId, "," + (ORIGIN + body))
  {
    hide RouterId, ORIGIN, IndexOf, KEY;
    var message := pre + (['{'] + body);
    IndexBehind(pre, '{', body);
    assert message[..|pre|] == pre && message[|pre| + 1..] == body;
    PropertyIs(mgrId, clientId, "," + (ORIGIN + body));
    hide Property;
    assert Response(pre + "{", mgrId, clientId, "," + (ORIGIN + body))
        == pre + ("{" + (Property(mgrId, clientId) + ("," + (ORIGIN + body))));
  }

  lemma RemainderBehindComma(tail: string)
    ensures Remainder("," + tail) == tail
  {
    assert ("," + tail)[1..] == tail && IndexOf("," + tail, ',') == 0;
  }

  lemma PropertyIs(mgrId: int, clientId: int, rest: string)
    ensures Property(mgrId, clientId) + rest == "\"" + (KEY + ("\":\"" + (RouterId(mgrId, clientId) + ("\"" + rest))))
  {
    hide RouterId;
  }

  /** What should be left behind the property: all but the separating comma. */
  function Dropped(rest: string): string {
    if rest == "" then "" else if rest[0] == ',' then rest[1..] else rest
  }

  /** Taking the property out of a response gives the response without it exactly when a comma follows it. */
  lemma RemovedIff(pre: string, mgrId: int, clientId: int, rest: string)
    requires FirstKey(pre) && IsInt64(clientId)
    ensures RemoveInternalData(Response(pre, mgrId, clientId, rest)) == Some((pre + Dropped(rest), clientId))
            <==> rest != "" && rest[0] == ','
  {
    ClientReadBack(pre, mgrId, clientId, rest);
    hide Response, RemoveInternalData, FindFrom;
    if rest != "" && rest[0] == ',' {
      assert IndexOf(rest, ',') == 0;
    } else {
      assert |Remainder(rest)| != |Dropped(rest)|;
      assert |pre + Remainder(rest)| != |pre + Dropped(rest)|;
    }
  }

  /** The routed message written out: the router id and the origin behind its first brace, and without a brace
      nothing. */
  lemma RoutedMessage(pre: string, body: string, mgrId: int, clientId: int)
    requires '{' !in pre
    ensures AddRouting(pre, mgrId, clientId) == pre
    ensures AddRouting(pre + ("{" + body), mgrId, clientId)
         == pre + ("{\"RouterId\":\""
                   + (Itoa(mgrId) + ("?" + (Itoa(clientId) + ("\", \"origin\":\"external\", " + body)))))
  {
    var message := pre + (['{'] + body);
    IndexBehind(pre, '{', body);
    assert message[..|pre|] == pre && message[|pre| + 1..] == body;
    Spelled(Itoa(mgrId), Itoa(clientId), body);
    hide Itoa, IndexOf;
  }

  lemma Spelled(mgr: string, client: string, body: string)
    ensures "{" + (("\"RouterId\":\"" + ((mgr + ("?" + client)) + "\"")) + ("," + (ORIGIN + body)))
         == "{\"RouterId\":\"" + (mgr + ("?" + (client + ("\", \"origin\":\"external\", " + body))))
  {
    assert "{" + "\"RouterId\":\"" == "{\"RouterId\":\"";
    assert "\"" + ("," + ORIGIN) == "\", \"origin\":\"external\", ";
    hide ORIGIN;
    Regrouped("{", "\"RouterId\":\"", mgr, client, "\"", ",", ORIGIN, body);
  }

  lemma Regrouped(a: string, b: string, mgr: string, client: string, quote: string, comma: string, o: string,
                  body: string)
    ensures a + ((b + ((mgr + ("?" + client)) + quote)) + (comma + (o + body)))
         == a + b + (mgr + ("?" + (client + (quote + (comma + o) + body))))
  {
  }
}
