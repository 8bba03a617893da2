/** JSON web tokens: how claims are put into the payload, and how one is found in a full token. */
module Claims {
  import opened Text
  import opened Json

  datatype Claim = Claim(key: string, value: string)

  // ---------------------------------------------------------------- JsonRecursiveMarshall

  /** A value that starts with a brace goes in as it is, any other in quotes. */
  function ValueText(value: string): string {
    if value != "" && value[0] == '{' then value else "\"" + value + "\""
  }

  function Entry(c: Claim): string {
    "\"" + c.key + "\":" + ValueText(c.value)
  }

  /** The payload with one more claim: nothing changes for an empty key or value. */
  function Marshalled(plain: string, c: Claim): string {
    if c.key == "" || c.value == "" then plain
    else if plain == "" then "{" + Entry(c) + "}"
    else plain[..|plain| - 1] + "," + Entry(c) + "}"
  }

  function PayloadOf(claims: seq<Claim>): string {
    if claims == [] then "" else Marshalled(PayloadOf(claims[..|claims| - 1]), claims[|claims| - 1])
  }

  class JsonWebToken {
    var Payload: string

    constructor ()
      ensures Payload == ""
    {
      Payload := "";
    }

    method AddClaim(key: string, value: string)
      modifies this`Payload
      ensures Payload == Marshalled(old(Payload), Claim(key, value))
    {
      Payload := JsonRecursiveMarshall(key, value, Payload);
    }

    method JsonRecursiveMarshall(key: string, value: string, jplain: string) returns (r: string)
      ensures r == Marshalled(jplain, Claim(key, value))
    {
      if key == "" || value == "" {
        return jplain;
      }
      var text := value;
      if text[0] != '{' {
        text := "\"" + text + "\"";
      }
      if jplain == "" {
        r := "{\"" + key + "\":" + text + "}";
        assert r == "{" + ("\"" + key + "\":" + text) + "}";
      } else {
        r := jplain[..|jplain| - 1] + ",\"" + key + "\":" + text + "}";
        assert r == jplain[..|jplain| - 1] + "," + ("\"" + key + "\":" + text) + "}";
      }
    }
  }

  // ---------------------------------------------------------------- the payload as a JSON value

  /** The JSON value that a claim's value stands for. */
  predicate Means(value: string, j: Json) {
    if value != "" && value[0] == '{' then Print(j, UNESCAPED) == value else j == Str(value)
  }

  predicate AllMean(claims: seq<Claim>, js: seq<Json>) {
    |js| == |claims| && forall i :: 0 <= i < |claims| ==> Means(claims[i].value, js[i])
  }

  function Members(claims: seq<Claim>, js: seq<Json>): seq<Member>
    requires |js| == |claims|
  {
    if claims == [] then []
    else
      var n := |claims| - 1;
      Members(claims[..n], js[..n])
      + if claims[n].key == "" || claims[n].value == "" then [] else [Member(claims[n].key, js[n])]
  }

  /** The payload is the canonical JSON object of the claims that have a key and a value. */
  lemma {:induction false} PayloadPrinted(claims: seq<Claim>, js: seq<Json>)
    requires AllMean(claims, js)
    ensures PayloadOf(claims)
         == if Members(claims, js) == [] then "" else "{" + PrintMembers(Members(claims, js), UNESCAPED)
  {
    if claims != [] {
      var n := |claims| - 1;
      assert AllMean(claims[..n], js[..n]);
      PayloadPrinted(claims[..n], js[..n]);
      hide PayloadOf, PrintMembers, Print;
      var ms, c := Members(claims[..n], js[..n]), claims[n];
      hide Members;
      MembersLast(claims, js);
      PayloadLast(claims);
      if c.key != "" && c.value != "" {
        OneMore(ms, c, js[n]);
      } else {
        assert ms + [] == ms;
      }
    }
  }

  lemma MembersLast(claims: seq<Claim>, js: seq<Json>)
    requires |js| == |claims| && claims != []
    ensures var n := |claims| - 1;
            Members(claims, js) == Members(claims[..n], js[..n])
              + if claims[n].key == "" || claims[n].value == "" then [] else [Member(claims[n].key, js[n])]
  {
  }

  lemma PayloadLast(claims: seq<Claim>)
    requires claims != []
    ensures PayloadOf(claims) == Marshalled(PayloadOf(claims[..|claims| - 1]), claims[|claims| - 1])
  {
    hide Marshalled;
  }

  lemma EntryPrinted(c: Claim, j: Json)
    requires Means(c.value, j)
    ensures Entry(c) == "\"" + Shown(c.key, UNESCAPED) + "\":" + Print(j, UNESCAPED)
  {
  }

  lemma OneMore(ms: seq<Member>, c: Claim, j: Json)
    requires Means(c.value, j) && c.key != "" && c.value != ""
    ensures Marshalled(if ms == [] then "" else "{" + PrintMembers(ms, UNESCAPED), c)
         == "{" + PrintMembers(ms + [Member(c.key, j)], UNESCAPED)
  {
    hide *;
    EntryPrinted(c, j);
    var m := Member(c.key, j);
    if ms == [] {
      assert [] + [m] == [m];
      FirstEntry(c, m);
    } else {
      MembersAppend(ms, m);
      MarshalledOnto(PrintMembers(ms, UNESCAPED), c);
    }
  }

  lemma FirstEntry(c: Claim, m: Member)
    requires c.key != "" && c.value != ""
            && Entry(c) == "\"" + Shown(m.key, UNESCAPED) + "\":" + Print(m.value, UNESCAPED)
    ensures Marshalled("", c) == "{" + PrintMembers([m], UNESCAPED)
  {
    hide Print, Entry, Shown;
  }

  lemma MarshalledOnto(printed: string, c: Claim)
    requires printed != "" && c.key != "" && c.value != ""
    ensures Marshalled("{" + printed, c) == "{" + (printed[..|printed| - 1] + ("," + Entry(c) + "}"))
  {
    hide Entry;
  }

  lemma {:induction false} MembersAppend(ms: seq<Member>, m: Member)
    requires ms != []
    ensures var s, entry := PrintMembers(ms, UNESCAPED), "\"" + Shown(m.key, UNESCAPED) + "\":"
            + Print(m.value, UNESCAPED);
            s != "" && PrintMembers(ms + [m], UNESCAPED) == s[..|s| - 1] + ("," + entry + "}")
  {
    hide Print, Shown;
    var first := "\"" + Shown(ms[0].key, UNESCAPED) + "\":" + Print(ms[0].value, UNESCAPED);
    var entry := "\"" + Shown(m.key, UNESCAPED) + "\":" + Print(m.value, UNESCAPED);
    assert (ms + [m])[1..] == ms[1..] + [m] && (ms + [m])[0] == ms[0];
    if |ms| == 1 {
      assert (ms[1..] + [m]) == [m];
      assert PrintMembers([m], UNESCAPED) == entry + "}";
      assert (first + "}")[..|first|] == first;
      assert first + ("," + "" + (entry + "}")) == first + ("," + entry + "}");
    } else {
      MembersAppend(ms[1..], m);
      var rest := PrintMembers(ms[1..], UNESCAPED);
      hide PrintMembers;
      CutRest(first, rest, "," + entry + "}");
      assert first + ("," + "" + rest) == first + "," + rest && "," + "" == ",";
    }
  }

  // ---------------------------------------------------------------- ExtractFromToken

  /** What is cut out of a decoded text behind the first occurrence of the claim's name; None for a slice or an index
      outside the text. */
  function Extract(decoded: string, claim: string): Option<string>
    requires Find(decoded, claim) >= 0
  {
    var start := Find(decoded, claim) + |claim| + 2;
    if start > |decoded| then None
    else
      var end := IndexOf(decoded[start..], ',') + start;
      var end := if end == start - 1 then |decoded| - 1 else end;
      if end < 1 then None
      else
        var stop := if decoded[end - 1] == QUOTE then end - 1 else end;
        if start == |decoded| then None
        else
          var begin := if decoded[start] == QUOTE then start + 1 else start;
          if begin <= stop then Some(decoded[begin..stop]) else None
  }

  /** ExtractFromToken, with base64url decoding as a parameter. */
  function ExtractFromToken(token: string, claim: string, decode: string -> string): Option<string> {
    var d1 := IndexOf(token, '.');
    var d2 := IndexOf(token[d1 + 1..], '.') + d1 + 1;
    if d1 < 0 || d2 < d1 + 1 then None
    else
      var header, payload := decode(token[..d1]), decode(token[d1 + 1..d2]);
      if Find(header, claim) != -1 then Extract(header, claim)
      else if Find(payload, claim) != -1 then Extract(payload, claim)
      else Some("")
  }

  /** The text in front of a claim's key, when it is added to these. */
  function Before(claims: seq<Claim>): string {
    var p := PayloadOf(claims);
    if p == "" then "{\"" else p[..|p| - 1] + ",\""
  }

  /** A payload with the entry of claim c in it, and what stands behind that entry. */
  function Around(before: seq<Claim>, c: Claim, more: string): string {
    Before(before) + (c.key + ("\":" + (ValueText(c.value) + more)))
  }

  /** What stands behind an entry once claim d has been added. */
  function Behind(more: string, d: Claim): string
    requires more != ""
  {
    if d.key == "" || d.value == "" then more else more[..|more| - 1] + ("," + Entry(d) + "}")
  }

  predicate IsTail(more: string) {
    more == "}" || (|more| > 1 && more[0] == ',' && more[|more| - 1] == '}')
  }

  lemma BehindIsTail(more: string, d: Claim)
    requires IsTail(more)
    ensures IsTail(Behind(more, d))
  {
    hide Entry;
  }

  lemma AddedBehind(before: seq<Claim>, c: Claim, more: string, d: Claim)
    requires more != ""
    ensures Marshalled(Around(before, c, more), d) == Around(before, c, Behind(more, d))
  {
    hide Before, Entry, ValueText;
    if d.key != "" && d.value != "" {
      var head := Before(before) + (c.key + ("\":" + ValueText(c.value)));
      assert Around(before, c, more) == head + more;
      CutLast(head, more, Entry(d));
      assert head + Behind(more, d) == Around(before, c, Behind(more, d));
    }
  }

  lemma CutLast(head: string, rest: string, entry: string)
    requires rest != ""
    ensures var s := head + rest;
            s[..|s| - 1] + "," + entry + "}" == head + (rest[..|rest| - 1] + ("," + entry + "}"))
  {
  }

  lemma EntryAdded(before: seq<Claim>, c: Claim)
    requires c.key != "" && c.value != ""
    ensures Marshalled(PayloadOf(before), c) == Around(before, c, "}")
  {
    hide PayloadOf, ValueText;
    var p := PayloadOf(before);
    if p == "" {
      assert "{" + Entry(c) + "}" == "{\"" + (c.key + ("\":" + (ValueText(c.value) + "}")));
    } else {
      assert p[..|p| - 1] + "," + Entry(c) + "}"
          == p[..|p| - 1] + ",\"" + (c.key + ("\":" + (ValueText(c.value) + "}")));
    }
  }

  /** The claims added later only put text behind the entry of this one. */
  lemma {:induction false} PayloadAround(before: seq<Claim>, c: Claim, after: seq<Claim>) returns (more: string)
    requires c.key != "" && c.value != ""
    ensures IsTail(more) && PayloadOf(before + [c] + after) == Around(before, c, more)
    decreases |after|
  {
    var all := before + [c] + after;
    PayloadLast(all);
    hide PayloadOf, Around, Marshalled, Behind;
    if after == [] {
      assert all[..|all| - 1] == before && all[|all| - 1] == c;
      more := "}";
      EntryAdded(before, c);
    } else {
      var n := |after| - 1;
      var rest := PayloadAround(before, c, after[..n]);
      assert all[..|all| - 1] == before + [c] + after[..n] && all[|all| - 1] == after[n];
      AddedBehind(before, c, rest, after[n]);
      BehindIsTail(rest, after[n]);
      more := Behind(rest, after[n]);
    }
  }

  /** The comma that ends the cut, or the end of the text, stands right behind the closing quote of n characters. */
  lemma ExtractWhole(s: string, name: string, start: nat, n: nat)
    requires Find(s, name) >= 0 && Find(s, name) + |name| + 2 == start && start + n + 2 < |s|
    requires s[start] == QUOTE && s[start + n + 1] == QUOTE
    requires IndexOf(s[start..], ',') == n + 2 || (IndexOf(s[start..], ',') == -1 && |s| == start + n + 3)
    ensures Extract(s, name) == Some(s[start + 1..start + 1 + n])
  {
    hide Find, IndexOf;
  }

  /** The comma stands before that. */
  lemma ExtractShort(s: string, name: string, start: nat, k: nat)
    requires Find(s, name) >= 0 && Find(s, name) + |name| + 2 == start && start + k + 1 < |s| && s[start] == QUOTE
    requires IndexOf(s[start..], ',') == k + 1
    ensures Extract(s, name).Some? ==> |Extract(s, name).value| <= k
  {
    hide Find, IndexOf;
  }

  lemma QuotedText(value: string, more: string)
    requires IsTail(more)
    ensures var t, n := "\"" + value + "\"" + more, |value|;
            && n + 2 < |t| && t[0] == QUOTE && t[n + 1] == QUOTE && t[1..n + 1] == value
            && t[..n + 2] == "\"" + value + "\"" && t[n + 2] == more[0]
            && (more == "}" ==> |t| == n + 3)
  {
  }

  lemma CommaFirst(t: string, i: nat)
    requires i < |t| && t[i] == ',' && ',' !in t[..i]
    ensures IndexOf(t, ',') == i
  {
    hide IndexOf;
    IndexOfUnique(t, ',', i);
  }

  lemma CommaInside(value: string, more: string, k: nat)
    requires k < |value| && value[k] == ',' && ',' !in value[..k]
    ensures IndexOf("\"" + value + "\"" + more, ',') == k + 1
  {
    var t := "\"" + value + "\"" + more;
    assert t[..k + 1] == "\"" + value[..k] && t[k + 1] == value[k];
    CommaFirst(t, k + 1);
  }

  lemma CommaOutside(value: string, more: string)
    requires IsTail(more) && ',' !in value
    ensures IndexOf("\"" + value + "\"" + more, ',') == if more == "}" then -1 else |value| + 2
  {
    var t := "\"" + value + "\"" + more;
    assert t[..|value| + 2] == "\"" + value + "\"" && t[|value| + 2] == more[0];
    if more != "}" {
      CommaFirst(t, |value| + 2);
    } else {
      assert ',' !in t;
      hide IndexOf;
    }
  }

  lemma CommaInQuoted(value: string, more: string)
    requires IsTail(more)
    ensures IndexOf("\"" + value + "\"" + more, ',')
         == if ',' in value then IndexOf(value, ',') + 1 else if more == "}" then -1 else |value| + 2
  {
    hide *;
    if ',' in value {
      CommaInside(value, more, IndexOf(value, ','));
    } else {
      CommaOutside(value, more);
    }
  }

  lemma TailOrComma(more: string)
    requires IsTail(more)
    ensures more == "}" || more[0] == ','
  {
  }

  lemma AtStart(before: string, name: string, t: string)
    ensures var s, start := before + (name + ("\":" + t)), |before| + |name| + 2;
            |s| == start + |t| && s[start..] == t
  {
  }

  /** Where the first occurrence of a name is the key of a claim with a quoted value. */
  lemma ExtractedIff(before: string, name: string, value: string, more: string)
    requires value != "" && IsTail(more)
    requires Find(before + (name + ("\":" + ("\"" + value + "\"" + more))), name) == |before|
    ensures Extract(before + (name + ("\":" + ("\"" + value + "\"" + more))), name) == Some(value) <==> ',' !in value
  {
    hide *;
    var t := "\"" + value + "\"" + more;
    CommaInQuoted(value, more);
    QuotedText(value, more);
    TailOrComma(more);
    QuotedExtracted(before, name, value, t, more == "}");
  }

  lemma QuotedExtracted(before: string, name: string, value: string, t: string, last: bool)
    requires Find(before + (name + ("\":" + t)), name) == |before| && |value| + 2 < |t|
    requires t[0] == QUOTE && t[|value| + 1] == QUOTE && t[1..|value| + 1] == value && (last ==> |t| == |value| + 3)
    requires IndexOf(t, ',') == if ',' in value then IndexOf(value, ',') + 1 else if last then -1 else |value| + 2
    ensures Extract(before + (name + ("\":" + t)), name) == Some(value) <==> ',' !in value
  {
    hide *;
    var s, start := before + (name + ("\":" + t)), |before| + |name| + 2;
    AtStart(before, name, t);
    assert s[start] == t[0] && s[start + |value| + 1] == t[|value| + 1];
    if ',' in value {
      ExtractShort(s, name, start, IndexOf(value, ','));
    } else {
      ExtractWhole(s, name, start, |value|);
      assert s[start + 1..start + 1 + |value|] == t[1..|value| + 1];
    }
  }

  /** For a payload built by any sequence of AddClaim calls: a claim whose name first occurs as its key, and not in the
      header, is found in the full token exactly when its value holds no comma. */
  lemma ClaimReadBackIff(before: seq<Claim>, c: Claim, after: seq<Claim>, header: string, signature: string,
                         encode: string -> string, decode: string -> string)
    requires forall x :: decode(encode(x)) == x && '.' !in encode(x)
    requires c.key != "" && c.value != "" && c.value[0] != '{'
    requires Find(header, c.key) == -1
    requires Find(PayloadOf(before + [c] + after), c.key) == |Before(before)|
    ensures var token := encode(header) + ("." + (encode(PayloadOf(before + [c] + after)) + ("." + signature)));
            ExtractFromToken(token, c.key, decode) == Some(c.value) <==> ',' !in c.value
  {
    hide *;
    var payload := PayloadOf(before + [c] + after);
    var more := PayloadAround(before, c, after);
    AroundQuoted(before, c, more);
    ExtractedIff(Before(before), c.key, c.value, more);
    FoundInPayload(header, payload, signature, c.key, encode, decode);
  }

  lemma AroundQuoted(before: seq<Claim>, c: Claim, more: string)
    requires c.value != "" && c.value[0] != '{'
    ensures Around(before, c, more) == Before(before) + (c.key + ("\":" + ("\"" + c.value + "\"" + more)))
  {
    hide Before;
  }

  lemma FoundInPayload(header: string, payload: string, signature: string, name: string,
                       encode: string -> string, decode: string -> string)
    requires forall x :: decode(encode(x)) == x && '.' !in encode(x)
    requires Find(header, name) == -1 && Find(payload, name) >= 0
    ensures ExtractFromToken(encode(header) + ("." + (encode(payload) + ("." + signature))), name, decode)
         == Extract(payload, name)
  {
    hide IndexOf, Find, Extract;
    assert decode(encode(header)) == header && decode(encode(payload)) == payload;
    TokenParts(encode(header), encode(payload), signature);
  }

  lemma TokenParts(header: string, payload: string, signature: string)
    requires '.' !in header && '.' !in payload
    ensures var token, d1 := header + ("." + (payload + ("." + signature))), |header|;
            && IndexOf(token, '.') == d1
            && IndexOf(token[d1 + 1..], '.') == |payload|
            && token[..d1] == header && token[d1 + 1..d1 + 1 + |payload|] == payload
  {
    hide IndexOf;
    var token, d1 := header + ("." + (payload + ("." + signature))), |header|;
    assert token[..d1] == header;
    IndexOfUnique(token, '.', d1);
    var t := token[d1 + 1..];
    assert t == payload + ("." + signature) && t[..|payload|] == payload;
    IndexOfUnique(t, '.', |payload|);
  }
}
