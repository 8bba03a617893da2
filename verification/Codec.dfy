/** The proprietary payload codec: what one message compresses and decompresses to. */
module Codec {
  import opened Text
  import opened PathList
  import TimeStamp

  const CODES: seq<string> :=
    ["action", "requestId", "value", "ts", "path", "subscriptionId", "data", "dp", "filter", "authorization",
     "get", "set", "subscribe", "unsubscribe", "subscription",
     "nuint8", "uint8", "nuint16", "uint16", "nuint24", "uint24", "nuint32", "uint32", "bool", "float", "unknown"]

  const ACTION := 0
  const REQUEST_ID := 1
  const VALUE := 2
  const TS := 3
  const PATH := 4
  const SUBSCRIPTION_ID := 5
  const DATA := 6
  const DP := 7
  const FILTER := 8
  const AUTHORIZATION := 9
  const BOOL := 23
  const FLOAT := 24
  const UNKNOWN := 25
  const KEYS := 10
  const KEY_VALUES := 15
  const NONE := 255

  type Four = s: string | |s| == 4 witness "    "

  /** What the codec is configured with: the sorted path list, and the float32 conversions of the Go library. */
  datatype Env = Env(paths: seq<string>, isFloat: string -> bool, floatBytes: string -> Four, floatText: Four -> string)

  /** The byte that stands for entry `code` of the list. */
  function Byte(code: nat): (c: char)
    requires code < 26
    ensures N(c) == code + 128
  {
    (code + 128) as char
  }

  function CodeFrom(codes: seq<string>, token: string, i: nat): nat
    requires i <= |codes|
    decreases |codes| - i
  {
    if i == |codes| then NONE else if codes[i] == token then i else CodeFrom(codes, token, i + 1)
  }

  /** getCodeListIndex: the index of a word in the list, or 255. */
  function CodeIndex(token: string): nat {
    CodeFrom(CODES, token, 0)
  }

  // ---------------------------------------------------------------- values

  datatype Kind = Int(n: int) | Bool | Float | Other

  function ValueKind(v: string, env: Env): Kind {
    match Atoi(v)
    case Some(n) => Int(n)
    case None => if v == "true" || v == "false" then Bool else if env.isFloat(v) then Float else Other
  }

  /** The list index of the integer type of a width in bytes and a sign. */
  function IntCode(width: nat, isPos: bool): (code: nat)
    requires 1 <= width <= 4
    ensures 15 <= code <= 22
    ensures (code - 13) / 2 == width && code % 2 == if isPos then 0 else 1
  {
    13 + 2 * width + if isPos then 1 else 0
  }

  /** The low `width` bytes of a number, most significant first. */
  function BigEndian(n: nat, width: nat): (s: string)
    ensures |s| == width
  {
    if width == 0 then "" else BigEndian(n / 256, width - 1) + [B(n)]
  }

  function FromBigEndian(s: string): nat {
    if s == "" then 0 else FromBigEndian(s[..|s| - 1]) * 256 + N(s[|s| - 1])
  }

  /** Go negates in 64 bits: the least int64 stays negative. */
  function AbsInt64(n: int): int {
    if n < 0 && n != MIN_INT64 then -n else n
  }

  /** The width chosen for an absolute value; four bytes take whatever is left. */
  function Width(abs: int): (w: nat)
    ensures 1 <= w <= 4
  {
    if abs < 0x100 then 1 else if abs < 0x1_0000 then 2 else if abs < 0x100_0000 then 3 else 4
  }

  function CompressInt(n: int): (s: string)
    ensures |s| >= 2
  {
    var abs := AbsInt64(n);
    [Byte(IntCode(Width(abs), n >= 0))] + BigEndian(abs % 0x1_0000_0000, Width(abs))
  }

  /** compressValue, applied to what stands between the quotes. */
  function CompressValue(v: string, env: Env): (s: string)
    ensures |s| >= 2
  {
    match ValueKind(v, env)
    case Int(n) => CompressInt(n)
    case Bool => [Byte(BOOL), if v == "true" then B(1) else B(0)]
    case Float => [Byte(FLOAT)] + env.floatBytes(v)
    case Other => [Byte(UNKNOWN)] + Quoted(v)
  }

  /** The integer cases of decompressOneValue. */
  function DecompressInt(code: nat, s: string): (r: Option<(string, nat)>)
    requires s != "" && 15 <= code <= 22
    ensures r.Some? ==> 1 < r.value.1 <= |s|
  {
    var width := (code - 13) / 2;
    if |s| <= width then None
    else Some((Quoted((if code % 2 == 1 then "-" else "") + Digits(FromBigEndian(s[1..width + 1]))), width + 1))
  }

  /** Its default case: a text up to the first quote from position 3 on. */
  function DecompressText(s: string): (r: Option<(string, nat)>)
    requires s != ""
    ensures r.Some? ==> 1 < r.value.1 <= |s|
  {
    if |s| < 3 then None
    else
      var n: nat := IndexOf(s[3..], QUOTE) + 4;
      Some((s[1..n], n))
  }

  /** decompressOneValue: the text of the leading value and the bytes it took; None stands for a panic. */
  function DecompressOne(s: string, env: Env): (r: Option<(string, nat)>)
    requires s != ""
    ensures r.Some? ==> 1 < r.value.1 <= |s|
  {
    var code := (N(s[0]) + 128) % 256;
    if code >= 26 then None
    else if 15 <= code <= 22 then DecompressInt(code, s)
    else if code == BOOL then
      if |s| < 2 then None else Some((Quoted(if N(s[1]) == 0 then "false" else "true"), 2))
    else if code == FLOAT then
      if |s| < 5 then None else Some((Quoted(env.floatText(s[1..5])), 5))
    else DecompressText(s)
  }

  function Prefixed(p: string, o: Option<(string, nat)>): Option<(string, nat)> {
    match o case None => None case Some((t, n)) => Some((p + t, n))
  }

  /** decompressValue from position `index`: the rest of the text, and the position behind it. */
  function DecompressValue(s: string, index: nat, env: Env): (r: Option<(string, nat)>)
    ensures r.Some? ==> index < r.value.1 <= |s|
    decreases |s| - index
  {
    if index >= |s| then None
    else if s[index] == '[' || s[index] == ']' || s[index] == ',' || s[index] == '{' then
      if s[index] == ']' || s[index] == '{' then Some(([s[index]], index + 1))
      else Prefixed([s[index]], DecompressValue(s, index + 1, env))
    else
      match DecompressOne(s[index..], env)
      case None => None
      case Some((t, n)) =>
        var comma := if index + n < |s| && s[index + n] == s[index] then "," else "";
        if index == 0 then Some((t + comma, n)) else Prefixed(t + comma, DecompressValue(s, index + n, env))
  }

  // ---------------------------------------------------------------- decompression

  predicate TakesValue(code: nat) {
    code == VALUE || code == REQUEST_ID || code == SUBSCRIPTION_ID
  }

  /** The comma rule of readCompressedMessage, for `n` bytes read from the front of `rest`. */
  predicate CommaAfter(code: nat, rest: string, n: nat)
    requires 0 < n <= |rest|
  {
    && code < KEY_VALUES && code != ACTION && code != FILTER && code != AUTHORIZATION
    && n != |rest| && rest[n] != '}' && rest[n] != ']'
    && rest[n - 1] != '{' && rest[n - 1] != '['
  }

  /** The payload text behind a code byte, and its length in bytes. */
  function DecompressPayload(code: nat, rest: string, env: Env): (r: Option<(string, nat)>)
    requires rest != ""
    ensures r.Some? ==> r.value.1 < |rest|
  {
    if code == PATH then
      if |rest| < 3 then None
      else
        var i := N(rest[1]) * 256 + N(rest[2]);
        if i < |env.paths| then Some((Quoted(env.paths[i]), 2)) else None
    else if code == TS then
      if |rest| < 5 then None else Some((TimeStamp.Decompress(rest[1..5]), 4))
    else if TakesValue(code) then DecompressValue(rest[1..], 0, env)
    else Some(("", 0))
  }

  /** readCompressedMessage at the front of `rest`. */
  function ReadCompressed(rest: string, env: Env): (r: Option<(string, nat)>)
    requires rest != ""
    ensures r.Some? ==> 0 < r.value.1 <= |rest|
  {
    if N(rest[0]) >= 128 then
      var code := N(rest[0]) - 128;
      var word := if code < KEY_VALUES then Quoted(CODES[code]) + (if code < KEYS then ":" else "") else "";
      match DecompressPayload(code, rest, env)
      case None => None
      case Some((t, n)) => Some((word + t + (if CommaAfter(code, rest, n + 1) then "," else ""), n + 1))
    else Some(([rest[0]] + (if |rest| > 1 && rest[0] == '}' && rest[1] == '{' then "," else ""), 1))
  }

  function Then(p: string, o: Option<string>): Option<string> {
    match o case None => None case Some(t) => Some(p + t)
  }

  function DecompressRest(rest: string, env: Env): Option<string> {
    if rest == "" then Some("")
    else
      match ReadCompressed(rest, env)
      case None => None
      case Some((t, n)) => Then(t, DecompressRest(rest[n..], env))
  }

  function Decompress(message: string, env: Env): Option<string> {
    if message == "" then Some("")
    else
      match DecompressRest(message, env)
      case None => None
      case Some(t) => Some((if message[0] != '{' then "{" else "") + t
                           + (if message[|message| - 1] != '}' then "}" else ""))
  }

  // ---------------------------------------------------------------- compression

  /** The key whose value is expected next (255: none), and whether an array is open. */
  datatype State = State(key: nat, isArray: bool)

  const START := State(NONE, false)

  /** readUncompressedMessage; None where the slice ends behind the message. */
  function ReadToken(rest: string): (t: Option<string>)
    requires rest != ""
    ensures t.Some? ==> t.value != ""
  {
    if rest[0] == QUOTE then
      var end := NextQuote(rest, 1) + 1;
      if end <= |rest| then Some(rest[..end]) else None
    else Some(Utf8(rest[0]))
  }

  /** One turn of the compression loop for a one-byte token. */
  function CompressSymbol(c: char, first: bool, last: bool, st: State): (string, State) {
    if c == ' ' || c == ',' || (c == '{' && first) || (c == '}' && last) || c == ':' then ("", st)
    else ([c], if c == '[' then st.(isArray := true) else if c == ']' then st.(isArray := false) else st)
  }

  function CompressPathToken(token: string, env: Env): string
    requires |token| >= 2
  {
    var path := Dotted(token)[1..|token| - 1];
    var i := SearchIndex(env.paths, path);
    if Found(env.paths, path) then [B(i / 256), B(i)] else token
  }

  /** One turn of the compression loop for a longer token; `colon` tells whether a colon follows, None that nothing
      does. */
  function CompressWord(token: string, colon: Option<bool>, st: State, env: Env): Option<(string, State)>
    requires |token| >= 2
  {
    var code := CodeIndex(token[1..|token| - 1]);
    if code < 26 then
      Some(([Byte(code)], if code == TS || code == PATH || TakesValue(code) then State(code, false) else st))
    else if st.key == TS then
      if |token| >= 20 then Some((TimeStamp.Compress(token), st.(key := NONE))) else None
    else if TakesValue(st.key) then
      Some((CompressValue(token[1..|token| - 1], env), if st.isArray then st else st.(key := NONE)))
    else if st.key == PATH then Some((CompressPathToken(token, env), st.(key := NONE)))
    else if colon.None? then None
    else Some((token + (if colon.value then ":" else ""), st))
  }

  /** One turn of the compression loop: the bytes it appends, the next state and what remains of the message. */
  function CompressStep(rest: string, first: bool, st: State, env: Env): (r: Option<(string, State, string)>)
    requires rest != ""
    ensures r.Some? ==> |r.value.2| < |rest|
  {
    match ReadToken(rest)
    case None => None
    case Some(token) =>
      var after := if |token| <= |rest| then rest[|token|..] else "";
      if |token| == 1 then
        var (out, next) := CompressSymbol(token[0], first, after == "", st);
        Some((out, next, after))
      else
        match CompressWord(token, if after == "" then None else Some(after[0] == ':'), st, env)
        case None => None
        case Some((out, next)) => Some((out, next, after))
  }

  function CompressRest(rest: string, first: bool, st: State, env: Env): Option<string>
    decreases |rest|
  {
    if rest == "" then Some("")
    else
      match CompressStep(rest, first, st, env)
      case None => None
      case Some((out, next, after)) => Then(out, CompressRest(after, false, next, env))
  }

  function Compress(message: string, env: Env): Option<string> {
    CompressRest(message, true, START, env)
  }

  lemma ThenThen(a: string, b: string, o: Option<string>)
    ensures Then(a, Then(b, o)) == Then(a + b, o)
  {
    if o.Some? {
      assert a + (b + o.value) == (a + b) + o.value;
    }
  }

  lemma ThenNothing(o: Option<string>)
    ensures Then("", o) == o
  {
    assert o.Some? ==> "" + o.value == o.value;
  }

  lemma PrefixedNothing(o: Option<(string, nat)>)
    ensures Prefixed("", o) == o
  {
    assert o.Some? ==> "" + o.value.0 == o.value.0;
  }

  lemma PrefixedPrefixed(a: string, b: string, o: Option<(string, nat)>)
    ensures Prefixed(a, Prefixed(b, o)) == Prefixed(a + b, o)
  {
    if o.Some? {
      assert a + (b + o.value.0) == (a + b) + o.value.0;
    }
  }
}
