/** The wire format written out: the bytes of flat messages, without the codec's own numbers. */
module CodecBytes {
  import opened Text
  import opened PathList
  import opened Codec
  import opened CodecValues
  import opened CodecMessages
  import opened CodecLosses
  import opened CodecOddParts
  import TimeStamp

  // ---------------------------------------------------------------- words

  type Octet = n: nat | n < 256

  datatype Entry = Entry(word: string, byte: Octet)

  /** The words of the code list with their bytes. */
  const LISTED: seq<Entry> :=
    [Entry("action", 0x80), Entry("requestId", 0x81), Entry("value", 0x82), Entry("ts", 0x83), Entry("path", 0x84),
     Entry("subscriptionId", 0x85), Entry("data", 0x86), Entry("dp", 0x87), Entry("filter", 0x88),
     Entry("authorization", 0x89), Entry("get", 0x8A), Entry("set", 0x8B), Entry("subscribe", 0x8C),
     Entry("unsubscribe", 0x8D), Entry("subscription", 0x8E), Entry("nuint8", 0x8F), Entry("uint8", 0x90),
     Entry("nuint16", 0x91), Entry("uint16", 0x92), Entry("nuint24", 0x93), Entry("uint24", 0x94),
     Entry("nuint32", 0x95), Entry("uint32", 0x96), Entry("bool", 0x97), Entry("float", 0x98), Entry("unknown", 0x99)]

  predicate Listed(word: string) {
    exists i :: 0 <= i < |LISTED| && LISTED[i].word == word
  }

  lemma ListedCodes()
    ensures |LISTED| == |CODES| == 26
    ensures forall i :: 0 <= i < 26 ==> LISTED[i].word == CODES[i] && LISTED[i].byte == 128 + i
  {
  }

  lemma ListedIff(word: string)
    ensures Listed(word) <==> word in CODES
  {
    ListedCodes();
    hide LISTED, CODES;
    if word in CODES {
      var i :| 0 <= i < |CODES| && CODES[i] == word;
      assert LISTED[i].word == word;
    }
  }

  /** Wherever it stands, a listed word becomes its byte. */
  lemma WordBytes(i: nat, colon: Option<bool>, st: State, env: Env)
    requires i < |LISTED|
    ensures var r := CompressWord("\"" + LISTED[i].word + "\"", colon, st, env);
            r.Some? && r.value.0 == [LISTED[i].byte as char]
  {
    ListedCodes();
    QuotedInner(CODES[i]);
    CodeIndexOfCode(i);
    hide CODES, CodeIndex, LISTED;
    assert [Byte(i)] == [LISTED[i].byte as char];
  }

  // ---------------------------------------------------------------- values

  /** The bytes of a number below 2^32, in as many bytes as it needs. */
  function NumberBytes(n: nat): string {
    if n < 256 then [n as char]
    else if n < 65536 then [(n / 256) as char, (n % 256) as char]
    else if n < 16777216 then [(n / 65536) as char, (n / 256 % 256) as char, (n % 256) as char]
    else [(n / 16777216 % 256) as char, (n / 65536 % 256) as char, (n / 256 % 256) as char, (n % 256) as char]
  }

  /** The type byte of a number. */
  function NumberType(n: nat, negative: bool): nat {
    if n < 256 then if negative then 0x8F else 0x90
    else if n < 65536 then if negative then 0x91 else 0x92
    else if n < 16777216 then if negative then 0x93 else 0x94
    else if negative then 0x95 else 0x96
  }

  function ValueBytes(v: string, env: Env): string {
    match Atoi(v)
    case Some(n) =>
      if n == -0x8000_0000_0000_0000 then [0x8F as char, 0 as char]
      else
        var abs := if n < 0 then -n else n;
        [NumberType(abs, n < 0) as char] + NumberBytes(abs)
    case None =>
      if v == "true" then [0x97 as char, 1 as char]
      else if v == "false" then [0x97 as char, 0 as char]
      else if env.isFloat(v) then [0x98 as char] + env.floatBytes(v)
      else [0x99 as char] + ("\"" + v + "\"")
  }

  lemma Divided(n: nat)
    ensures n / 256 / 256 == n / 65536 && n / 65536 / 256 == n / 16777216
  {
  }

  lemma BigEndianStep(n: nat, w: nat)
    ensures BigEndian(n, w + 1) == BigEndian(n / 256, w) + [B(n)] && BigEndian(n, 0) == ""
  {
  }

  lemma TwoBytes(n: nat)
    ensures BigEndian(n, 1) == [B(n)] && BigEndian(n, 2) == [B(n / 256), B(n)]
  {
    BigEndianStep(n, 0);
    BigEndianStep(n / 256, 0);
    BigEndianStep(n, 1);
    hide BigEndian, B;
  }

  lemma FourBytes(n: nat)
    ensures BigEndian(n, 3) == [B(n / 65536), B(n / 256), B(n)]
    ensures BigEndian(n, 4) == [B(n / 16777216), B(n / 65536), B(n / 256), B(n)]
  {
    Divided(n);
    TwoBytes(n / 256);
    TwoBytes(n / 65536);
    BigEndianStep(n, 2);
    BigEndianStep(n / 256, 2);
    BigEndianStep(n, 3);
    hide BigEndian, B;
  }

  lemma LowOf(x: nat, y: nat)
    ensures (256 * x + y) % 256 == y % 256
  {
  }

  lemma LowBytes(n: nat)
    ensures n % 0x1_0000_0000 % 256 == n % 256
    ensures n % 0x1_0000_0000 / 256 % 256 == n / 256 % 256
  {
    var q, low := n / 0x1_0000_0000, n % 0x1_0000_0000;
    LowOf(q * 16777216, low);
    LowOf(q * 65536, low / 256);
    assert n == 256 * (q * 16777216) + low;
    assert n / 256 == 256 * (q * 65536) + low / 256;
  }

  lemma HighBytes(n: nat)
    ensures n % 0x1_0000_0000 / 65536 % 256 == n / 65536 % 256
    ensures n % 0x1_0000_0000 / 16777216 % 256 == n / 16777216 % 256
  {
    var q, low := n / 0x1_0000_0000, n % 0x1_0000_0000;
    LowOf(q * 256, low / 65536);
    LowOf(q, low / 16777216);
    assert n / 65536 == 256 * (q * 256) + low / 65536;
    assert n / 16777216 == 256 * q + low / 16777216;
  }

  lemma NumberBytesAre(abs: nat)
    ensures BigEndian(abs % 0x1_0000_0000, Width(abs)) == NumberBytes(abs)
  {
    var low := abs % 0x1_0000_0000;
    TwoBytes(low);
    FourBytes(low);
    hide BigEndian;
    if abs < 0x100_0000 {
      assert low == abs;
      SmallNumbers(abs);
    } else {
      LowBytes(abs);
      HighBytes(abs);
    }
  }

  lemma SmallNumbers(n: nat)
    ensures n < 65536 ==> n / 256 < 256
    ensures n < 16777216 ==> n / 65536 < 256
  {
  }

  lemma NumberIs(n: int)
    requires MIN_INT64 <= n <= MAX_INT64
    ensures CompressInt(n)
         == if n == -0x8000_0000_0000_0000 then [0x8F as char, 0 as char]
            else
              var abs := if n < 0 then -n else n;
              [NumberType(abs, n < 0) as char] + NumberBytes(abs)
  {
    if n == MIN_INT64 {
      assert MIN_INT64 % 0x1_0000_0000 == 0;
      TwoBytes(0);
    } else {
      NumberBytesAre(AbsInt64(n));
    }
    hide BigEndian, NumberBytes;
  }

  /** What any value becomes. */
  lemma ValueBytesAre(v: string, env: Env)
    ensures CompressValue(v, env) == ValueBytes(v, env)
  {
    AtoiRange(v);
    if Atoi(v).Some? {
      NumberIs(Atoi(v).value);
    }
    hide CompressInt, Atoi, NumberBytes, NumberType;
  }

  // ---------------------------------------------------------------- paths and time stamps

  /** A path as it is listed, or with slashes for its dots. */
  predicate SamePath(listed: string, path: string) {
    |listed| == |path| && forall i :: 0 <= i < |path| ==> listed[i] == if path[i] == '/' then '.' else path[i]
  }

  /** The first place of a path in the list, or behind it. */
  function Place(list: seq<string>, path: string): (i: nat)
    ensures i <= |list|
    ensures forall k :: 0 <= k < i ==> !SamePath(list[k], path)
    ensures i < |list| ==> SamePath(list[i], path)
  {
    if list == [] then 0
    else if SamePath(list[0], path) then 0
    else
      var j := Place(list[1..], path);
      assert forall k :: 1 <= k <= j ==> list[k] == list[1..][k - 1] || k == j;
      j + 1
  }

  function PathBytes(path: string, env: Env): string {
    var i := Place(env.paths, path);
    if i < |env.paths| then [(i / 256 % 256) as char, (i % 256) as char] else "\"" + path + "\""
  }

  lemma PathBytesAre(path: string, env: Env)
    requires Sorted(env.paths)
    ensures CompressPathToken("\"" + path + "\"", env) == PathBytes(path, env)
  {
    var i, k := Place(env.paths, path), SearchIndex(env.paths, Dotted(path));
    DottedInner(path);
    SearchFinds(env.paths, Dotted(path));
    assert forall j :: 0 <= j < |env.paths| ==> (SamePath(env.paths[j], path) <==> env.paths[j] == Dotted(path));
    hide SamePath, Dotted, SearchBetween;
    if Dotted(path) in env.paths {
      assert env.paths[k] == Dotted(path) && forall j :: 0 <= j < k ==> env.paths[j] == env.paths[..k][j];
      assert i == k;
    }
  }

  /** Two characters as a number, in one byte. */
  function Decimal(hi: char, lo: char): nat {
    ((hi as int - 48) * 10 + (lo as int - 48)) % 256
  }

  /** The fields of "202y-mm-ddThh:mm:ss..." in 30 bits. */
  function StampBytes(t: string): string
    requires |t| >= 19
  {
    var year, month, day := (t[3] as int - 48) % 256, Decimal(t[5], t[6]), Decimal(t[8], t[9]);
    var hour, minute, second := Decimal(t[11], t[12]), Decimal(t[14], t[15]), Decimal(t[17], t[18]);
    [((year * 4 + month / 4) % 256) as char, ((month % 4 * 64 + day * 2 + hour / 16) % 256) as char,
     ((hour % 16 * 16 + minute / 4) % 256) as char, ((minute % 4 * 64 + second) % 256) as char]
  }

  lemma StampBytesAre(t: string)
    requires |t| >= 19
    ensures TimeStamp.Compress("\"" + t + "\"") == StampBytes(t)
  {
    var s := "\"" + t + "\"";
    assert s[4] == t[3] && s[6] == t[5] && s[7] == t[6] && s[9] == t[8] && s[10] == t[9];
    assert s[12] == t[11] && s[13] == t[12] && s[15] == t[14] && s[16] == t[15] && s[18] == t[17] && s[19] == t[18];
  }

  // ---------------------------------------------------------------- the words of the grammar

  lemma CodesDiffer(i: nat, k: nat)
    requires i < 26 && k < 26
    ensures CODES[i] == CODES[k] <==> i == k
  {
    CodeIndexOfCode(i);
    CodeIndexOfCode(k);
    hide CODES, CodeIndex;
  }

  lemma WordNumbers()
    ensures CODES[0] == "action" && CODES[1] == "requestId" && CODES[2] == "value" && CODES[3] == "ts"
    ensures CODES[4] == "path" && CODES[5] == "subscriptionId" && CODES[6] == "data" && CODES[7] == "dp"
    ensures CODES[10] == "get" && CODES[11] == "set" && CODES[12] == "subscribe" && CODES[13] == "unsubscribe"
    ensures CODES[14] == "subscription"
  {
  }

  lemma KeyWord(key: nat, i: nat, word: string)
    requires key < 26 && i < 26 && CODES[i] == word
    ensures Quoted(CODES[key]) == "\"" + word + "\"" <==> key == i
  {
    CodesDiffer(key, i);
    QuotedInner(CODES[key]);
    QuotedInner(word);
    hide CODES;
  }

  /** Which words the members of the grammar are made of. */
  lemma GrammarWords(p: Part, env: Env)
    requires Keyed(p)
    ensures p.PathOf? ==> PartTokens(p)[0] == "\"path\""
    ensures p.Time? ==> PartTokens(p)[0] == "\"ts\""
    ensures p.Action? ==> PartTokens(p)[0] == "\"action\"" && (Good(p, env) <==> IsVerb(PartTokens(p)[2]))
    ensures p.Open? ==> (Good(p, env) <==> PartTokens(p)[0] == "\"data\"" || PartTokens(p)[0] == "\"dp\"")
    ensures p.Scalar? || p.List? ==> (TakesValue(p.key) <==> TakesAny(PartTokens(p)[0]))
  {
    WordNumbers();
    hide CODES;
    match p
    case Open(key) =>
      KeyWord(key, 6, "data");
      KeyWord(key, 7, "dp");
    case Action(verb) =>
      VerbIff(verb);
    case Scalar(key, _) => TakesIff(key);
    case List(key, _) => TakesIff(key);
    case _ =>
  }

  predicate IsVerb(token: string) {
    || token == "\"get\"" || token == "\"set\"" || token == "\"subscribe\"" || token == "\"unsubscribe\""
    || token == "\"subscription\""
  }

  predicate TakesAny(token: string) {
    token == "\"requestId\"" || token == "\"value\"" || token == "\"subscriptionId\""
  }

  lemma VerbIff(verb: nat)
    requires verb < 26
    ensures KEYS <= verb < KEY_VALUES <==> IsVerb(Quoted(CODES[verb]))
  {
    WordNumbers();
    hide CODES, Quoted;
    KeyWord(verb, 10, "get");
    KeyWord(verb, 11, "set");
    KeyWord(verb, 12, "subscribe");
    KeyWord(verb, 13, "unsubscribe");
    KeyWord(verb, 14, "subscription");
  }

  lemma TakesIff(key: nat)
    requires key < 26
    ensures TakesValue(key) <==> TakesAny(Quoted(CODES[key]))
  {
    WordNumbers();
    hide CODES, Quoted;
    KeyWord(key, 1, "requestId");
    KeyWord(key, 2, "value");
    KeyWord(key, 5, "subscriptionId");
  }

  /** A first brace that is there already makes no difference, and nothing stays nothing. */
  lemma FrontBrace(message: string, env: Env)
    ensures Decompress("", env) == Some("")
    ensures message != "" && message[0] != '{' ==> Decompress("{" + message, env) == Decompress(message, env)
  {
    if message != "" {
      var s := "{" + message;
      assert s[1..] == message && s[|s| - 1] == message[|message| - 1];
      assert ReadCompressed(s, env) == Some(("{", 1)) by {
        assert [s[0]] + "" == "{";
      }
      hide ReadCompressed;
      var rest := DecompressRest(message, env);
      assert DecompressRest(s, env) == Then("{", rest);
      if rest.Some? {
        assert "" + ("{" + rest.value) == "{" + rest.value;
      }
      hide DecompressRest;
    }
  }

  // ---------------------------------------------------------------- flat messages

  /** A member as it is written, "key":"text". */
  datatype Member = Member(key: string, text: string)

  /** The members that requests and responses without objects and arrays are made of. */
  predicate Writable(m: Member) {
    && QUOTE !in m.text
    && if m.key == "action" then m.text in VERBS
       else
         && (m.key == "value" || m.key == "requestId" || m.key == "subscriptionId" || m.key == "path" || m.key == "ts")
         && !Listed(m.text) && (m.key == "ts" ==> |m.text| >= 19)
  }

  const VERBS := ["get", "set", "subscribe", "unsubscribe", "subscription"]

  function VerbByte(text: string): char {
    if text == "get" then 0x8A as char
    else if text == "set" then 0x8B as char
    else if text == "subscribe" then 0x8C as char
    else if text == "unsubscribe" then 0x8D as char
    else 0x8E as char
  }

  function MemberBytes(m: Member, env: Env): string
    requires Writable(m)
  {
    if m.key == "action" then [0x80 as char, VerbByte(m.text)]
    else if m.key == "requestId" then [0x81 as char] + ValueBytes(m.text, env)
    else if m.key == "value" then [0x82 as char] + ValueBytes(m.text, env)
    else if m.key == "ts" then [0x83 as char] + StampBytes(m.text)
    else if m.key == "path" then [0x84 as char] + PathBytes(m.text, env)
    else [0x85 as char] + ValueBytes(m.text, env)
  }

  function AllBytes(ms: seq<Member>, env: Env): string
    requires forall m :: m in ms ==> Writable(m)
  {
    if ms == [] then "" else MemberBytes(ms[0], env) + AllBytes(ms[1..], env)
  }

  /** The tokens of a message behind its first brace. */
  function FlatTokens(ms: seq<Member>): seq<string> {
    if ms == [] then ["}"]
    else
      ["\"" + ms[0].key + "\"", ":", "\"" + ms[0].text + "\""]
      + ((if |ms| > 1 then [","] else []) + FlatTokens(ms[1..]))
  }

  lemma KeyIsListed(m: Member)
    requires Writable(m)
    ensures QUOTE !in m.key && QUOTE !in m.text
  {
    forall i | 0 <= i < |m.key| ensures m.key[i] != QUOTE {
    }
  }

  /** The place of a key in the list. */
  function KeyCode(key: string): nat {
    if key == "action" then 0 else if key == "requestId" then 1 else if key == "value" then 2
    else if key == "ts" then 3 else if key == "path" then 4 else 5
  }

  lemma KeyCodeIs(m: Member)
    requires Writable(m)
    ensures KeyCode(m.key) < 6 && CODES[KeyCode(m.key)] == m.key
  {
  }

  lemma VerbCode(text: string) returns (i: nat)
    requires text in VERBS
    ensures 10 <= i < 15 && CODES[i] == text && Byte(i) == VerbByte(text)
  {
    i := if text == "get" then 10 else if text == "set" then 11 else if text == "subscribe" then 12
         else if text == "unsubscribe" then 13 else 14;
  }

  /** What the word of a member becomes behind its key. */
  lemma TextBytes(m: Member, env: Env) returns (out: string)
    requires Writable(m) && m.key != "action" && Sorted(env.paths)
    ensures CompressWord(Quoted(m.text), None, State(KeyCode(m.key), false), env) == Some((out, State(NONE, false)))
    ensures MemberBytes(m, env) == [Byte(KeyCode(m.key))] + out
  {
    ListedIff(m.text);
    QuotedInner(m.text);
    CodeIndexOfOther(m.text);
    ValueBytesAre(m.text, env);
    PathBytesAre(m.text, env);
    hide CODES, CodeIndex, CompressValue, ValueBytes, CompressPathToken, PathBytes, TimeStamp.Compress, StampBytes;
    hide Listed;
    if m.key == "ts" {
      StampBytesAre(m.text);
      out := StampBytes(m.text);
    } else if m.key == "path" {
      out := PathBytes(m.text, env);
    } else {
      out := ValueBytes(m.text, env);
    }
  }

  lemma MemberCompresses(m: Member, more: seq<string>, st: State, env: Env) returns (next: State)
    requires Writable(m) && Sorted(env.paths)
    ensures CompressTokens(["\"" + m.key + "\"", ":", "\"" + m.text + "\""] + more, st, env)
         == Then(MemberBytes(m, env), CompressTokens(more, next, env))
  {
    var code := KeyCode(m.key);
    KeyCodeIs(m);
    if m.key == "action" {
      var verb := VerbCode(m.text);
      hide CODES, CompressTokens, CompressWord, VerbByte;
      assert MemberBytes(m, env) == [Byte(0)] + [Byte(verb)];
      MemberOrder(m.key, m.text, more);
      CompressKey(0, [Quoted(m.text)] + more, st, env);
      CompressCode(verb, more, st, env);
      ThenThen([Byte(0)], [Byte(verb)], CompressTokens(more, st, env));
      next := st;
    } else {
      var out := TextBytes(m, env);
      ListedIff(m.text);
      MemberOrder(m.key, m.text, more);
      next := State(NONE, false);
      hide CompressTokens, CompressWord, MemberBytes, Writable;
      CompressKey(code, [Quoted(m.text)] + more, st, env);
      WordCompresses(m.text, out, next, more, State(code, false), env);
      ThenThen([Byte(code)], out, CompressTokens(more, next, env));
    }
  }

  lemma MemberOrder(key: string, text: string, more: seq<string>)
    ensures ["\"" + key + "\"", ":", "\"" + text + "\""] + more == [Quoted(key), ":"] + ([Quoted(text)] + more)
  {
  }

  lemma {:induction false} FlatCompresses(ms: seq<Member>, st: State, env: Env)
    requires Sorted(env.paths) && forall m :: m in ms ==> Writable(m)
    ensures CompressTokens(FlatTokens(ms), st, env) == Some(AllBytes(ms, env))
  {
    hide Writable, MemberBytes, CompressWord, Sorted;
    if ms == [] {
      ClosingToken(st, env);
    } else {
      var m, rest := ms[0], FlatTokens(ms[1..]);
      assert m in ms;
      var more := (if |ms| > 1 then [","] else []) + rest;
      var next := MemberCompresses(m, more, st, env);
      if |ms| > 1 {
        CompressMark(',', rest, next, env);
      } else {
        assert more == rest;
      }
      FlatCompresses(ms[1..], next, env);
    }
  }

  lemma ClosingToken(st: State, env: Env)
    ensures CompressTokens(["}"], st, env) == Some("")
  {
    var tokens := ["}"];
    assert tokens[1..] == [] && CompressTokens(tokens[1..], st, env) == Some("");
    assert CompressSymbol(tokens[0][0], false, true, st) == ("", st);
    ThenNothing(Some(""));
  }

  lemma {:induction false} FlatAreTokens(ms: seq<Member>)
    requires forall m :: m in ms ==> Writable(m)
    ensures forall t :: t in FlatTokens(ms) ==> IsToken(t)
  {
    MarksAreTokens();
    hide IsToken, Writable;
    if ms != [] {
      assert ms[0] in ms;
      KeyIsListed(ms[0]);
      QuotedIsToken(ms[0].key);
      QuotedIsToken(ms[0].text);
      FlatAreTokens(ms[1..]);
    }
  }

  /** A message of such members, in any spacing, compresses to their bytes. */
  lemma FlatBytes(ms: seq<Member>, gaps: seq<nat>, env: Env)
    requires Sorted(env.paths) && (forall m :: m in ms ==> Writable(m)) && |gaps| == |FlatTokens(ms)|
    ensures Compress("{" + Layout(FlatTokens(ms), gaps), env) == Some(AllBytes(ms, env))
  {
    var body := Layout(FlatTokens(ms), gaps);
    FlatAreTokens(ms);
    FlatCompresses(ms, START, env);
    CompressLayout(FlatTokens(ms), gaps, START, env);
    hide *;
    FirstBrace(body, env);
  }

  // ---------------------------------------------------------------- decompression

  lemma WordComma(i: nat, s: string)
    requires i < 15 && s != "" && N(s[0]) == 128 + i
    ensures CommaAfter(i, s, 1) <==> i != 0 && i != 8 && i != 9 && |s| > 1 && s[1] != '}' && s[1] != ']'
  {
  }

  lemma WordRead(i: nat, s: string, env: Env)
    requires i < 26 && !(1 <= i < 6) && s != "" && N(s[0]) == 128 + i
    ensures var word := Quoted(CODES[i]) + (if i < 10 then ":" else "");
            ReadCompressed(s, env)
            == Some((if i >= 15 then "" else word + if CommaAfter(i, s, 1) then "," else "", 1))
  {
    ListedCodes();
    hide CODES, LISTED, CommaAfter, Quoted;
    assert DecompressPayload(i, s, env) == Some(("", 0));
    if i < 15 {
      var word := Quoted(CODES[i]) + (if i < 10 then ":" else "");
      assert word + "" == word;
    } else {
      assert !CommaAfter(i, s, 1) by {
        NoComma(i, s);
      }
      assert "" + "" + "" == "";
    }
  }

  lemma NoComma(i: nat, s: string)
    requires i >= 15 && s != ""
    ensures !CommaAfter(i, s, 1)
  {
  }

  /** What the decoder makes of the byte of a word that takes no payload: keys get a colon; data, dp and the verbs get a
      comma when something but a closing bracket follows; types are skipped. */
  lemma WordReads(i: nat, tail: string, env: Env)
    requires i < |LISTED| && (LISTED[i].byte == 0x80 || LISTED[i].byte >= 0x86)
    ensures var word, byte := "\"" + LISTED[i].word + "\"", LISTED[i].byte;
            var comma := if tail != "" && tail[0] != '}' && tail[0] != ']' then "," else "";
            DecompressRest([byte as char] + tail, env)
            == Then(if byte == 0x80 || byte == 0x88 || byte == 0x89 then word + ":"
                    else if byte < 0x88 then word + ":" + comma
                    else if byte < 0x8F then word + comma
                    else "", DecompressRest(tail, env))
  {
    var s := [LISTED[i].byte as char] + tail;
    ListedCodes();
    hide LISTED, CODES;
    assert s[1..] == tail && N(s[0]) == 128 + i;
    WordRead(i, s, env);
    if i < 15 {
      WordComma(i, s);
    }
    hide ReadCompressed, CommaAfter;
    var word := Quoted(CODES[i]);
    assert word + "" == word && word + ":" + "" == word + ":";
  }
}
