/** Round trips of the codec's words, values and paths, each on its own. */
module CodecValues {
  import opened Text
  import opened PathList
  import opened Codec

  // ---------------------------------------------------------------- words

  lemma {:induction false} CodeFromFinds(codes: seq<string>, token: string, i: nat)
    requires i <= |codes|
    requires |codes| < NONE
    ensures var c := CodeFrom(codes, token, i);
            if c == NONE then token !in codes[i..]
            else i <= c < |codes| && codes[c] == token && token !in codes[i..c]
    decreases |codes| - i
  {
    if i < |codes| && codes[i] != token {
      CodeFromFinds(codes, token, i + 1);
      assert codes[i..] == [codes[i]] + codes[i + 1..];
      var c := CodeFrom(codes, token, i + 1);
      assert i < c <= |codes| ==> codes[i..c] == [codes[i]] + codes[i + 1..c];
    }
  }

  /** Length, first and last character tell the words of the list apart. */
  lemma CodesDiffer(i: nat, j: nat)
    requires i < j < 26
    ensures CODES[i] != CODES[j]
  {
    var a, b := CODES[i], CODES[j];
    assert |a| != |b| || a[0] != b[0] || a[|a| - 1] != b[|b| - 1];
  }

  lemma CodeIndexOfCode(i: nat)
    requires i < 26
    ensures CodeIndex(CODES[i]) == i
  {
    CodeFromFinds(CODES, CODES[i], 0);
    var c := CodeIndex(CODES[i]);
    assert CODES[i] in CODES;
    if c < i {
      CodesDiffer(c, i);
    }
  }

  lemma CodeIndexOfOther(token: string)
    requires token !in CODES
    ensures CodeIndex(token) == NONE
  {
    CodeFromFinds(CODES, token, 0);
  }

  // ---------------------------------------------------------------- integers

  function Pow256(w: nat): nat {
    if w == 0 then 1 else 256 * Pow256(w - 1)
  }

  lemma {:induction false} BigEndianRoundTrip(n: nat, w: nat)
    requires n < Pow256(w)
    ensures FromBigEndian(BigEndian(n, w)) == n
  {
    if w > 0 {
      BigEndianRoundTrip(n / 256, w - 1);
      assert BigEndian(n, w)[..w - 1] == BigEndian(n / 256, w - 1);
    }
  }

  lemma Pow256s()
    ensures Pow256(0) == 1 && Pow256(1) == 0x100 && Pow256(2) == 0x1_0000
    ensures Pow256(3) == 0x100_0000 && Pow256(4) == 0x1_0000_0000
  {
    assert Pow256(2) == 256 * Pow256(1) && Pow256(3) == 256 * Pow256(2) && Pow256(4) == 256 * Pow256(3);
  }

  /** The width is the smallest of one to four bytes that holds the absolute value. */
  lemma WidthIsMinimal(n: int)
    requires -0x1_0000_0000 < n < 0x1_0000_0000
    ensures var w := |CompressInt(n)| - 1;
            var abs := if n < 0 then -n else n;
            1 <= w <= 4 && abs < Pow256(w) && forall v :: 1 <= v < w ==> abs >= Pow256(v)
  {
    Pow256s();
  }

  /** Sign and low 32 bits, in decimal. */
  function IntText(n: int): string {
    (if n < 0 then "-" else "") + Digits(AbsInt64(n) % 0x1_0000_0000)
  }

  lemma IntBytesDecompress(s: string, width: nat, isPos: bool, n: nat)
    requires 1 <= width <= 4 && |s| > width && n < Pow256(width)
    requires s[0] == Byte(IntCode(width, isPos)) && s[1..width + 1] == BigEndian(n, width)
    ensures DecompressInt(IntCode(width, isPos), s)
         == Some((Quoted((if isPos then "" else "-") + Digits(n)), width + 1))
  {
    BigEndianRoundTrip(n, width);
    hide Digits, BigEndian, FromBigEndian, Pow256, IntCode;
  }

  /** What any int64 decompresses to, whatever bytes follow; the decoder takes exactly the bytes produced. */
  lemma IntDecompresses(n: int, tail: string, env: Env)
    requires MIN_INT64 <= n <= MAX_INT64
    ensures DecompressOne(CompressInt(n) + tail, env) == Some((Quoted(IntText(n)), |CompressInt(n)|))
  {
    hide Digits, DecompressInt, DecompressText, BigEndian;
    var abs := AbsInt64(n);
    var w, low := Width(abs), abs % 0x1_0000_0000;
    var s := CompressInt(n) + tail;
    Pow256s();
    assert low < Pow256(w);
    assert s[1..w + 1] == BigEndian(low, w);
    IntBytesDecompress(s, w, n >= 0, low);
    assert (N(s[0]) + 128) % 256 == IntCode(w, n >= 0);
  }

  function Low(n: int): int {
    var k: int := AbsInt64(n) % 0x1_0000_0000;
    if n < 0 then -k else k
  }

  lemma IntTextIsItoa(n: int)
    requires n >= 0 || Low(n) != 0
    ensures IntText(n) == Itoa(Low(n))
  {
    assert n >= 0 ==> IntText(n) == Digits(Low(n));
  }

  lemma AtoiOfMinusZero(v: string)
    requires v == "-" + Digits(0)
    ensures Atoi(v) == Some(0)
  {
    assert v[1..] == Digits(0);
    DigitsValueOfDigits(0);
  }

  /** Reading a decompressed integer again gives the sign and the low 32 bits of the original. */
  lemma AtoiOfIntText(n: int)
    ensures Atoi(IntText(n)) == Some(Low(n))
  {
    hide Atoi, Itoa;
    if n >= 0 || Low(n) != 0 {
      IntTextIsItoa(n);
      AtoiOfItoa(Low(n));
    } else {
      AtoiOfMinusZero(IntText(n));
    }
  }

  /** An integer text is restored exactly when it is the canonical decimal of a number below 2^32 in absolute value. */
  lemma IntRestoredIff(v: string, n: int)
    requires MIN_INT64 <= n <= MAX_INT64 && Atoi(v) == Some(n)
    ensures IntText(n) == v <==> v == Itoa(n) && -0x1_0000_0000 < n < 0x1_0000_0000
  {
    hide Atoi, IntText, Itoa;
    AtoiOfIntText(n);
    if n >= 0 || Low(n) != 0 {
      IntTextIsItoa(n);
    }
  }

  // ---------------------------------------------------------------- values

  /** The value codec keeps the text. */
  predicate Kept(v: string, env: Env) {
    match ValueKind(v, env)
    case Int(n) => v == Itoa(n) && -0x1_0000_0000 < n < 0x1_0000_0000
    case Bool => true
    case Float => env.floatText(env.floatBytes(v)) == v
    case Other => v != ""
  }

  /** The value texts the codec restores wherever they stand in a message. */
  predicate GoodValue(v: string, env: Env) {
    QUOTE !in v && v !in CODES && Kept(v, env)
  }

  lemma AtoiRange(v: string)
    ensures Atoi(v).Some? ==> MIN_INT64 <= Atoi(v).value <= MAX_INT64
  {
  }

  lemma TextDecompresses(v: string, tail: string)
    requires QUOTE !in v && v != ""
    ensures DecompressText([Byte(UNKNOWN)] + Quoted(v) + tail) == Some((Quoted(v), |v| + 3))
  {
    var s := [Byte(UNKNOWN)] + Quoted(v) + tail;
    var back := s[3..];
    assert back == v[1..] + [QUOTE] + tail;
    assert back[..|v| - 1] == v[1..];
    IndexOfUnique(back, QUOTE, |v| - 1);
    hide IndexOf;
    assert s[1..|v| + 3] == Quoted(v);
  }

  /** compressValue then decompressOneValue is the identity on these values, whatever bytes follow. */
  lemma ValueRoundTrip(v: string, tail: string, env: Env)
    requires QUOTE !in v && Kept(v, env)
    ensures DecompressOne(CompressValue(v, env) + tail, env) == Some((Quoted(v), |CompressValue(v, env)|))
  {
    hide DecompressInt, DecompressText, CompressInt, Atoi, IntText;
    var s := CompressValue(v, env) + tail;
    match ValueKind(v, env)
    case Int(n) =>
      AtoiRange(v);
      IntDecompresses(n, tail, env);
      IntRestoredIff(v, n);
    case Bool =>
      assert N(s[1]) == if v == "true" then 1 else 0;
    case Float =>
      assert s[1..5] == env.floatBytes(v);
    case Other =>
      TextDecompresses(v, tail);
  }

  lemma GoodRoundTrip(v: string, tail: string, env: Env)
    requires GoodValue(v, env)
    ensures DecompressOne(CompressValue(v, env) + tail, env) == Some((Quoted(v), |CompressValue(v, env)|))
  {
    ValueRoundTrip(v, tail, env);
  }

  /** The first byte of a compressed value is a type code: none of the brackets, and no key. */
  lemma ValueLead(v: string, env: Env)
    ensures 143 <= N(CompressValue(v, env)[0]) <= 153
  {
    hide Atoi;
  }

  /** An empty string followed by any quoted text takes bytes of what follows it: it is not restored. */
  lemma EmptyStringSwallows(tail: string, env: Env)
    requires QUOTE in tail
    ensures var r := DecompressOne([Byte(UNKNOWN)] + Quoted("") + tail, env);
            r.Some? && r.value.1 > 3 && r.value.0 != Quoted("")
  {
    hide DecompressInt;
    var s := [Byte(UNKNOWN)] + Quoted("") + tail;
    assert s[3..] == tail;
  }

  /** With these bytes behind it the value is taken from its own bytes, as it was. */
  predicate RestoredBefore(v: string, tail: string, env: Env) {
    DecompressOne(CompressValue(v, env) + tail, env) == Some((Quoted(v), |CompressValue(v, env)|))
  }

  /** A value is restored, whatever follows it, exactly when it is kept. */
  lemma ValueRoundTripIff(v: string, env: Env)
    requires QUOTE !in v
    ensures (forall tail :: RestoredBefore(v, tail, env)) <==> Kept(v, env)
  {
    if Kept(v, env) {
      forall tail ensures RestoredBefore(v, tail, env) {
        ValueRoundTrip(v, tail, env);
      }
    } else {
      var tail := "\"";
      NotKept(v, env);
      assert !RestoredBefore(v, tail, env);
    }
  }

  lemma NotKept(v: string, env: Env)
    requires QUOTE !in v && !Kept(v, env)
    ensures DecompressOne(CompressValue(v, env) + "\"", env) != Some((Quoted(v), |CompressValue(v, env)|))
  {
    hide DecompressInt, DecompressText, CompressInt, Atoi, IntText, Itoa, Quoted;
    match ValueKind(v, env)
    case Int(n) =>
      AtoiRange(v);
      IntDecompresses(n, "\"", env);
      IntRestoredIff(v, n);
      QuotedEqual(IntText(n), v);
    case Float =>
      var s := CompressValue(v, env) + "\"";
      assert s[1..5] == env.floatBytes(v);
      QuotedEqual(env.floatText(env.floatBytes(v)), v);
    case Other =>
      EmptyStringSwallows("\"", env);
    case Bool =>
  }

  // ---------------------------------------------------------------- paths

  /** The text decompressPath makes of two index bytes. */
  function PathText(bytes: string, env: Env): Option<string>
    requires |bytes| == 2
  {
    var i := N(bytes[0]) * 256 + N(bytes[1]);
    if i < |env.paths| then Some(Quoted(env.paths[i])) else None
  }

  /** A listed path, dotted or slashed, compresses to two bytes that give its dot form back
      exactly when its index fits them. */
  lemma PathRoundTripIff(p: string, env: Env)
    requires Sorted(env.paths) && forall j, k :: 0 <= j < k < |env.paths| ==> env.paths[j] != env.paths[k]
    requires Dotted(p) in env.paths
    ensures |CompressPathToken(Quoted(p), env)| == 2
    ensures PathText(CompressPathToken(Quoted(p), env), env) == Some(Quoted(Dotted(p)))
            <==> SearchIndex(env.paths, Dotted(p)) < 0x1_0000
  {
    hide SearchIndex;
    DottedInner(p);
    SearchFinds(env.paths, Dotted(p));
    var i, bytes := SearchIndex(env.paths, Dotted(p)), CompressPathToken(Quoted(p), env);
    assert bytes == [B(i / 256), B(i)];
    var back := N(bytes[0]) * 256 + N(bytes[1]);
    assert back == i % 0x1_0000;
    if back < |env.paths| {
      QuotedEqual(env.paths[back], Dotted(p));
    }
  }

  lemma QuotedEqual(a: string, b: string)
    ensures Quoted(a) == Quoted(b) <==> a == b
  {
    assert Quoted(a)[1..|a| + 1] == a && Quoted(b)[1..|b| + 1] == b;
  }

  lemma DottedInner(p: string)
    ensures Dotted(Quoted(p))[1..|Quoted(p)| - 1] == Dotted(p)
  {
  }

  /** An unlisted path keeps its token. */
  lemma UnlistedPathKept(p: string, env: Env)
    requires Sorted(env.paths) && Dotted(p) !in env.paths
    ensures CompressPathToken(Quoted(p), env) == Quoted(p)
  {
    DottedInner(p);
    SearchFinds(env.paths, Dotted(p));
  }
}
