/** Messages of the grammar with one part that is outside it: a path that is not listed, a code word as a value, or a
    value that is not kept. None of them is restored, wherever that part stands. */
module CodecOddParts {
  import opened Text
  import opened PathList
  import opened Codec
  import opened CodecValues
  import opened CodecMessages
  import opened CodecRoundTrip
  import opened CodecLosses

  predicate AllGood(m: seq<Elem>, env: Env) {
    forall e :: e in m ==> Good(e.part, env) && Keyed(e.part)
  }

  /** The tokens of some parts that others follow. */
  function FrontTokens(m: seq<Elem>): seq<string>
    requires forall e :: e in m ==> Keyed(e.part)
  {
    if m == [] then [] else PartTokens(m[0].part) + (if m[0].comma then [","] else []) + FrontTokens(m[1..])
  }

  function OddTokens(key: nat, text: string, comma: bool): seq<string>
    requires key < 26
  {
    [Quoted(CODES[key]), ":", Quoted(text)] + if comma then [","] else []
  }

  /** The tokens of a message with a member of its own between good parts, without the first brace. */
  function OddMessage(pre: seq<Elem>, key: nat, text: string, comma: bool, post: seq<Elem>): seq<string>
    requires key < 26 && (forall e :: e in pre ==> Keyed(e.part)) && (forall e :: e in post ==> Keyed(e.part))
  {
    FrontTokens(pre) + (OddTokens(key, text, comma) + Tokens(post))
  }

  /** The message in any spacing. */
  function OddText(pre: seq<Elem>, key: nat, text: string, comma: bool, post: seq<Elem>, gaps: seq<nat>): string
    requires key < 26 && (forall e :: e in pre ==> Keyed(e.part)) && (forall e :: e in post ==> Keyed(e.part))
    requires |gaps| == |OddMessage(pre, key, text, comma, post)|
  {
    "{" + Layout(OddMessage(pre, key, text, comma, post), gaps)
  }

  /** What decompression should give, with this text for the member. */
  function Wanted(pre: seq<Elem>, key: nat, text: string, comma: bool, post: seq<Elem>): string
    requires key < 26 && (forall e :: e in pre ==> Keyed(e.part)) && (forall e :: e in post ==> Keyed(e.part))
  {
    DotAllKeyed(pre);
    DotAllKeyed(post);
    "{" + Flat(OddMessage(DotAll(pre), key, text, comma, DotAll(post)))
  }

  // ---------------------------------------------------------------- compression

  function AfterAll(m: seq<Elem>, st: State): State {
    if m == [] then st else AfterAll(m[1..], CodecMessages.After(m[0].part, st))
  }

  lemma {:induction false} FrontCompresses(m: seq<Elem>, more: seq<string>, st: State, env: Env)
    requires AllGood(m, env) && more != []
    ensures CompressTokens(FrontTokens(m) + more, st, env)
         == Then(EncodeAll(m, env), CompressTokens(more, AfterAll(m, st), env))
  {
    hide Encode, PartTokens, CompressTokens;
    if m == [] {
      assert [] + more == more;
      ThenNothing(CompressTokens(more, st, env));
    } else {
      var e := m[0];
      assert e in m;
      var rest, mark := FrontTokens(m[1..]) + more, if e.comma then [","] else [];
      var next := CodecMessages.After(e.part, st);
      assert FrontTokens(m) + more == PartTokens(e.part) + (mark + rest);
      PartCompresses(e.part, mark + rest, st, env);
      if e.comma {
        CompressMark(',', rest, next, env);
      } else {
        assert mark + rest == rest;
      }
      FrontCompresses(m[1..], more, next, env);
      ThenThen(Encode(e.part, env), EncodeAll(m[1..], env), CompressTokens(more, AfterAll(m, st), env));
    }
  }

  /** A member whose text the compressor makes `out` of. */
  lemma OddCompresses(key: nat, text: string, out: string, next: State, comma: bool, post: seq<Elem>, st: State,
                      env: Env)
    requires (key == PATH || TakesValue(key)) && AllGood(post, env)
    requires CompressWord(Quoted(text), None, State(key, false), env) == Some((out, next))
    ensures CompressTokens(OddTokens(key, text, comma) + Tokens(post), st, env)
         == Some([Byte(key)] + (out + EncodeAll(post, env)))
  {
    var rest := (if comma then [","] else []) + Tokens(post);
    OddOrder(key, text, comma, Tokens(post));
    MarkCompresses(comma, post, next, env);
    hide CompressWord, CompressTokens, OddTokens, Tokens;
    CompressKey(key, [Quoted(text)] + rest, st, env);
    WordCompresses(text, out, next, rest, State(key, false), env);
    hide *;
  }

  lemma OddOrder(key: nat, text: string, comma: bool, more: seq<string>)
    requires key < |CODES|
    ensures OddTokens(key, text, comma) + more
         == [Quoted(CODES[key]), ":"] + ([Quoted(text)] + ((if comma then [","] else []) + more))
  {
    hide Quoted;
  }

  lemma MarkCompresses(comma: bool, post: seq<Elem>, st: State, env: Env)
    requires AllGood(post, env)
    ensures CompressTokens((if comma then [","] else []) + Tokens(post), st, env) == Some(EncodeAll(post, env))
  {
    hide CompressTokens;
    if comma {
      CompressMark(',', Tokens(post), st, env);
    } else {
      assert [] + Tokens(post) == Tokens(post);
    }
    TokensCompress(post, st, env);
  }

  lemma WordCompresses(text: string, out: string, next: State, more: seq<string>, st: State, env: Env)
    requires CompressWord(Quoted(text), None, st, env) == Some((out, next))
    ensures CompressTokens([Quoted(text)] + more, st, env) == Then(out, CompressTokens(more, next, env))
  {
    var tokens := [Quoted(text)] + more;
    ColonIrrelevant(tokens[0], NextColon(tokens), st, env);
    hide CompressWord;
    assert tokens[1..] == more;
  }

  lemma {:induction false} FrontAreTokens(m: seq<Elem>, env: Env)
    requires AllGood(m, env)
    ensures forall t :: t in FrontTokens(m) ==> IsToken(t)
  {
    if m != [] {
      assert m[0] in m;
      MarksAreTokens();
      PartTokensAreTokens(m[0].part, env);
      FrontAreTokens(m[1..], env);
      hide IsToken, PartTokens;
    }
  }

  lemma OddAreTokens(pre: seq<Elem>, key: nat, text: string, comma: bool, post: seq<Elem>, env: Env)
    requires key < 26 && QUOTE !in text && AllGood(pre, env) && AllGood(post, env)
    ensures forall t :: t in OddMessage(pre, key, text, comma, post) ==> IsToken(t)
  {
    FrontAreTokens(pre, env);
    TokensAreTokens(post, env);
    CodesAreTokens(key);
    QuotedIsToken(text);
    MarksAreTokens();
    hide IsToken;
  }

  /** The bytes of such a message. */
  lemma OddMessageCompresses(pre: seq<Elem>, key: nat, text: string, out: string, next: State, comma: bool,
                             post: seq<Elem>, gaps: seq<nat>, env: Env)
    requires (key == PATH || TakesValue(key)) && QUOTE !in text && AllGood(pre, env) && AllGood(post, env)
    requires CompressWord(Quoted(text), None, State(key, false), env) == Some((out, next))
    requires |gaps| == |OddMessage(pre, key, text, comma, post)|
    ensures Compress(OddText(pre, key, text, comma, post, gaps), env)
         == Some(EncodeAll(pre, env) + ([Byte(key)] + (out + EncodeAll(post, env))))
  {
    hide CompressWord, CompressTokens, IsToken;
    var tokens, more := OddMessage(pre, key, text, comma, post), OddTokens(key, text, comma) + Tokens(post);
    OddAreTokens(pre, key, text, comma, post, env);
    OddCompresses(key, text, out, next, comma, post, AfterAll(pre, START), env);
    FrontCompresses(pre, more, START, env);
    CompressLayout(tokens, gaps, START, env);
    FirstBrace(Layout(tokens, gaps), env);
  }

  // ---------------------------------------------------------------- decompression

  /** The pieces of some parts that this text follows. */
  function FrontPieces(m: seq<Elem>, tail: string, env: Env): seq<Piece>
    requires AllGood(m, env)
  {
    if m == [] then []
    else PartPieces(m[0].part, m[0].comma, Restored(m[0].part, Head(EncodeAll(m[1..], env) + tail), env), env)
         + FrontPieces(m[1..], tail, env)
  }

  lemma {:induction false} FrontDecompresses(m: seq<Elem>, tail: string, env: Env)
    requires AllGood(m, env) && NoType(tail)
    ensures DecompressRest(EncodeAll(m, env) + tail, env)
         == Then(Join(FrontPieces(m, tail, env), true), DecompressRest(tail, env))
  {
    hide Encode, Good, PartPieces, Restored, DecompressRest;
    if m == [] {
      assert "" + tail == tail;
      ThenNothing(DecompressRest(tail, env));
      JoinNothing(true);
    } else {
      var e, rest := m[0], EncodeAll(m[1..], env) + tail;
      assert e in m;
      if m[1..] != [] {
        assert m[1] in m;
        EncodeLead(m[1].part, env);
        assert rest[0] == Encode(m[1].part, env)[0];
      } else {
        assert rest == tail;
      }
      var first := PartPieces(e.part, e.comma, Restored(e.part, Head(rest), env), env);
      assert EncodeAll(m, env) + tail == Encode(e.part, env) + rest;
      PartDecompresses(e.part, e.comma, rest, env);
      FrontDecompresses(m[1..], tail, env);
      JoinAppend(first, FrontPieces(m[1..], tail, env), true);
      ThenThen(Join(first, true), Join(FrontPieces(m[1..], tail, env), true), DecompressRest(tail, env));
    }
  }

  lemma {:induction false} FrontSolid(m: seq<Elem>, tail: string, env: Env)
    requires AllGood(m, env)
    ensures AllSolid(FrontPieces(m, tail, env))
  {
    hide Good, PartPieces, Restored, Encode, Solid;
    if m != [] {
      assert m[0] in m;
      PartAgrees(m[0].part, m[0].comma, Restored(m[0].part, Head(EncodeAll(m[1..], env) + tail), env), env);
      FrontSolid(m[1..], tail, env);
    }
  }

  lemma {:induction false} FrontFlat(m: seq<Elem>, tail: string, env: Env)
    requires AllGood(m, env)
    ensures forall e :: e in DotAll(m) ==> Keyed(e.part)
    ensures Flat(FrontTokens(DotAll(m))) == Join(FrontPieces(m, tail, env), false)
  {
    hide PartTokens, PartPieces, Restored, Good, Encode, Dots, Join, Flat;
    if m == [] {
      FlatNothing();
      JoinNothing(false);
    } else {
      var e, restored := m[0], Restored(m[0].part, Head(EncodeAll(m[1..], env) + tail), env);
      assert e in m;
      DotAllKeyed(m);
      assert DotAll(m)[0] in DotAll(m);
      var tokens, mark := PartTokens(Dots(e.part)), if e.comma then [","] else [];
      assert DotAll(m)[1..] == DotAll(m[1..]);
      FrontFlat(m[1..], tail, env);
      PartFlat(e.part, e.comma, restored, env);
      FlatAppend(tokens, mark);
      FlatAppend(tokens + mark, FrontTokens(DotAll(m[1..])));
      FlatOne(",");
      FlatNothing();
      JoinAppend(PartPieces(e.part, e.comma, restored, env), FrontPieces(m[1..], tail, env), false);
    }
  }

  /** The text wanted behind the member's key and text. */
  function Behind(comma: bool, post: seq<Elem>): string
    requires forall e :: e in post ==> Keyed(e.part)
  {
    DotAllKeyed(post);
    Comma(comma) + Flat(Tokens(DotAll(post)))
  }

  lemma WantedIs(pre: seq<Elem>, key: nat, text: string, comma: bool, post: seq<Elem>, tail: string, env: Env)
    requires key < 26 && AllGood(pre, env) && AllGood(post, env)
    ensures Wanted(pre, key, text, comma, post)
         == "{" + (Join(FrontPieces(pre, tail, env), false) + (Key(key) + (Quoted(text) + Behind(comma, post))))
  {
    FrontFlat(pre, tail, env);
    DotAllKeyed(post);
    hide Flat, Tokens, FrontTokens, Good, Join, FrontPieces, Quoted;
    var head, mark := [Quoted(CODES[key]), ":", Quoted(text)], if comma then [","] else [];
    var last := Tokens(DotAll(post));
    FlatAppend(FrontTokens(DotAll(pre)), head + mark + last);
    FlatAppend(head + mark, last);
    FlatAppend(head, mark);
    FlatThree(Quoted(CODES[key]), ":", Quoted(text));
    FlatOne(",");
    FlatNothing();
    Grouped(Quoted(CODES[key]) + ":", Quoted(text), Comma(comma), Flat(last));
  }

  lemma Grouped(key: string, text: string, mark: string, last: string)
    ensures key + text + mark + last == key + (text + (mark + last))
  {
  }

  /** If the decoder makes another text of the member, the message is not restored. */
  lemma OddLost(pre: seq<Elem>, key: nat, text: string, comma: bool, post: seq<Elem>, odd: string, env: Env)
    requires key < KEYS && AllGood(pre, env) && AllGood(post, env) && (pre != [] ==> !pre[0].part.Bracket?)
    requires odd != "" && odd[0] == Byte(key)
    requires forall t :: DecompressRest(odd, env) == Some(t) ==>
               exists more :: t == Key(key) + more && forall z :: more + z != Quoted(text) + Behind(comma, post)
    ensures Decompress(EncodeAll(pre, env) + odd, env) != Some(Wanted(pre, key, text, comma, post))
  {
    var s, ps := EncodeAll(pre, env) + odd, FrontPieces(pre, odd, env);
    WantedIs(pre, key, text, comma, post, odd, env);
    FrontDecompresses(pre, odd, env);
    FrontSolid(pre, odd, env);
    StartsWithKey(pre, odd, env);
    hide DecompressRest, FrontPieces, Wanted, Join, Key, Solid, Good, Behind;
    if DecompressRest(odd, env).Some? {
      var t := DecompressRest(odd, env).value;
      var more :| t == Key(key) + more && forall z :: more + z != Quoted(text) + Behind(comma, post);
      var close := if s[|s| - 1] != '}' then "}" else "";
      var a, b := Key(key) + (Quoted(text) + Behind(comma, post)), Key(key) + (more + close);
      KeySolid(key, Quoted(text) + Behind(comma, post));
      KeySolid(key, more + close);
      JoinsAgreeIff(ps, a, b);
      Cancel(Key(key), Quoted(text) + Behind(comma, post), more + close);
      Cancel("{", Join(ps, false) + a, Join(ps, true) + b);
      Regrouped(Join(ps, true), Key(key), more, close);
    }
  }

  lemma Regrouped(front: string, key: string, more: string, close: string)
    ensures "{" + (front + (key + more)) + close == "{" + (front + (key + (more + close)))
  {
  }

  lemma KeySolid(key: nat, s: string)
    requires key < KEYS
    ensures Solid(Key(key) + s)
  {
  }

  lemma StartsWithKey(pre: seq<Elem>, odd: string, env: Env)
    requires AllGood(pre, env) && (pre != [] ==> !pre[0].part.Bracket?) && odd != "" && N(odd[0]) >= 128
    ensures EncodeAll(pre, env) + odd != "" && (EncodeAll(pre, env) + odd)[0] != '{'
  {
    hide Good, Encode;
    if pre != [] {
      assert pre[0] in pre;
      EncodeLead(pre[0].part, env);
      assert (EncodeAll(pre, env) + odd)[0] == Encode(pre[0].part, env)[0];
    }
  }

  // ---------------------------------------------------------------- paths

  /** Whatever bytes stand behind a path key, the decoder gives a listed path, or panics. */
  lemma OnlyListedPaths(bytes: string, env: Env)
    ensures var r := DecompressRest([Byte(PATH)] + bytes, env);
            r.Some? ==> exists i, more :: 0 <= i < |env.paths| && r.value == Key(PATH) + (Quoted(env.paths[i]) + more)
  {
    var m := [Byte(PATH)] + bytes;
    var r := DecompressRest(m, env);
    if r.Some? {
      assert ReadCompressed(m, env).Some? && N(m[0]) == 128 + PATH;
      var (text, n) := ReadCompressed(m, env).value;
      var i := N(m[1]) * 256 + N(m[2]);
      var comma := if CommaAfter(PATH, m, 3) then "," else "";
      assert text == Quoted(CODES[PATH]) + ":" + Quoted(env.paths[i]) + comma;
      var rest := DecompressRest(m[n..], env).value;
      hide Quoted, CODES;
      assert r.value == text + rest;
      MovedComma(Key(PATH), Quoted(env.paths[i]), comma, rest);
      assert r.value == Key(PATH) + (Quoted(env.paths[i]) + (comma + rest));
    }
  }

  lemma MovedComma(key: string, path: string, comma: string, rest: string)
    ensures key + path + comma + rest == key + (path + (comma + rest))
  {
  }

  /** A text that starts with one quoted text starts with no other one. */
  lemma OneQuoted(a: string, b: string, x: string, y: string)
    requires QUOTE !in a && QUOTE !in b && Quoted(a) + x == Quoted(b) + y
    ensures a == b
  {
    var s, t := Quoted(a) + x, Quoted(b) + y;
    assert s[|a| + 1] == QUOTE && t[|b| + 1] == QUOTE;
    assert forall k :: 1 <= k <= |a| ==> s[k] == a[k - 1];
    assert forall k :: 1 <= k <= |b| ==> t[k] == b[k - 1];
    assert |a| == |b|;
    assert s[1..|a| + 1] == a && t[1..|b| + 1] == b;
  }

  /** The same for any text in front, if just one other character follows. */
  lemma OnePath(a: string, b: string, x: string, y: string)
    requires QUOTE !in b && |y| == 1 && y[0] != QUOTE && Quoted(a) + x == Quoted(b) + y
    ensures a == b
  {
    var s, t := Quoted(a) + x, Quoted(b) + y;
    assert s[|a| + 1] == QUOTE && t[|a| + 1] == QUOTE;
    assert forall k :: 1 <= k <= |b| ==> t[k] == b[k - 1];
    assert t[|b| + 1] == QUOTE && t[|b| + 2] == y[0];
    assert |a| == |b|;
    assert s[1..|a| + 1] == a && t[1..|b| + 1] == b;
  }

  lemma DottedHoldsNoQuote(path: string)
    requires QUOTE !in path
    ensures QUOTE !in Dotted(path)
  {
    forall c | c in Dotted(path) ensures c != QUOTE {
      var i :| 0 <= i < |path| && Dotted(path)[i] == c;
      assert path[i] in path;
    }
  }

  lemma NothingBehind(post: seq<Elem>)
    requires post == []
    ensures Behind(false, post) == "}"
  {
    FlatOne("}");
    hide Flat;
  }

  /** No listed path holds a quote, or the path is the last member of the message. */
  predicate PlainPaths(comma: bool, post: seq<Elem>, env: Env) {
    (forall i :: 0 <= i < |env.paths| ==> QUOTE !in env.paths[i]) || (post == [] && !comma)
  }

  /** A listed path is not read where another one stood. */
  lemma ListedDiffers(listed: string, path: string, rest: string, comma: bool, post: seq<Elem>, env: Env)
    requires forall e :: e in post ==> Keyed(e.part)
    requires listed in env.paths && path !in env.paths && QUOTE !in path && PlainPaths(comma, post, env)
    ensures Quoted(listed) + rest != Quoted(path) + Behind(comma, post)
  {
    if post == [] {
      NothingBehind(post);
    }
    hide Quoted, Behind;
    if Quoted(listed) + rest == Quoted(path) + Behind(comma, post) {
      if QUOTE !in listed {
        OneQuoted(listed, path, rest, Behind(comma, post));
      } else {
        OnePath(listed, path, rest, "}");
      }
    }
  }

  lemma OtherPathLost(pre: seq<Elem>, path: string, comma: bool, post: seq<Elem>, bytes: string, env: Env)
    requires AllGood(pre, env) && AllGood(post, env) && (pre != [] ==> !pre[0].part.Bracket?)
    requires path !in env.paths && QUOTE !in path && PlainPaths(comma, post, env)
    ensures Decompress(EncodeAll(pre, env) + ([Byte(PATH)] + bytes), env) != Some(Wanted(pre, PATH, path, comma, post))
  {
    var odd := [Byte(PATH)] + bytes;
    hide EncodeAll, Wanted, DecompressRest, Quoted, Key, Good, Decompress, Behind, PlainPaths;
    OnlyListedPaths(bytes, env);
    forall t | DecompressRest(odd, env) == Some(t)
      ensures exists more :: t == Key(PATH) + more && forall z :: more + z != Quoted(path) + Behind(comma, post)
    {
      var i, rest :| 0 <= i < |env.paths| && t == Key(PATH) + (Quoted(env.paths[i]) + rest);
      var listed := Quoted(env.paths[i]);
      forall z ensures (listed + rest) + z != Quoted(path) + Behind(comma, post) {
        ListedDiffers(env.paths[i], path, rest + z, comma, post, env);
        Regroup(listed, rest, z);
      }
    }
    OddLost(pre, PATH, path, comma, post, odd, env);
  }

  lemma Regroup(a: string, b: string, c: string)
    ensures (a + b) + c == a + (b + c)
  {
  }

  /** A message with a path that is not listed is never restored, neither as it is nor with dots. */
  lemma UnlistedPathLost(pre: seq<Elem>, path: string, comma: bool, post: seq<Elem>, gaps: seq<nat>, env: Env)
    requires AllGood(pre, env) && AllGood(post, env) && (pre != [] ==> !pre[0].part.Bracket?)
    requires Sorted(env.paths) && Dotted(path) !in env.paths && path !in env.paths && PlainPaths(comma, post, env)
    requires QUOTE !in path && path !in CODES && |gaps| == |OddMessage(pre, PATH, path, comma, post)|
    ensures Compress(OddText(pre, PATH, path, comma, post, gaps), env).Some?
    ensures var r := Decompress(Compress(OddText(pre, PATH, path, comma, post, gaps), env).value, env);
            r != Some(Wanted(pre, PATH, path, comma, post)) && r != Some(Wanted(pre, PATH, Dotted(path), comma, post))
  {
    hide Compress, Decompress, OddText, OddMessage, Wanted, Dotted, Good, PlainPaths, EncodeAll;
    PathWordKept(path, env);
    OddMessageCompresses(pre, PATH, path, Quoted(path), State(NONE, false), comma, post, gaps, env);
    DottedHoldsNoQuote(path);
    OtherPathLost(pre, path, comma, post, Quoted(path) + EncodeAll(post, env), env);
    OtherPathLost(pre, Dotted(path), comma, post, Quoted(path) + EncodeAll(post, env), env);
  }

  lemma PathWordKept(path: string, env: Env)
    requires Sorted(env.paths) && Dotted(path) !in env.paths && path !in CODES
    ensures CompressWord(Quoted(path), None, State(PATH, false), env) == Some((Quoted(path), State(NONE, false)))
  {
    UnlistedPathKept(path, env);
    QuotedInner(path);
    CodeIndexOfOther(path);
    hide CodeIndex, CompressPathToken, CODES;
  }

  // ---------------------------------------------------------------- values

  /** The library prints floats without quotes, and none as the word float. */
  ghost predicate PlainFloats(env: Env) {
    forall s: Four :: QUOTE !in env.floatText(s) && env.floatText(s) != "float"
  }

  /** What the decoder makes of the bytes behind a key that takes a value. */
  lemma ValueRead(key: nat, s: string, env: Env)
    requires TakesValue(key) && s != "" && s[0] !in {'[', ']', ',', '{'}
    ensures var r := DecompressRest([Byte(key)] + s, env);
            r.Some? ==> DecompressOne(s, env).Some?
                        && exists more :: r.value == Key(key) + (DecompressOne(s, env).value.0 + more)
  {
    var m := [Byte(key)] + s;
    hide DecompressOne;
    assert m[1..] == s && N(m[0]) == 128 + key && s[0..] == s;
    var r := DecompressRest(m, env);
    if r.Some? {
      var (t, n) := DecompressOne(s, env).value;
      var mark := if n < |s| && s[n] == s[0] then "," else "";
      assert DecompressValue(s, 0, env) == Some((t + mark, n));
      var comma := if CommaAfter(key, m, n + 1) then "," else "";
      assert ReadCompressed(m, env) == Some((Quoted(CODES[key]) + ":" + (t + mark) + comma, n + 1));
      var rest := DecompressRest(m[n + 1..], env).value;
      MovedMarks(Key(key), t, mark, comma, rest);
      assert r.value == Key(key) + (t + (mark + comma + rest));
    }
  }

  lemma MovedMarks(key: string, t: string, mark: string, comma: string, rest: string)
    ensures key + (t + mark) + comma + rest == key + (t + (mark + comma + rest))
  {
  }

  /** No text that starts with the decoded one starts with the quoted one. */
  ghost predicate Other(t: string, v: string) {
    (t != "" && t[0] != QUOTE) || exists w :: t == Quoted(w) && QUOTE !in w && w != v
  }

  lemma OtherDiffers(t: string, v: string, more: string, y: string)
    requires Other(t, v) && QUOTE !in v
    ensures t + more != Quoted(v) + y
  {
    if t != "" && t[0] != QUOTE {
      assert (t + more)[0] == t[0] && (Quoted(v) + y)[0] == QUOTE;
    } else if t + more == Quoted(v) + y {
      var w :| t == Quoted(w) && QUOTE !in w && w != v;
      OneQuoted(w, v, more, y);
    }
  }

  lemma DigitsPlain(n: int)
    ensures QUOTE !in IntText(n)
  {
    hide MIN_INT64;
  }

  /** A value that is not kept, in front of any bytes. */
  lemma UnkeptReads(v: string, tail: string, env: Env)
    requires QUOTE !in v && v != "" && !Kept(v, env) && PlainFloats(env)
    ensures var r := DecompressOne(CompressValue(v, env) + tail, env); r.Some? && Other(r.value.0, v)
  {
    KeptIff(v, env);
    hide DecompressInt, CompressInt, Atoi, IntText, Itoa, Quoted;
    var s := CompressValue(v, env) + tail;
    match ValueKind(v, env)
    case Int(n) =>
      AtoiRange(v);
      IntDecompresses(n, tail, env);
      DigitsPlain(n);
      assert Other(Quoted(IntText(n)), v);
    case Float =>
      assert s[1..5] == env.floatBytes(v);
      assert Other(Quoted(env.floatText(env.floatBytes(v))), v);
    case Other =>
    case Bool =>
  }

  lemma {:induction false} PostHead(post: seq<Elem>, env: Env)
    requires AllGood(post, env) && EncodeAll(post, env) != ""
    ensures EncodeAll(post, env)[0] != QUOTE
  {
    assert post[0] in post;
    EncodeLead(post[0].part, env);
    var p := post[0].part;
    assert EncodeAll(post, env)[0] == Encode(p, env)[0];
    if !p.Bracket? {
      hide Good;
      assert N(QUOTE) < 128;
    }
  }

  lemma BoolReads(s: string, env: Env)
    requires s != "" && s[0] == Byte(BOOL) && DecompressOne(s, env).Some?
    ensures Other(DecompressOne(s, env).value.0, CODES[BOOL])
  {
    var t := DecompressOne(s, env).value.0;
    assert t == Quoted("true") || t == Quoted("false");
    assert CODES[BOOL] == "bool" && "bool"[0] == 'b' && "true"[0] == 't' && "false"[0] == 'f';
    hide Quoted, CODES;
    assert QUOTE !in "true" && QUOTE !in "false";
  }

  lemma FloatReads(s: string, env: Env)
    requires s != "" && s[0] == Byte(FLOAT) && DecompressOne(s, env).Some? && PlainFloats(env)
    ensures Other(DecompressOne(s, env).value.0, CODES[FLOAT])
  {
    assert CODES[FLOAT] == "float";
    hide CODES, Quoted;
    assert DecompressOne(s, env).value.0 == Quoted(env.floatText(s[1..5]));
  }

  /** A code word in the place of a value, in front of such bytes. */
  lemma CodeReads(i: nat, tail: string, env: Env)
    requires i < 26 && PlainFloats(env) && (tail != "" ==> tail[0] != QUOTE)
    ensures var r := DecompressOne([Byte(i)] + tail, env); r.Some? ==> Other(r.value.0, CODES[i])
  {
    var s, word := [Byte(i)] + tail, CODES[i];
    CodeDecompresses(i, s, env);
    hide CODES, DecompressInt, DecompressText, DecompressOne, PlainFloats, Other;
    if DecompressOne(s, env).Some? {
      if 15 <= i <= 22 {
        IntCodeReads(i, s);
      } else if i == BOOL {
        BoolReads(s, env);
      } else if i == FLOAT {
        FloatReads(s, env);
      } else {
        TextReadsOther(s, word);
      }
    }
  }

  /** How the decoder branches on such a byte. */
  lemma CodeDecompresses(i: nat, s: string, env: Env)
    requires i < 26 && s != "" && s[0] == Byte(i)
    ensures 15 <= i <= 22 ==> DecompressOne(s, env) == DecompressInt(i, s)
    ensures i < 15 || i > FLOAT ==> DecompressOne(s, env) == DecompressText(s)
    ensures DecompressText(s).Some? ==> |s| >= 3
  {
    hide DecompressInt;
  }

  lemma TextReadsOther(s: string, v: string)
    requires s != "" && DecompressText(s).Some? && s[1] != QUOTE
    ensures Other(DecompressText(s).value.0, v)
  {
  }

  lemma IntCodeReads(i: nat, s: string)
    requires 15 <= i <= 22 && s != "" && DecompressInt(i, s).Some?
    ensures Other(DecompressInt(i, s).value.0, CODES[i])
  {
    var n := FromBigEndian(s[1..(i - 13) / 2 + 1]);
    var w := (if i % 2 == 1 then "-" else "") + Digits(n);
    DigitsHold(n);
    hide Digits, FromBigEndian;
    assert w[0] == if i % 2 == 1 then '-' else Digits(n)[0];
    assert CODES[i][0] == 'n' || CODES[i][0] == 'u';
    assert DecompressInt(i, s).value.0 == Quoted(w);
  }

  lemma DigitsHold(n: nat)
    ensures Digits(n) != "" && IsDigit(Digits(n)[0]) && QUOTE !in Digits(n)
  {
  }

  /** A message with a code word as a value, or with a value that the codec does not keep, is never restored. */
  lemma OddValueLost(pre: seq<Elem>, key: nat, v: string, comma: bool, post: seq<Elem>, gaps: seq<nat>, env: Env)
    requires AllGood(pre, env) && AllGood(post, env) && (pre != [] ==> !pre[0].part.Bracket?)
    requires TakesValue(key) && QUOTE !in v && (v in CODES || (v != "" && !Kept(v, env))) && PlainFloats(env)
    requires |gaps| == |OddMessage(pre, key, v, comma, post)|
    ensures Compress(OddText(pre, key, v, comma, post, gaps), env).Some?
    ensures Decompress(Compress(OddText(pre, key, v, comma, post, gaps), env).value, env)
            != Some(Wanted(pre, key, v, comma, post))
  {
    hide Compress, Decompress, OddText, OddMessage, Wanted, Good, PlainFloats, Kept, Other, EncodeAll;
    var tail := EncodeAll(post, env);
    if tail != "" {
      PostHead(post, env);
    }
    var out: string;
    var next: State;
    if v in CODES {
      var i :| 0 <= i < |CODES| && CODES[i] == v;
      out := [Byte(i)];
      CodeWord(key, i, env);
      next :| CompressWord(Quoted(CODES[i]), None, State(key, false), env) == Some(([Byte(i)], next));
      CodeReads(i, tail, env);
      CodeWordFails(i, env);
    } else {
      out, next := CompressValue(v, env), State(NONE, false);
      ValueWord(key, v, env);
      UnkeptReads(v, tail, env);
      ValueLead(v, env);
    }
    hide CompressWord, DecompressOne, CODES, CompressValue;
    OddMessageCompresses(pre, key, v, out, next, comma, post, gaps, env);
    OtherValueLost(pre, key, v, comma, post, out + tail, env);
  }

  lemma OtherValueLost(pre: seq<Elem>, key: nat, v: string, comma: bool, post: seq<Elem>, s: string, env: Env)
    requires AllGood(pre, env) && AllGood(post, env) && (pre != [] ==> !pre[0].part.Bracket?)
    requires TakesValue(key) && QUOTE !in v && s != "" && s[0] !in {'[', ']', ',', '{'}
    requires DecompressOne(s, env).Some? ==> Other(DecompressOne(s, env).value.0, v)
    ensures Decompress(EncodeAll(pre, env) + ([Byte(key)] + s), env) != Some(Wanted(pre, key, v, comma, post))
  {
    hide EncodeAll, Wanted, DecompressRest, DecompressOne, Quoted, Key, Good, Decompress, Other, Behind;
    var odd := [Byte(key)] + s;
    ValueRead(key, s, env);
    forall t | DecompressRest(odd, env) == Some(t)
      ensures exists more :: t == Key(key) + more && forall z :: more + z != Quoted(v) + Behind(comma, post)
    {
      var u := DecompressOne(s, env).value.0;
      var rest :| t == Key(key) + (u + rest);
      forall z ensures u + rest + z != Quoted(v) + Behind(comma, post) {
        OtherDiffers(u, v, rest + z, Behind(comma, post));
        assert u + rest + z == u + (rest + z);
      }
      assert t == Key(key) + (u + rest);
    }
    OddLost(pre, key, v, comma, post, odd, env);
  }
}
