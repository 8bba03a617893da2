/** Messages that carry an access token: its text passes through the codec uncoded, but the comma behind it does not. */
module CodecTokens {
  import opened Text
  import opened Codec
  import opened CodecValues
  import opened CodecMessages
  import opened CodecRoundTrip
  import opened CodecLosses
  import opened CodecOddParts

  /** The text of a token: ASCII without quotes and closing braces, and no code word. */
  predicate TokenText(t: string) {
    t !in CODES && forall i :: 0 <= i < |t| ==> N(t[i]) < 128 && t[i] != QUOTE && t[i] != '}'
  }

  // ---------------------------------------------------------------- compression

  /** No value is expected next. */
  predicate Idle(st: State) {
    st.key != TS && st.key != PATH && !TakesValue(st.key)
  }

  lemma TokenWord(t: string, st: State, env: Env)
    requires TokenText(t) && Idle(st)
    ensures CompressWord(Quoted(t), Some(false), st, env) == Some((Quoted(t), st))
  {
    QuotedInner(t);
    CodeIndexOfOther(t);
    hide CODES, CodeIndex;
    assert Quoted(t) + "" == Quoted(t);
  }

  lemma NoColonNext(comma: bool, post: seq<Elem>, env: Env)
    requires AllGood(post, env)
    ensures var rest := (if comma then [","] else []) + Tokens(post); rest != [] && rest[0] != ":"
  {
    if post != [] {
      assert post[0] in post;
      FirstToken(post[0].part, env);
    }
    hide PartTokens, Good;
  }

  lemma FirstToken(p: Part, env: Env)
    requires Good(p, env) && Keyed(p)
    ensures PartTokens(p) != [] && PartTokens(p)[0] != ":"
  {
    assert |":"| == 1;
    hide CODES;
  }

  lemma TokenCompresses(t: string, comma: bool, post: seq<Elem>, st: State, env: Env)
    requires TokenText(t) && Idle(st) && AllGood(post, env)
    ensures CompressTokens(OddTokens(AUTHORIZATION, t, comma) + Tokens(post), st, env)
         == Some([Byte(AUTHORIZATION)] + (Quoted(t) + EncodeAll(post, env)))
  {
    var rest := (if comma then [","] else []) + Tokens(post);
    NoColonNext(comma, post, env);
    OddOrder(AUTHORIZATION, t, comma, Tokens(post));
    MarkCompresses(comma, post, st, env);
    TokenWord(t, st, env);
    WordStep(t, rest, st, env);
    hide CompressTokens, CompressWord, OddTokens, Tokens;
    CompressKey(AUTHORIZATION, [Quoted(t)] + rest, st, env);
    hide *;
  }

  lemma WordStep(t: string, more: seq<string>, st: State, env: Env)
    requires more != [] && more[0] != ":"
    requires CompressWord(Quoted(t), Some(false), st, env) == Some((Quoted(t), st))
    ensures CompressTokens([Quoted(t)] + more, st, env) == Then(Quoted(t), CompressTokens(more, st, env))
  {
    hide CompressWord;
    var tokens := [Quoted(t)] + more;
    assert tokens[1..] == more && NextColon(tokens) == Some(false) && |tokens[0]| >= 2;
  }

  /** The bytes of such a message: the token stands in it as it is. */
  lemma TokenMessageCompresses(pre: seq<Elem>, t: string, comma: bool, post: seq<Elem>, gaps: seq<nat>, env: Env)
    requires TokenText(t) && AllGood(pre, env) && AllGood(post, env) && Idle(AfterAll(pre, START))
    requires |gaps| == |OddMessage(pre, AUTHORIZATION, t, comma, post)|
    ensures Compress(OddText(pre, AUTHORIZATION, t, comma, post, gaps), env)
         == Some(EncodeAll(pre, env) + ([Byte(AUTHORIZATION)] + (Quoted(t) + EncodeAll(post, env))))
  {
    var tokens := OddMessage(pre, AUTHORIZATION, t, comma, post);
    var more := OddTokens(AUTHORIZATION, t, comma) + Tokens(post);
    hide CompressTokens, IsToken;
    OddAreTokens(pre, AUTHORIZATION, t, comma, post, env);
    TokenCompresses(t, comma, post, AfterAll(pre, START), env);
    FrontCompresses(pre, more, START, env);
    CompressLayout(tokens, gaps, START, env);
    FirstBrace(Layout(tokens, gaps), env);
  }

  // ---------------------------------------------------------------- decompression

  predicate PassesThrough(s: string) {
    forall i :: 0 <= i < |s| ==> N(s[i]) < 128 && s[i] != '}'
  }

  lemma {:induction false} PlainReads(s: string, tail: string, env: Env)
    requires PassesThrough(s)
    ensures DecompressRest(s + tail, env) == Then(s, DecompressRest(tail, env))
  {
    if s == "" {
      assert s + tail == tail;
      ThenNothing(DecompressRest(tail, env));
    } else {
      var m := s + tail;
      assert m[0] == s[0] && m[1..] == s[1..] + tail;
      PlainReads(s[1..], tail, env);
      assert ReadCompressed(m, env) == Some(([s[0]] + "", 1));
      ThenThen([s[0]] + "", s[1..], DecompressRest(tail, env));
      assert [s[0]] + "" + s[1..] == s;
      hide ReadCompressed;
    }
  }

  lemma TokenReads(t: string, tail: string, env: Env)
    requires TokenText(t)
    ensures DecompressRest([Byte(AUTHORIZATION)] + (Quoted(t) + tail), env)
         == Then(Key(AUTHORIZATION), Then(Quoted(t), DecompressRest(tail, env)))
  {
    var m := [Byte(AUTHORIZATION)] + (Quoted(t) + tail);
    PlainReads(Quoted(t), tail, env);
    assert m[1..] == Quoted(t) + tail && N(m[0]) - 128 == AUTHORIZATION;
    hide CODES;
    assert !CommaAfter(AUTHORIZATION, m, 1) && DecompressPayload(AUTHORIZATION, m, env) == Some(("", 0));
    hide Quoted;
    KeyText();
    assert ReadCompressed(m, env) == Some((Key(AUTHORIZATION), 1));
    hide ReadCompressed;
  }

  lemma KeyText()
    ensures AUTHORIZATION < |CODES| && Quoted(CODES[AUTHORIZATION]) + ":" + "" + "" == Key(AUTHORIZATION)
  {
    assert Quoted(CODES[AUTHORIZATION]) + ":" + "" + "" == Quoted(CODES[AUTHORIZATION]) + ":";
  }

  // ---------------------------------------------------------------- the exact condition

  /** The byte behind part i of the front, `next` behind the last. */
  function ByteBehind(pre: seq<Elem>, i: nat, next: char, env: Env): char
    requires i < |pre| && AllGood(pre, env)
  {
    if i + 1 < |pre| then Encode(pre[i + 1].part, env)[0] else next
  }

  /** Every comma in front of the token is where the decoder puts one, and nowhere else. */
  predicate FrontRestored(pre: seq<Elem>, next: char, env: Env)
    requires AllGood(pre, env)
  {
    forall i :: 0 <= i < |pre| ==>
      pre[i].comma == Restored(pre[i].part, Some(ByteBehind(pre, i, next, env)), env) && Uniform(pre[i].part, env)
  }

  lemma FrontStepIff(pre: seq<Elem>, next: char, env: Env)
    requires pre != [] && AllGood(pre, env)
    ensures FrontRestored(pre, next, env)
            <==> pre[0].comma == Restored(pre[0].part, Some(ByteBehind(pre, 0, next, env)), env)
                 && Uniform(pre[0].part, env) && FrontRestored(pre[1..], next, env)
  {
    hide Good, Restored, Encode, Uniform, Keyed;
    var rest := pre[1..];
    assert forall i :: 0 <= i < |rest| ==>
        rest[i] == pre[i + 1] && ByteBehind(rest, i, next, env) == ByteBehind(pre, i + 1, next, env);
    if FrontRestored(rest, next, env) && pre[0].comma == Restored(pre[0].part, Some(ByteBehind(pre, 0, next, env)), env)
       && Uniform(pre[0].part, env) {
      forall i | 0 <= i < |pre|
        ensures pre[i].comma == Restored(pre[i].part, Some(ByteBehind(pre, i, next, env)), env)
                && Uniform(pre[i].part, env)
      {
        assert i > 0 ==> rest[i - 1] == pre[i];
      }
    }
  }

  lemma HeadBehind(pre: seq<Elem>, tail: string, env: Env)
    requires pre != [] && AllGood(pre, env) && tail != ""
    ensures Head(EncodeAll(pre[1..], env) + tail) == Some(ByteBehind(pre, 0, tail[0], env))
  {
    hide Good, Encode;
    if |pre| > 1 {
      assert pre[1] in pre && pre[1..][0] == pre[1];
      assert EncodeAll(pre[1..], env)[0] == Encode(pre[1].part, env)[0];
    } else {
      assert EncodeAll(pre[1..], env) + tail == tail;
    }
  }

  lemma {:induction false} FrontAgrees(pre: seq<Elem>, tail: string, env: Env)
    requires AllGood(pre, env) && tail != ""
    ensures AllAgree(FrontPieces(pre, tail, env)) <==> FrontRestored(pre, tail[0], env)
  {
    hide Good, PartPieces, Restored, Encode, Uniform;
    if pre != [] {
      assert pre[0] in pre;
      HeadBehind(pre, tail, env);
      var here := Restored(pre[0].part, Head(EncodeAll(pre[1..], env) + tail), env);
      var first, rest := PartPieces(pre[0].part, pre[0].comma, here, env), FrontPieces(pre[1..], tail, env);
      PartAgrees(pre[0].part, pre[0].comma, here, env);
      FrontAgrees(pre[1..], tail, env);
      FrontStepIff(pre, tail[0], env);
      hide FrontRestored;
      assert FrontPieces(pre, tail, env) == first + rest;
      assert AllAgree(first + rest) <==> AllAgree(first) && AllAgree(rest);
    }
  }

  /** What is read behind the token starts with no comma. */
  lemma PostReads(post: seq<Elem>, env: Env)
    requires AllGood(post, env) && post != []
    ensures var r := DecompressRest(EncodeAll(post, env), env); r.Some? && r.value != "" && r.value[0] != ','
  {
    hide Good, Encode, PartPieces, Restored, DecompressRest, Solid;
    FrontDecompresses(post, "", env);
    FrontSolid(post, "", env);
    assert EncodeAll(post, env) + "" == EncodeAll(post, env);
    var ps := FrontPieces(post, "", env);
    NothingRead(env);
    assert post[0] in post;
    PieceFirst(post, env);
    SolidJoin(ps);
    assert Join(ps, true) + "" == Join(ps, true);
  }

  lemma NothingRead(env: Env)
    ensures DecompressRest("", env) == Some("")
  {
  }

  lemma PieceFirst(post: seq<Elem>, env: Env)
    requires AllGood(post, env) && post != []
    ensures FrontPieces(post, "", env) != []
  {
    assert post[0] in post;
    hide Restored, Encode, ListPieces;
    var restored := Restored(post[0].part, Head(EncodeAll(post[1..], env) + ""), env);
    assert PartPieces(post[0].part, post[0].comma, restored, env) != [];
  }

  lemma SolidJoin(ps: seq<Piece>)
    requires AllSolid(ps) && ps != []
    ensures Join(ps, true) != "" && Join(ps, true)[0] != ','
  {
    assert ps[0] in ps;
  }

  /** With a member behind it the token's comma is lost. */
  lemma TokenLost(pre: seq<Elem>, t: string, post: seq<Elem>, env: Env)
    requires TokenText(t) && AllGood(pre, env) && AllGood(post, env) && (pre != [] ==> !pre[0].part.Bracket?)
    requires post != []
    ensures Decompress(EncodeAll(pre, env) + ([Byte(AUTHORIZATION)] + (Quoted(t) + EncodeAll(post, env))), env)
            != Some(Wanted(pre, AUTHORIZATION, t, true, post))
  {
    var odd := [Byte(AUTHORIZATION)] + (Quoted(t) + EncodeAll(post, env));
    PostReads(post, env);
    TokenReads(t, EncodeAll(post, env), env);
    hide Decompress, Wanted, DecompressRest, Quoted, Key, Good, EncodeAll, TokenText;
    var x := DecompressRest(EncodeAll(post, env), env).value;
    forall t2 | DecompressRest(odd, env) == Some(t2)
      ensures exists more :: t2 == Key(AUTHORIZATION) + more
                             && forall z :: more + z != Quoted(t) + Behind(true, post)
    {
      var more := Quoted(t) + x;
      assert t2 == Key(AUTHORIZATION) + more;
      forall z ensures more + z != Quoted(t) + Behind(true, post) {
        NoCommaBehind(Quoted(t), x, z, post);
      }
    }
    OddLost(pre, AUTHORIZATION, t, true, post, odd, env);
  }

  lemma NoCommaBehind(t: string, x: string, z: string, post: seq<Elem>)
    requires x != "" && x[0] != ',' && forall e :: e in post ==> Keyed(e.part)
    ensures t + x + z != t + Behind(true, post)
  {
    var rest := Behind(true, post);
    assert rest != "" && rest[0] == ',';
    assert (t + x + z)[|t|] == x[0] && (t + rest)[|t|] == ',';
  }

  lemma TokenLastIff(pre: seq<Elem>, t: string, env: Env)
    requires TokenText(t) && AllGood(pre, env) && (pre != [] ==> !pre[0].part.Bracket?)
    ensures Decompress(EncodeAll(pre, env) + ([Byte(AUTHORIZATION)] + (Quoted(t) + "")), env)
            == Some(Wanted(pre, AUTHORIZATION, t, false, []))
            <==> FrontRestored(pre, Byte(AUTHORIZATION), env)
  {
    var odd := [Byte(AUTHORIZATION)] + (Quoted(t) + "");
    var s, ps := EncodeAll(pre, env) + odd, FrontPieces(pre, odd, env);
    WantedIs(pre, AUTHORIZATION, t, false, [], odd, env);
    NothingBehind([]);
    FrontDecompresses(pre, odd, env);
    FrontSolid(pre, odd, env);
    FrontAgrees(pre, odd, env);
    StartsWithKey(pre, odd, env);
    TokenReads(t, "", env);
    NothingRead(env);
    EndsInQuote(EncodeAll(pre, env), t);
    var a := Key(AUTHORIZATION) + (Quoted(t) + "}");
    KeySolid(AUTHORIZATION, Quoted(t) + "}");
    hide DecompressRest, FrontPieces, Wanted, Join, Key, Solid, Good, Behind, Quoted, FrontRestored, EncodeAll;
    JoinsAgreeIff(ps, a, a);
    var got := Join(ps, true) + (Key(AUTHORIZATION) + (Quoted(t) + ""));
    assert DecompressRest(s, env) == Some(got);
    Closed(Join(ps, true), Key(AUTHORIZATION), Quoted(t));
    Cancel("{", Join(ps, false) + a, Join(ps, true) + a);
  }

  lemma EndsInQuote(front: string, t: string)
    ensures var s := front + ([Byte(AUTHORIZATION)] + (Quoted(t) + "")); s != "" && s[|s| - 1] == QUOTE
  {
    assert Quoted(t) + "" == Quoted(t);
  }

  lemma Closed(front: string, key: string, t: string)
    ensures "{" + (front + (key + (t + ""))) + "}" == "{" + (front + (key + (t + "}")))
  {
  }

  /** A message that carries an access token, in any spacing, is restored exactly when the token is its last member and
      every comma in front of it is where the decoder puts one. */
  lemma TokenMessageIff(pre: seq<Elem>, t: string, comma: bool, post: seq<Elem>, gaps: seq<nat>, env: Env)
    requires TokenText(t) && AllGood(pre, env) && AllGood(post, env) && Idle(AfterAll(pre, START))
    requires (pre != [] ==> !pre[0].part.Bracket?) && (comma <==> post != [])
    requires |gaps| == |OddMessage(pre, AUTHORIZATION, t, comma, post)|
    ensures Compress(OddText(pre, AUTHORIZATION, t, comma, post, gaps), env).Some?
    ensures Decompress(Compress(OddText(pre, AUTHORIZATION, t, comma, post, gaps), env).value, env)
            == Some(Wanted(pre, AUTHORIZATION, t, comma, post))
            <==> post == [] && FrontRestored(pre, Byte(AUTHORIZATION), env)
  {
    hide Compress, Decompress, OddText, OddMessage, Wanted, Good, TokenText, Quoted, FrontRestored, Idle, AfterAll;
    TokenMessageCompresses(pre, t, comma, post, gaps, env);
    if post == [] {
      EncodeNothing(post, env);
      TokenLastIff(pre, t, env);
    } else {
      TokenLost(pre, t, post, env);
    }
  }
}
