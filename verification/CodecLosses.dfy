/** Messages of one value, of whatever text. */
module CodecLosses {
  import opened Text
  import opened PathList
  import opened Codec
  import opened CodecValues
  import opened CodecMessages

  /** The tokens of a message with one string member, without its first brace. */
  function OneMember(key: nat, text: string): seq<string>
    requires key < 26
  {
    [Quoted(CODES[key]), ":", Quoted(text), "}"]
  }

  /** The message in any spacing. */
  function Spaced(key: nat, text: string, gaps: seq<nat>): string
    requires key < 26 && |gaps| == 4
  {
    "{" + Layout(OneMember(key, text), gaps)
  }

  /** And without spaces. */
  function Tight(key: nat, text: string): string
    requires key < 26
  {
    "{" + (Quoted(CODES[key]) + ":" + (Quoted(text) + "}"))
  }

  lemma OneMemberTokens(key: nat, text: string)
    requires key < 26 && QUOTE !in text
    ensures forall t :: t in OneMember(key, text) ==> IsToken(t)
  {
    CodesAreTokens(key);
    QuotedIsToken(text);
    MarksAreTokens();
    hide IsToken;
  }

  /** Such a message compresses to the key and what the key's word becomes. */
  lemma OneCompresses(key: nat, text: string, out: string, next: State, gaps: seq<nat>, env: Env)
    requires |gaps| == 4 && QUOTE !in text && (key == PATH || TakesValue(key))
    requires CompressWord(Quoted(text), None, State(key, false), env) == Some((out, next))
    ensures Compress(Spaced(key, text, gaps), env) == Some([Byte(key)] + out)
  {
    hide CompressWord, IsToken;
    var tokens := OneMember(key, text);
    OneMemberTokens(key, text);
    LastTokens(text, out, next, State(key, false), env);
    assert tokens == [Quoted(CODES[key]), ":"] + [Quoted(text), "}"];
    CompressKey(key, [Quoted(text), "}"], START, env);
    hide CompressTokens;
    CompressLayout(tokens, gaps, START, env);
    FirstBrace(Layout(tokens, gaps), env);
  }

  lemma LastTokens(text: string, out: string, next: State, st: State, env: Env)
    requires CompressWord(Quoted(text), None, st, env) == Some((out, next))
    ensures CompressTokens([Quoted(text), "}"], st, env) == Some(out)
  {
    var tokens := [Quoted(text), "}"];
    ColonIrrelevant(tokens[0], NextColon(tokens), st, env);
    hide CompressWord;
    assert tokens[1..] == ["}"] && ["}"][1..] == [];
    assert CompressTokens(["}"], next, env) == Some("" + "");
    assert out + ("" + "") == out;
  }

  lemma FirstBrace(body: string, env: Env)
    ensures Compress("{" + body, env) == CompressRest(body, false, START, env)
  {
    MarksAreTokens();
    ReadTokenReads("{", body);
    ThenNothing(CompressRest(body, false, START, env));
    assert CompressStep("{" + body, true, START, env) == Some(("", START, body));
  }

  // ---------------------------------------------------------------- values

  /** A message whose one value takes all the bytes behind the key. */
  lemma OneDecompresses(key: nat, s: string, env: Env)
    requires TakesValue(key) && s != "" && s[0] !in {'[', ']', ',', '{'}
    ensures DecompressOne(s, env) == None ==> Decompress([Byte(key)] + s, env) == None
    ensures DecompressOne(s, env).Some? && DecompressOne(s, env).value.1 == |s| ==>
              Decompress([Byte(key)] + s, env)
              == Some("{" + (Quoted(CODES[key]) + ":" + (DecompressOne(s, env).value.0 + ""))
                      + if s[|s| - 1] != '}' then "}" else "")
  {
    var m := [Byte(key)] + s;
    hide DecompressOne;
    assert m[1..] == s && N(m[0]) == 128 + key && m[|m| - 1] == s[|s| - 1];
    if DecompressOne(s, env).Some? && DecompressOne(s, env).value.1 == |s| {
      var t := DecompressOne(s, env).value.0;
      assert DecompressValue(s, 0, env) == Some((t + "", |s|));
      assert ReadCompressed(m, env) == Some((Quoted(CODES[key]) + ":" + (t + "") + "", |m|));
      assert m[|m|..] == "" && DecompressRest("", env) == Some("");
      Tidy(Quoted(CODES[key]) + ":", t, if s[|s| - 1] != '}' then "}" else "");
    }
  }

  lemma Tidy(word: string, t: string, close: string)
    ensures "{" + (word + (t + "") + "" + "") + close == "{" + (word + (t + "")) + close
  {
  }

  /** What the one value of a message is read back as. */
  function Reread(v: string, env: Env): string {
    match ValueKind(v, env)
    case Int(n) => IntText(n)
    case Float => env.floatText(env.floatBytes(v))
    case _ => v
  }

  lemma ValueReads(v: string, env: Env)
    requires QUOTE !in v
    ensures var s := CompressValue(v, env);
            var t := Reread(v, env);
            DecompressOne(s, env) == Some((Quoted(t), |s|))
  {
    hide DecompressInt, CompressInt, Atoi, IntText;
    var s := CompressValue(v, env);
    match ValueKind(v, env)
    case Int(n) =>
      AtoiRange(v);
      IntDecompresses(n, "", env);
      assert CompressInt(n) + "" == CompressInt(n);
    case Bool =>
      assert N(s[1]) == if v == "true" then 1 else 0;
    case Float =>
      assert s[1..5] == env.floatBytes(v);
    case Other =>
      TextReads(v);
  }

  lemma TextReads(v: string)
    requires QUOTE !in v
    ensures DecompressText([Byte(UNKNOWN)] + Quoted(v)) == Some((Quoted(v), |v| + 3))
  {
    var s := [Byte(UNKNOWN)] + Quoted(v);
    assert s[1..] == Quoted(v);
    if v == "" {
      assert s[3..] == "" && IndexOf("", QUOTE) == -1 && s[1..3] == Quoted("");
    } else {
      TextDecompresses(v, "");
      assert s + "" == s;
    }
  }

  /** The last byte of a compressed value is the one that stands for a closing brace. */
  predicate EndsInBrace(v: string, env: Env) {
    var s := CompressValue(v, env);
    s[|s| - 1] == '}'
  }

  /** Alone in its message a value keeps even when it is empty, but not when its last byte is that of a brace. */
  predicate KeptAlone(v: string, env: Env) {
    v !in CODES && (Kept(v, env) || (v == "" && ValueKind(v, env).Other?)) && !EndsInBrace(v, env)
  }

  lemma Alone(key: nat, v: string, t: string)
    requires key < 26
    ensures "{" + (Quoted(CODES[key]) + ":" + (Quoted(t) + "")) + "}" == Tight(key, v) <==> t == v
    ensures "{" + (Quoted(CODES[key]) + ":" + (Quoted(t) + "")) + "" != Tight(key, v)
  {
    var head := "{" + (Quoted(CODES[key]) + ":");
    hide Quoted, CODES;
    QuotedEqual(t, v);
    assert "{" + (Quoted(CODES[key]) + ":" + (Quoted(t) + "")) == head + Quoted(t);
    assert Tight(key, v) == head + (Quoted(v) + "}");
    assert head + Quoted(t) + "}" == head + (Quoted(t) + "}");
    Same(head, Quoted(t), Quoted(v));
    LastDiffers(head + Quoted(t), t, head, Tight(key, v));
  }

  lemma LastDiffers(a: string, t: string, head: string, b: string)
    requires a == head + Quoted(t) && b != "" && b[|b| - 1] == '}'
    ensures a + "" != b
  {
    assert (a + "")[|a| - 1] == QUOTE;
  }

  lemma Same(head: string, a: string, b: string)
    ensures head + (a + "}") == head + (b + "}") <==> a == b
  {
    assert (head + (a + "}"))[|head|..] == a + "}" && (head + (b + "}"))[|head|..] == b + "}";
    if a + "}" == b + "}" {
      assert |a| == |b|;
      assert (a + "}")[..|a|] == a && (b + "}")[..|b|] == b;
    }
  }

  lemma CodeWordFails(i: nat, env: Env)
    requires i < 26
    ensures DecompressOne([Byte(i)], env) == None && [Byte(i)][0] !in {'[', ']', ',', '{'}
  {
  }

  lemma ValueWord(key: nat, v: string, env: Env)
    requires TakesValue(key) && v !in CODES
    ensures CompressWord(Quoted(v), None, State(key, false), env) == Some((CompressValue(v, env), State(NONE, false)))
  {
    QuotedInner(v);
    CodeIndexOfOther(v);
    hide CODES, CodeIndex;
  }

  lemma CodeWord(key: nat, i: nat, env: Env)
    requires key < 26 && i < 26
    ensures exists next :: CompressWord(Quoted(CODES[i]), None, State(key, false), env) == Some(([Byte(i)], next))
  {
    QuotedInner(CODES[i]);
    CodeIndexOfCode(i);
    hide CODES, CodeIndex;
    var st := State(key, false);
    var next := if i == TS || i == PATH || TakesValue(i) then State(i, false) else st;
    assert CompressWord(Quoted(CODES[i]), None, st, env) == Some(([Byte(i)], next));
  }

  /** A message with one value, of whatever text, in any spacing: it is restored exactly when the text is no code word,
      is kept or empty, and does not end in the byte of a closing brace. A code word makes the decoder panic. */
  lemma ValueMessageIff(key: nat, v: string, gaps: seq<nat>, env: Env)
    requires TakesValue(key) && QUOTE !in v && |gaps| == 4
    ensures Compress(Spaced(key, v, gaps), env).Some?
    ensures Decompress(Compress(Spaced(key, v, gaps), env).value, env) == Some(Tight(key, v)) <==> KeptAlone(v, env)
    ensures v in CODES ==> Decompress(Compress(Spaced(key, v, gaps), env).value, env) == None
  {
    hide Compress, Decompress, Spaced, Tight, CompressWord, CompressValue, DecompressOne, KeptAlone;
    if v in CODES {
      var i :| 0 <= i < |CODES| && CODES[i] == v;
      CodeWord(key, i, env);
      var next :| CompressWord(Quoted(CODES[i]), None, State(key, false), env) == Some(([Byte(i)], next));
      OneCompresses(key, v, [Byte(i)], next, gaps, env);
      CodeWordFails(i, env);
      OneDecompresses(key, [Byte(i)], env);
      CodeWordNotKept(v, env);
    } else {
      ValueWord(key, v, env);
      OneCompresses(key, v, CompressValue(v, env), State(NONE, false), gaps, env);
      hide CODES;
      ValueMessageReads(key, v, env);
    }
  }

  lemma CodeWordNotKept(v: string, env: Env)
    requires v in CODES
    ensures !KeptAlone(v, env)
  {
  }

  lemma ValueMessageReads(key: nat, v: string, env: Env)
    requires TakesValue(key) && QUOTE !in v && v !in CODES
    ensures Decompress([Byte(key)] + CompressValue(v, env), env) == Some(Tight(key, v)) <==> KeptAlone(v, env)
  {
    hide CompressValue, DecompressOne, Decompress, Tight, Kept, ValueKind, IntText;
    var s := CompressValue(v, env);
    var t := Reread(v, env);
    ValueReads(v, env);
    ValueLead(v, env);
    OneDecompresses(key, s, env);
    Alone(key, v, t);
    KeptIff(v, env);
    hide CODES, Quoted;
  }

  lemma KeptIff(v: string, env: Env)
    ensures var t := Reread(v, env);
            t == v <==> Kept(v, env) || (v == "" && ValueKind(v, env).Other?)
  {
    hide Itoa, IntText;
    if ValueKind(v, env).Int? {
      AtoiRange(v);
      IntRestoredIff(v, ValueKind(v, env).n);
    }
  }
}
