/** The messages of the codec's grammar, in any spacing, and the bytes they compress to. */
module CodecMessages {
  import opened Text
  import opened PathList
  import opened Codec
  import opened CodecValues
  import TimeStamp

  // ---------------------------------------------------------------- messages

  /** The parts a message text is made of, without the commas between them. */
  datatype Part =
    | Action(verb: nat)                       // "action":"get"
    | PathOf(path: string)                    // "path":"A.B" or "path":"A/B"
    | Time(stamp: TimeStamp.Stamp)            // "ts":"202y-..."
    | Scalar(key: nat, text: string)          // "value":"x", and requestId, subscriptionId
    | List(key: nat, texts: seq<string>)      // "value":["x","y"]
    | Open(key: nat)                          // "data": or "dp": before an object or an array
    | Bracket(c: char)                        // { } [ ] of nested objects and arrays

  /** A part, and whether a comma follows it in the message. */
  datatype Elem = Elem(part: Part, comma: bool)

  predicate Good(p: Part, env: Env) {
    match p
    case Action(verb) => KEYS <= verb < KEY_VALUES
    case PathOf(path) => QUOTE !in path && path !in CODES && Found(env.paths, Dotted(path))
                         && SearchIndex(env.paths, Dotted(path)) < 0x1_0000
    case Time(stamp) => TimeStamp.Packable(stamp) && stamp.year < 10
    case Scalar(key, v) => TakesValue(key) && GoodValue(v, env)
    case List(key, vs) => TakesValue(key) && forall v :: v in vs ==> GoodValue(v, env)
    case Open(key) => key == DATA || key == DP
    case Bracket(c) => c == '{' || c == '}' || c == '[' || c == ']'
  }

  /** A message: members whose keys and values the grammar covers, beginning with a key. */
  predicate GoodMessage(m: seq<Elem>, env: Env) {
    && (forall e :: e in m ==> Good(e.part, env) && Keyed(e.part))
    && (m != [] ==> !m[0].part.Bracket?)
  }

  function ListTokens(vs: seq<string>): seq<string> {
    if vs == [] then ["]"]
    else [Quoted(vs[0])] + ((if |vs| > 1 then [","] else []) + ListTokens(vs[1..]))
  }

  /** The key and verb numbers are in the code list. */
  predicate Keyed(p: Part) {
    match p
    case Action(verb) => verb < 26
    case Scalar(key, _) => key < 26
    case List(key, _) => key < 26
    case Open(key) => key < 26
    case _ => true
  }

  function PartTokens(p: Part): seq<string>
    requires Keyed(p)
  {
    match p
    case Action(verb) => [Quoted(CODES[ACTION]), ":", Quoted(CODES[verb])]
    case PathOf(path) => [Quoted(CODES[PATH]), ":", Quoted(path)]
    case Time(stamp) => [Quoted(CODES[TS]), ":", TimeStamp.Render(stamp)]
    case Scalar(key, v) => [Quoted(CODES[key]), ":", Quoted(v)]
    case List(key, vs) => [Quoted(CODES[key]), ":", "["] + ListTokens(vs)
    case Open(key) => [Quoted(CODES[key]), ":"]
    case Bracket(c) => [[c]]
  }

  function Tokens(m: seq<Elem>): (tokens: seq<string>)
    requires forall e :: e in m ==> Keyed(e.part)
    ensures tokens != []
  {
    if m == [] then ["}"]
    else PartTokens(m[0].part) + (if m[0].comma then [","] else []) + Tokens(m[1..])
  }

  function Spaces(n: nat): string {
    if n == 0 then "" else " " + Spaces(n - 1)
  }

  /** The tokens one after the other, token i behind gaps[i] spaces. */
  function Layout(tokens: seq<string>, gaps: seq<nat>): string
    requires |tokens| == |gaps|
  {
    if tokens == [] then "" else Spaces(gaps[0]) + (tokens[0] + Layout(tokens[1..], gaps[1..]))
  }

  /** The text of a message, with any number of spaces between its tokens. */
  function MessageText(m: seq<Elem>, gaps: seq<nat>): string
    requires (forall e :: e in m ==> Keyed(e.part)) && |gaps| == |Tokens(m)|
  {
    "{" + Layout(Tokens(m), gaps)
  }

  // ---------------------------------------------------------------- compression, token by token

  predicate IsToken(t: string) {
    if |t| == 1 then t[0] != QUOTE && N(t[0]) < 128
    else |t| >= 2 && t[0] == QUOTE && t[|t| - 1] == QUOTE && QUOTE !in t[1..|t| - 1]
  }

  lemma {:induction false} QuoteFromIs(m: string, i: nat, k: nat)
    requires i <= k < |m| && m[k] == QUOTE && QUOTE !in m[i..k]
    ensures QuoteFrom(m, i) == Some(k)
    decreases k - i
  {
    if i < k {
      assert m[i] == m[i..k][0];
      assert m[i..k] == [m[i]] + m[i + 1..k];
      QuoteFromIs(m, i + 1, k);
    }
  }

  lemma ReadTokenReads(t: string, tail: string)
    requires IsToken(t)
    ensures ReadToken(t + tail) == Some(t)
    ensures (t + tail)[|t|..] == tail
  {
    var m := t + tail;
    if |t| >= 2 {
      assert m[1..|t| - 1] == t[1..|t| - 1];
      QuoteFromIs(m, 1, |t| - 1);
      assert m[..|t|] == t;
    } else {
      assert t == [t[0]];
    }
  }

  /** What the tokens tell of a colon behind the first: there is none if another token follows, whatever the spacing. */
  function NextColon(tokens: seq<string>): Option<bool> {
    if |tokens| > 1 && tokens[1] != ":" then Some(false) else None
  }

  /** The loop over a list of tokens; None also where a word passes through uncoded at the end or in front of a colon.
      */
  function CompressTokens(tokens: seq<string>, st: State, env: Env): Option<string> {
    if tokens == [] then Some("")
    else if |tokens[0]| == 1 then
      var (out, next) := CompressSymbol(tokens[0][0], false, |tokens| == 1, st);
      Then(out, CompressTokens(tokens[1..], next, env))
    else if |tokens[0]| >= 2 then
      match CompressWord(tokens[0], NextColon(tokens), st, env)
      case None => None
      case Some((out, next)) => Then(out, CompressTokens(tokens[1..], next, env))
    else None
  }

  lemma SpaceStep(after: string, st: State, env: Env)
    ensures CompressStep(" " + after, false, st, env) == Some(("", st, after))
  {
    ReadTokenReads(" ", after);
  }

  lemma {:induction false} SpacesIgnored(n: nat, rest: string, st: State, env: Env)
    ensures CompressRest(Spaces(n) + rest, false, st, env) == CompressRest(rest, false, st, env)
  {
    hide CompressStep;
    if n == 0 {
      assert Spaces(n) + rest == rest;
    } else {
      var after := Spaces(n - 1) + rest;
      assert Spaces(n) + rest == " " + after;
      SpaceStep(after, st, env);
      SpacesIgnored(n - 1, rest, st, env);
      ThenNothing(CompressRest(after, false, st, env));
    }
  }

  lemma {:induction false} LayoutEmpty(tokens: seq<string>, gaps: seq<nat>)
    requires |tokens| == |gaps| && forall t :: t in tokens ==> IsToken(t)
    ensures Layout(tokens, gaps) == "" <==> tokens == []
  {
    if tokens != [] {
      assert tokens[0] in tokens;
      assert |Layout(tokens, gaps)| == |Spaces(gaps[0])| + |tokens[0]| + |Layout(tokens[1..], gaps[1..])|;
    }
  }

  /** Spaces between tokens do not matter to the compressor. */
  lemma {:induction false} CompressLayout(tokens: seq<string>, gaps: seq<nat>, st: State, env: Env)
    requires |tokens| == |gaps| && forall t :: t in tokens ==> IsToken(t)
    requires CompressTokens(tokens, st, env).Some?
    ensures CompressRest(Layout(tokens, gaps), false, st, env) == CompressTokens(tokens, st, env)
  {
    hide CompressWord, CompressSymbol;
    if tokens != [] {
      var t, after := tokens[0], Layout(tokens[1..], gaps[1..]);
      assert t in tokens;
      SpacesIgnored(gaps[0], t + after, st, env);
      ReadTokenReads(t, after);
      LayoutEmpty(tokens[1..], gaps[1..]);
      if |t| == 1 {
        var (out, next) := CompressSymbol(t[0], false, |tokens| == 1, st);
        CompressLayout(tokens[1..], gaps[1..], next, env);
      } else {
        var colon := if after == "" then None else Some(after[0] == ':');
        if NextColon(tokens) == None {
          ColonIrrelevant(t, colon, st, env);
        } else {
          assert tokens[1..][0] in tokens;
          NoColonAhead(tokens[1..], gaps[1..]);
        }
        var (out, next) := CompressWord(t, NextColon(tokens), st, env).value;
        CompressLayout(tokens[1..], gaps[1..], next, env);
      }
    }
  }

  /** Neither a space nor another token starts with a colon. */
  lemma NoColonAhead(tokens: seq<string>, gaps: seq<nat>)
    requires tokens != [] && |tokens| == |gaps| && IsToken(tokens[0]) && tokens[0] != ":"
    ensures Layout(tokens, gaps) != "" && Layout(tokens, gaps)[0] != ':'
  {
    if gaps[0] == 0 {
      assert Spaces(gaps[0]) == "" && Layout(tokens, gaps) == tokens[0] + Layout(tokens[1..], gaps[1..]);
      assert |tokens[0]| == 1 ==> tokens[0] == [tokens[0][0]];
    } else {
      assert Spaces(gaps[0]) == " " + Spaces(gaps[0] - 1) && Layout(tokens, gaps)[0] == ' ';
    }
  }

  lemma ColonIrrelevant(t: string, colon: Option<bool>, st: State, env: Env)
    requires |t| >= 2 && CompressWord(t, None, st, env).Some?
    ensures CompressWord(t, colon, st, env) == CompressWord(t, None, st, env)
  {
  }

  // ---------------------------------------------------------------- compression, part by part

  function EncodeList(vs: seq<string>, env: Env): string {
    if vs == [] then "]" else CompressValue(vs[0], env) + EncodeList(vs[1..], env)
  }

  /** The bytes of a part. */
  function Encode(p: Part, env: Env): (s: string)
    requires Good(p, env)
    ensures s != ""
  {
    match p
    case Action(verb) => [Byte(ACTION), Byte(verb)]
    case PathOf(path) => [Byte(PATH), B(SearchIndex(env.paths, Dotted(path)) / 256),
                          B(SearchIndex(env.paths, Dotted(path)))]
    case Time(stamp) => [Byte(TS)] + TimeStamp.Pack(stamp)
    case Scalar(key, v) => [Byte(key)] + CompressValue(v, env)
    case List(key, vs) => [Byte(key), '['] + EncodeList(vs, env)
    case Open(key) => [Byte(key)]
    case Bracket(c) => [c]
  }

  function EncodeAll(m: seq<Elem>, env: Env): string
    requires forall e :: e in m ==> Good(e.part, env)
  {
    if m == [] then "" else Encode(m[0].part, env) + EncodeAll(m[1..], env)
  }

  function After(p: Part, st: State): State {
    match p
    case Action(verb) => st
    case PathOf(_) => State(NONE, false)
    case Time(_) => State(NONE, false)
    case Scalar(_, _) => State(NONE, false)
    case List(key, _) => State(key, false)
    case Open(_) => st
    case Bracket(c) => if c == '[' then st.(isArray := true) else if c == ']' then st.(isArray := false) else st
  }

  lemma QuotedInner(s: string)
    ensures Quoted(s)[1..|Quoted(s)| - 1] == s
  {
  }

  /** One turn of the loop on a code word. */
  lemma CompressCode(code: nat, more: seq<string>, st: State, env: Env)
    requires code < 26
    ensures var next := if code == TS || code == PATH || TakesValue(code) then State(code, false) else st;
            CompressTokens([Quoted(CODES[code])] + more, st, env) == Then([Byte(code)], CompressTokens(more, next, env))
  {
    QuotedInner(CODES[code]);
    CodeIndexOfCode(code);
    var tokens := [Quoted(CODES[code])] + more;
    assert tokens[1..] == more;
    ColonIrrelevant(tokens[0], NextColon(tokens), st, env);
  }

  /** One turn of the loop on an uncoded word. */
  lemma CompressText(text: string, more: seq<string>, st: State, env: Env)
    requires text !in CODES && CompressWord(Quoted(text), None, st, env).Some?
    ensures var (out, next) := CompressWord(Quoted(text), None, st, env).value;
            CompressTokens([Quoted(text)] + more, st, env) == Then(out, CompressTokens(more, next, env))
  {
    var tokens := [Quoted(text)] + more;
    assert tokens[1..] == more;
    ColonIrrelevant(tokens[0], NextColon(tokens), st, env);
  }

  lemma CompressMark(c: char, more: seq<string>, st: State, env: Env)
    requires (c == ':' || c == ',') || (more != [] && (c == '[' || c == ']' || c == '{' || c == '}'))
    ensures CompressTokens([[c]] + more, st, env)
         == if c == ':' || c == ',' then CompressTokens(more, st, env)
            else Then([c], CompressTokens(more, After(Bracket(c), st), env))
  {
    assert ([[c]] + more)[1..] == more;
    ThenNothing(CompressTokens(more, st, env));
  }

  lemma CompressValueWord(v: string, st: State, env: Env)
    requires GoodValue(v, env) && TakesValue(st.key)
    ensures CompressWord(Quoted(v), None, st, env)
         == Some((CompressValue(v, env), if st.isArray then st else st.(key := NONE)))
  {
    QuotedInner(v);
    CodeIndexOfOther(v);
  }

  lemma {:induction false} ListCompresses(vs: seq<string>, more: seq<string>, key: nat, env: Env)
    requires TakesValue(key) && more != [] && forall v :: v in vs ==> GoodValue(v, env)
    ensures CompressTokens(ListTokens(vs) + more, State(key, true), env)
         == Then(EncodeList(vs, env), CompressTokens(more, State(key, false), env))
  {
    hide CompressWord, CompressTokens, CompressValue, Quoted;
    var st, goal := State(key, true), CompressTokens(more, State(key, false), env);
    if vs == [] {
      CompressMark(']', more, st, env);
    } else {
      var v, rest := vs[0], ListTokens(vs[1..]);
      assert v in vs;
      CompressValueWord(v, st, env);
      if |vs| == 1 {
        assert vs[1..] == [];
        assert ListTokens(vs) + more == [Quoted(v)] + (rest + more);
      } else {
        assert ListTokens(vs) + more == [Quoted(v)] + ([[',']] + (rest + more));
        CompressMark(',', rest + more, st, env);
      }
      CompressText(v, if |vs| == 1 then rest + more else [[',']] + (rest + more), st, env);
      ListCompresses(vs[1..], more, key, env);
      ThenThen(CompressValue(v, env), EncodeList(vs[1..], env), goal);
    }
  }

  lemma StampText(stamp: TimeStamp.Stamp)
    requires TimeStamp.Packable(stamp) && stamp.year < 10
    ensures var t := TimeStamp.Render(stamp);
            && t == Quoted(t[1..21]) && t[1..21] !in CODES && QUOTE !in t[1..21]
            && TimeStamp.Compress(t) == TimeStamp.Pack(stamp)
  {
    hide TimeStamp.Render, TimeStamp.Pack;
    TimeStamp.RenderedText(stamp);
    assert TimeStamp.Render(stamp)[1..21][0] == '2';
    assert forall i :: 0 <= i < 26 ==> CODES[i][0] != '2';
    TimeStamp.ReadStampOfRender(stamp);
  }

  /** A key with its colon. */
  lemma CompressKey(code: nat, more: seq<string>, st: State, env: Env)
    requires code < 26
    ensures var next := if code == TS || code == PATH || TakesValue(code) then State(code, false) else st;
            CompressTokens([Quoted(CODES[code]), ":"] + more, st, env)
            == Then([Byte(code)], CompressTokens(more, next, env))
  {
    assert [Quoted(CODES[code]), ":"] + more == [Quoted(CODES[code])] + ([":"] + more);
    CompressCode(code, [":"] + more, st, env);
    CompressMark(':', more, if code == TS || code == PATH || TakesValue(code) then State(code, false) else st, env);
  }

  /** A key, its colon and one word, which gives `out`. */
  lemma KeyAndText(code: nat, text: string, out: string, more: seq<string>, st: State, env: Env)
    requires code == TS || code == PATH || TakesValue(code)
    requires text !in CODES
    requires CompressWord(Quoted(text), None, State(code, false), env) == Some((out, State(NONE, false)))
    ensures CompressTokens([Quoted(CODES[code]), ":", Quoted(text)] + more, st, env)
         == Then([Byte(code)] + out, CompressTokens(more, State(NONE, false), env))
  {
    hide CompressTokens, CompressWord;
    assert [Quoted(CODES[code]), ":", Quoted(text)] + more == [Quoted(CODES[code]), ":"] + ([Quoted(text)] + more);
    CompressKey(code, [Quoted(text)] + more, st, env);
    CompressText(text, more, State(code, false), env);
    ThenThen([Byte(code)], out, CompressTokens(more, State(NONE, false), env));
  }

  lemma PathWord(path: string, env: Env)
    requires Good(PathOf(path), env)
    ensures var i := SearchIndex(env.paths, Dotted(path));
            CompressWord(Quoted(path), None, State(PATH, false), env) == Some(([B(i / 256), B(i)], State(NONE, false)))
  {
    QuotedInner(path);
    CodeIndexOfOther(path);
    DottedInner(path);
    var i := SearchIndex(env.paths, Dotted(path));
    assert CompressPathToken(Quoted(path), env) == [B(i / 256), B(i)];
  }

  lemma TimeWord(stamp: TimeStamp.Stamp, env: Env)
    requires Good(Time(stamp), env)
    ensures var t := TimeStamp.Render(stamp);
            CompressWord(t, None, State(TS, false), env) == Some((TimeStamp.Pack(stamp), State(NONE, false)))
  {
    hide TimeStamp.Compress, TimeStamp.Pack, TimeStamp.Render;
    StampText(stamp);
    CodeIndexOfOther(TimeStamp.Render(stamp)[1..21]);
  }

  lemma ListPartCompresses(key: nat, vs: seq<string>, more: seq<string>, st: State, env: Env)
    requires Good(List(key, vs), env) && more != []
    ensures CompressTokens(PartTokens(List(key, vs)) + more, st, env)
         == Then(Encode(List(key, vs), env), CompressTokens(more, State(key, false), env))
  {
    hide CompressTokens, CompressWord, GoodValue, ListTokens, EncodeList;
    var items, goal := ListTokens(vs), CompressTokens(more, State(key, false), env);
    assert PartTokens(List(key, vs)) + more == [Quoted(CODES[key]), ":"] + (["["] + (items + more));
    CompressKey(key, ["["] + (items + more), st, env);
    CompressMark('[', items + more, State(key, false), env);
    ListCompresses(vs, more, key, env);
    ThenThen("[", EncodeList(vs, env), goal);
    ThenThen([Byte(key)], "[" + EncodeList(vs, env), goal);
    assert [Byte(key)] + ("[" + EncodeList(vs, env)) == Encode(List(key, vs), env);
  }

  lemma ActionCompresses(verb: nat, more: seq<string>, st: State, env: Env)
    requires Good(Action(verb), env)
    ensures CompressTokens(PartTokens(Action(verb)) + more, st, env)
         == Then(Encode(Action(verb), env), CompressTokens(more, st, env))
  {
    hide CompressTokens, CompressWord;
    var word := [Quoted(CODES[verb])];
    assert PartTokens(Action(verb)) + more == [Quoted(CODES[ACTION]), ":"] + (word + more);
    CompressKey(ACTION, word + more, st, env);
    CompressCode(verb, more, st, env);
    ThenThen([Byte(ACTION)], [Byte(verb)], CompressTokens(more, st, env));
    assert [Byte(ACTION)] + [Byte(verb)] == Encode(Action(verb), env);
  }

  lemma PartCompresses(p: Part, more: seq<string>, st: State, env: Env)
    requires Good(p, env) && more != []
    ensures CompressTokens(PartTokens(p) + more, st, env)
         == Then(Encode(p, env), CompressTokens(more, After(p, st), env))
  {
    hide CompressTokens, CompressWord, CompressValue, TimeStamp.Pack, TimeStamp.Render, SearchBetween, GoodValue;
    match p
    case Action(verb) =>
      ActionCompresses(verb, more, st, env);
    case PathOf(path) =>
      var i := SearchIndex(env.paths, Dotted(path));
      PathWord(path, env);
      KeyAndText(PATH, path, [B(i / 256), B(i)], more, st, env);
      assert [Byte(PATH)] + [B(i / 256), B(i)] == Encode(p, env);
    case Time(stamp) =>
      StampText(stamp);
      TimeWord(stamp, env);
      KeyAndText(TS, TimeStamp.Render(stamp)[1..21], TimeStamp.Pack(stamp), more, st, env);
    case Scalar(key, v) =>
      CompressValueWord(v, State(key, false), env);
      NotACode(v, env);
      KeyAndText(key, v, CompressValue(v, env), more, st, env);
    case List(key, vs) =>
      ListPartCompresses(key, vs, more, st, env);
    case Open(key) =>
      CompressKey(key, more, st, env);
    case Bracket(c) =>
      CompressMark(c, more, st, env);
  }

  lemma NotACode(v: string, env: Env)
    requires GoodValue(v, env)
    ensures v !in CODES
  {
  }

  lemma {:induction false} TokensCompress(m: seq<Elem>, st: State, env: Env)
    requires forall e :: e in m ==> Good(e.part, env) && Keyed(e.part)
    ensures CompressTokens(Tokens(m), st, env) == Some(EncodeAll(m, env))
  {
    hide Encode, PartTokens;
    if m == [] {
      var tokens := ["}"];
      assert tokens[1..] == [] && CompressTokens(tokens[1..], st, env) == Some("");
      assert CompressSymbol(tokens[0][0], false, true, st) == ("", st);
      ThenNothing(Some(""));
    } else {
      var e, rest := m[0], Tokens(m[1..]);
      assert e in m;
      var more := (if e.comma then [","] else []) + rest;
      assert Tokens(m) == PartTokens(e.part) + more;
      PartCompresses(e.part, more, st, env);
      var next := After(e.part, st);
      if e.comma {
        CompressMark(',', rest, next, env);
      } else {
        assert more == rest;
      }
      TokensCompress(m[1..], next, env);
    }
  }

  lemma {:induction false} ListTokensAreTokens(vs: seq<string>)
    requires forall v :: v in vs ==> QUOTE !in v
    ensures forall t :: t in ListTokens(vs) ==> IsToken(t)
  {
    if vs != [] {
      assert vs[0] in vs;
      QuotedInner(vs[0]);
      ListTokensAreTokens(vs[1..]);
    }
  }

  lemma QuotedIsToken(s: string)
    requires QUOTE !in s
    ensures IsToken(Quoted(s))
  {
    QuotedInner(s);
  }

  lemma CodesAreTokens(code: nat)
    requires code < 26
    ensures IsToken(Quoted(CODES[code]))
  {
    var word := CODES[code];
    assert forall i :: 0 <= i < |word| ==> word[i] != QUOTE;
    QuotedIsToken(word);
  }

  lemma PartTokensAreTokens(p: Part, env: Env)
    requires Good(p, env) && Keyed(p)
    ensures forall t :: t in PartTokens(p) ==> IsToken(t)
  {
    hide IsToken, Good, ListTokens, TimeStamp.Render;
    MarksAreTokens();
    forall code | 0 <= code < 26 ensures IsToken(Quoted(CODES[code])) {
      CodesAreTokens(code);
    }
    match p
    case Action(_) =>
    case PathOf(path) =>
      assert QUOTE !in path by { TextsHoldNoQuote(p, env); }
      QuotedIsToken(path);
    case Time(stamp) =>
      TimeIsToken(stamp, env);
    case Scalar(_, v) =>
      TextsHoldNoQuote(p, env);
      QuotedIsToken(v);
    case List(_, vs) =>
      TextsHoldNoQuote(p, env);
      ListTokensAreTokens(vs);
    case Open(_) =>
    case Bracket(c) =>
      BracketIsToken(c, env);
  }

  lemma MarksAreTokens()
    ensures IsToken(":") && IsToken(",") && IsToken("[") && IsToken("]") && IsToken("{") && IsToken("}")
  {
  }

  lemma TextsHoldNoQuote(p: Part, env: Env)
    requires Good(p, env)
    ensures p.PathOf? ==> QUOTE !in p.path
    ensures p.Scalar? ==> QUOTE !in p.text
    ensures p.List? ==> forall v :: v in p.texts ==> QUOTE !in v
  {
  }

  lemma TimeIsToken(stamp: TimeStamp.Stamp, env: Env)
    requires Good(Time(stamp), env)
    ensures IsToken(TimeStamp.Render(stamp))
  {
    hide IsToken, TimeStamp.Render;
    StampText(stamp);
    QuotedIsToken(TimeStamp.Render(stamp)[1..21]);
  }

  lemma BracketIsToken(c: char, env: Env)
    requires Good(Bracket(c), env)
    ensures IsToken([c])
  {
  }

  lemma {:induction false} TokensAreTokens(m: seq<Elem>, env: Env)
    requires forall e :: e in m ==> Good(e.part, env) && Keyed(e.part)
    ensures forall t :: t in Tokens(m) ==> IsToken(t)
  {
    if m != [] {
      assert m[0] in m;
      PartTokensAreTokens(m[0].part, env);
      TokensAreTokens(m[1..], env);
    }
  }

  /** However it is spaced, a message compresses to the bytes of its parts. */
  lemma MessageCompresses(m: seq<Elem>, gaps: seq<nat>, env: Env)
    requires GoodMessage(m, env) && |gaps| == |Tokens(m)|
    ensures Compress(MessageText(m, gaps), env) == Some(EncodeAll(m, env))
  {
    var body := Layout(Tokens(m), gaps);
    TokensAreTokens(m, env);
    TokensCompress(m, START, env);
    CompressLayout(Tokens(m), gaps, START, env);
    ReadTokenReads("{", body);
    ThenNothing(CompressRest(body, false, START, env));
    assert CompressStep("{" + body, true, START, env) == Some(("", START, body));
  }
}
