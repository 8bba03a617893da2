/** Which messages the codec restores: an exact condition on the parts of a message. */
module CodecRoundTrip {
  import opened Text
  import opened PathList
  import opened Codec
  import opened CodecValues
  import opened CodecMessages
  import TimeStamp

  // ---------------------------------------------------------------- commas, wanted and restored

  /** A stretch of text, whether the message has a comma behind it, and whether the decoder puts one there. */
  datatype Piece = Piece(text: string, comma: bool, restored: bool)

  function Join(ps: seq<Piece>, decoded: bool): string {
    if ps == [] then ""
    else ps[0].text + ((if (if decoded then ps[0].restored else ps[0].comma) then "," else "") + Join(ps[1..], decoded))
  }

  function EndByte(p: Part, env: Env): char
    requires Good(p, env)
  {
    Encode(p, env)[|Encode(p, env)| - 1]
  }

  /** The decoder's rule for a comma behind a part, given the byte that comes next. */
  predicate Restored(p: Part, next: Option<char>, env: Env)
    requires Good(p, env)
  {
    if p.Bracket? then p.c == '}' && next == Some('{')
    else next.Some? && next.value != '}' && next.value != ']' && EndByte(p, env) != '{' && EndByte(p, env) != '['
  }

  function Head(s: string): Option<char> {
    if s == "" then None else Some(s[0])
  }

  /** Two list elements get their comma back only if they share the type code. */
  predicate SameType(v: string, w: string, env: Env) {
    CompressValue(v, env)[0] == CompressValue(w, env)[0]
  }

  function ListPieces(vs: seq<string>, comma: bool, restored: bool, env: Env): seq<Piece> {
    if vs == [] then [Piece("]", comma, restored)]
    else [Piece(Quoted(vs[0]), |vs| > 1, |vs| > 1 && SameType(vs[0], vs[1], env))]
         + ListPieces(vs[1..], comma, restored, env)
  }

  function Key(code: nat): string
    requires code < 26
  {
    Quoted(CODES[code]) + ":"
  }

  function PartPieces(p: Part, comma: bool, restored: bool, env: Env): seq<Piece>
    requires Good(p, env)
  {
    match p
    case Action(verb) => [Piece(Key(ACTION) + Quoted(CODES[verb]), comma, restored)]
    case PathOf(path) => [Piece(Key(PATH) + Quoted(Dotted(path)), comma, restored)]
    case Time(stamp) => [Piece(Key(TS) + TimeStamp.Render(stamp), comma, restored)]
    case Scalar(key, v) => [Piece(Key(key) + Quoted(v), comma, restored)]
    case List(key, vs) => [Piece(Key(key) + "[", false, false)] + ListPieces(vs, comma, restored, env)
    case Open(key) => [Piece(Key(key), comma, restored)]
    case Bracket(c) => [Piece([c], comma, restored)]
  }

  function Pieces(m: seq<Elem>, env: Env): seq<Piece>
    requires forall e :: e in m ==> Good(e.part, env)
  {
    if m == [] then []
    else PartPieces(m[0].part, m[0].comma, Restored(m[0].part, Head(EncodeAll(m[1..], env)), env), env)
         + Pieces(m[1..], env)
  }

  lemma JoinOne(p: Piece, decoded: bool)
    ensures Join([p], decoded) == p.text + if (if decoded then p.restored else p.comma) then "," else ""
  {
    assert Join([p][1..], decoded) == "";
  }

  lemma {:induction false} JoinAppend(a: seq<Piece>, b: seq<Piece>, decoded: bool)
    ensures Join(a + b, decoded) == Join(a, decoded) + Join(b, decoded)
  {
    if a == [] {
      assert a + b == b;
    } else {
      assert (a + b)[1..] == a[1..] + b;
      JoinAppend(a[1..], b, decoded);
    }
  }

  // ---------------------------------------------------------------- decompression of parts

  /** What may follow a value: nothing, a bracket or a key, but no type code. */
  predicate NoType(tail: string) {
    tail == "" || N(tail[0]) < 143
  }

  /** One turn of decompressValue on a list element. */
  lemma ElementDecompresses(s: string, i: nat, v: string, rest: string, env: Env)
    requires 1 <= i <= |s| && s[i..] == CompressValue(v, env) + rest && rest != "" && GoodValue(v, env)
    ensures var n := i + |CompressValue(v, env)|;
            && n <= |s| && s[n..] == rest
            && DecompressValue(s, i, env)
               == Prefixed(Quoted(v) + (if rest[0] == CompressValue(v, env)[0] then "," else ""),
                           DecompressValue(s, n, env))
  {
    hide DecompressOne, CompressValue, GoodValue;
    var bytes := CompressValue(v, env);
    GoodRoundTrip(v, rest, env);
    ValueLead(v, env);
    assert s[i] == s[i..][0] && s[i + |bytes|..] == s[i..][|bytes|..] == rest;
    assert s[i + |bytes|] == rest[0];
  }

  lemma ListJoinHead(vs: seq<string>, env: Env)
    requires vs != []
    ensures Join(ListPieces(vs, false, false, env), true)
         == Quoted(vs[0]) + (if |vs| > 1 && SameType(vs[0], vs[1], env) then "," else "")
            + Join(ListPieces(vs[1..], false, false, env), true)
  {
    hide SameType;
    var comma := if |vs| > 1 && SameType(vs[0], vs[1], env) then "," else "";
    var more := ListPieces(vs[1..], false, false, env);
    assert ListPieces(vs, false, false, env)[1..] == more;
    assert Quoted(vs[0]) + (comma + Join(more, true)) == (Quoted(vs[0]) + comma) + Join(more, true);
  }

  lemma ListEnds(s: string, i: nat, env: Env)
    requires 1 <= i < |s| && s[i] == ']'
    ensures DecompressValue(s, i, env) == Some((Join(ListPieces([], false, false, env), true), i + 1))
  {
    JoinOne(Piece("]", false, false), true);
    assert "]" + "" == "]";
  }

  lemma {:induction false} ListDecompresses(s: string, i: nat, vs: seq<string>, tail: string, env: Env)
    requires 1 <= i <= |s| && s[i..] == EncodeList(vs, env) + tail
    requires forall v :: v in vs ==> GoodValue(v, env)
    ensures DecompressValue(s, i, env)
         == Some((Join(ListPieces(vs, false, false, env), true), i + |EncodeList(vs, env)|))
    decreases |vs|
  {
    hide DecompressOne, CompressValue, GoodValue, DecompressValue, Join, ListPieces;
    if vs == [] {
      assert s[i] == s[i..][0];
      ListEnds(s, i, env);
    } else {
      var v, bytes, rest := vs[0], CompressValue(vs[0], env), EncodeList(vs[1..], env) + tail;
      assert v in vs;
      assert s[i..] == bytes + rest;
      ElementDecompresses(s, i, v, rest, env);
      ValueLead(v, env);
      assert rest[0] == if |vs| > 1 then CompressValue(vs[1], env)[0] else ']';
      ListDecompresses(s, i + |bytes|, vs[1..], tail, env);
      ListJoinHead(vs, env);
    }
  }

  lemma ScalarDecompresses(v: string, tail: string, env: Env)
    requires GoodValue(v, env) && NoType(tail)
    ensures DecompressValue(CompressValue(v, env) + tail, 0, env) == Some((Quoted(v), |CompressValue(v, env)|))
  {
    hide DecompressOne, CompressValue, GoodValue;
    var s := CompressValue(v, env) + tail;
    GoodRoundTrip(v, tail, env);
    ValueLead(v, env);
    assert s[0..] == s;
    assert Quoted(v) + "" == Quoted(v);
  }

  lemma {:induction false} EncodeListEnds(vs: seq<string>, env: Env)
    ensures EncodeList(vs, env) != "" && EncodeList(vs, env)[|EncodeList(vs, env)| - 1] == ']'
  {
    if vs != [] {
      EncodeListEnds(vs[1..], env);
    }
  }

  /** What readCompressedMessage makes of a key and its payload. */
  lemma KeyDecompresses(code: nat, payload: string, text: string, tail: string, env: Env)
    requires code < KEYS && code != ACTION && code != FILTER && code != AUTHORIZATION
    requires DecompressPayload(code, [Byte(code)] + payload + tail, env) == Some((text, |payload|))
    ensures var end := ([Byte(code)] + payload)[|payload|];
            var next := Head(tail);
            var comma := next.Some? && next.value != '}' && next.value != ']' && end != '{' && end != '[';
            DecompressRest([Byte(code)] + payload + tail, env)
            == Then(Key(code) + text + (if comma then "," else ""), DecompressRest(tail, env))
  {
    var rest := [Byte(code)] + payload + tail;
    assert rest[|payload| + 1..] == tail;
    assert rest[|payload|] == ([Byte(code)] + payload)[|payload|];
    assert tail != "" ==> rest[|payload| + 1] == tail[0];
  }

  lemma SinglePartDecompresses(p: Part, text: string, tail: string, env: Env)
    requires Good(p, env) && (p.PathOf? || p.Time? || p.Scalar? || p.Open?)
    requires var code := match p case PathOf(_) => PATH case Time(_) => TS case Scalar(k, _) => k case Open(k) => k;
             && Encode(p, env)[0] == Byte(code)
             && DecompressPayload(code, Encode(p, env) + tail, env) == Some((text, |Encode(p, env)| - 1))
    ensures var code := match p case PathOf(_) => PATH case Time(_) => TS case Scalar(k, _) => k case Open(k) => k;
            DecompressRest(Encode(p, env) + tail, env)
            == Then(Key(code) + text + (if Restored(p, Head(tail), env) then "," else ""), DecompressRest(tail, env))
  {
    hide Encode, DecompressPayload;
    var code := match p case PathOf(_) => PATH case Time(_) => TS case Scalar(k, _) => k case Open(k) => k;
    var payload := Encode(p, env)[1..];
    assert [Byte(code)] + payload == Encode(p, env);
    KeyDecompresses(code, payload, text, tail, env);
  }

  /** The comma behind a list is the one behind its bracket. */
  lemma {:induction false} ListComma(vs: seq<string>, comma: bool, restored: bool, env: Env)
    ensures Join(ListPieces(vs, comma, restored, env), true)
         == Join(ListPieces(vs, false, false, env), true) + if restored then "," else ""
  {
    if vs == [] {
      JoinOne(Piece("]", false, false), true);
      JoinOne(Piece("]", comma, restored), true);
    } else {
      ListComma(vs[1..], comma, restored, env);
      assert ListPieces(vs, comma, restored, env)[1..] == ListPieces(vs[1..], comma, restored, env);
      assert ListPieces(vs, false, false, env)[1..] == ListPieces(vs[1..], false, false, env);
    }
  }

  lemma ListPayload(key: nat, vs: seq<string>, tail: string, env: Env)
    requires Good(List(key, vs), env)
    ensures DecompressPayload(key, [Byte(key)] + ("[" + EncodeList(vs, env)) + tail, env)
         == Some(("[" + Join(ListPieces(vs, false, false, env), true), 1 + |EncodeList(vs, env)|))
  {
    hide EncodeList, ListPieces, GoodValue, DecompressOne;
    var s := "[" + EncodeList(vs, env) + tail;
    assert s[1..] == EncodeList(vs, env) + tail;
    ListDecompresses(s, 1, vs, tail, env);
    assert ([Byte(key)] + ("[" + EncodeList(vs, env)) + tail)[1..] == s;
  }

  lemma ListPartDecompresses(key: nat, vs: seq<string>, comma: bool, tail: string, env: Env)
    requires Good(List(key, vs), env)
    ensures var p := List(key, vs);
            DecompressRest(Encode(p, env) + tail, env)
            == Then(Join(PartPieces(p, comma, Restored(p, Head(tail), env), env), true), DecompressRest(tail, env))
  {
    hide DecompressRest, EncodeList, ListPieces, GoodValue, DecompressValue, DecompressPayload, DecompressOne;
    var p, payload := List(key, vs), "[" + EncodeList(vs, env);
    var values, restored := Join(ListPieces(vs, false, false, env), true), Restored(p, Head(tail), env);
    EncodeListEnds(vs, env);
    assert [Byte(key)] + payload == Encode(p, env);
    ListPayload(key, vs, tail, env);
    KeyDecompresses(key, payload, "[" + values, tail, env);
    ListPartJoin(key, vs, comma, restored, env);
  }

  lemma ListPartJoin(key: nat, vs: seq<string>, comma: bool, restored: bool, env: Env)
    requires Good(List(key, vs), env)
    ensures Join(PartPieces(List(key, vs), comma, restored, env), true)
         == Key(key) + ("[" + Join(ListPieces(vs, false, false, env), true)) + (if restored then "," else "")
  {
    hide ListPieces, GoodValue, Key;
    ListComma(vs, comma, restored, env);
    var pieces := PartPieces(List(key, vs), comma, restored, env);
    assert pieces[1..] == ListPieces(vs, comma, restored, env);
  }

  /** A part decodes to its text; the commas are those of the decoder's rules. */
  lemma PartDecompresses(p: Part, comma: bool, tail: string, env: Env)
    requires Good(p, env) && NoType(tail)
    ensures DecompressRest(Encode(p, env) + tail, env)
         == Then(Join(PartPieces(p, comma, Restored(p, Head(tail), env), env), true), DecompressRest(tail, env))
  {
    hide DecompressRest, CompressValue, DecompressValue, GoodValue, EncodeList, TimeStamp.Render, TimeStamp.Pack,
         TimeStamp.Unpack, Restored, Join, SearchIndex, CODES;
    var s, restored := Encode(p, env) + tail, Restored(p, Head(tail), env);
    match p
    case Action(verb) =>
      ActionDecompresses(verb, tail, env);
      JoinOne(PartPieces(p, comma, restored, env)[0], true);
    case PathOf(path) =>
      var i := SearchIndex(env.paths, Dotted(path));
      assert N(s[1]) * 256 + N(s[2]) == i;
      SinglePartDecompresses(p, Quoted(Dotted(path)), tail, env);
      JoinOne(PartPieces(p, comma, restored, env)[0], true);
    case Time(stamp) =>
      assert s[1..5] == TimeStamp.Pack(stamp);
      TimeStamp.UnpackOfPack(stamp);
      SinglePartDecompresses(p, TimeStamp.Render(stamp), tail, env);
      JoinOne(PartPieces(p, comma, restored, env)[0], true);
    case Scalar(key, v) =>
      assert s[1..] == CompressValue(v, env) + tail;
      ScalarDecompresses(v, tail, env);
      SinglePartDecompresses(p, Quoted(v), tail, env);
      JoinOne(PartPieces(p, comma, restored, env)[0], true);
    case List(key, vs) =>
      ListPartDecompresses(key, vs, comma, tail, env);
    case Open(key) =>
      SinglePartDecompresses(p, "", tail, env);
      assert Key(key) + "" == Key(key);
      JoinOne(PartPieces(p, comma, restored, env)[0], true);
    case Bracket(c) =>
      BracketDecompresses(c, tail, env);
      JoinOne(PartPieces(p, comma, restored, env)[0], true);
  }

  lemma BracketDecompresses(c: char, tail: string, env: Env)
    requires Good(Bracket(c), env)
    ensures DecompressRest([c] + tail, env)
         == Then([c] + (if Restored(Bracket(c), Head(tail), env) then "," else ""), DecompressRest(tail, env))
  {
    assert ([c] + tail)[1..] == tail;
  }

  lemma ActionDecompresses(verb: nat, tail: string, env: Env)
    requires Good(Action(verb), env)
    ensures DecompressRest(Encode(Action(verb), env) + tail, env)
         == Then(Key(ACTION) + Quoted(CODES[verb]) + (if Restored(Action(verb), Head(tail), env) then "," else ""),
                 DecompressRest(tail, env))
  {
    var s := Encode(Action(verb), env) + tail;
    var rest := [Byte(verb)] + tail;
    var comma := if Restored(Action(verb), Head(tail), env) then "," else "";
    assert s[1..] == rest && rest[1..] == tail;
    assert ReadCompressed(s, env) == Some((Key(ACTION) + "" + "", 1));
    assert ReadCompressed(rest, env) == Some((Quoted(CODES[verb]) + "" + "" + comma, 1));
    assert Key(ACTION) + "" + "" == Key(ACTION);
    assert Quoted(CODES[verb]) + "" + "" + comma == Quoted(CODES[verb]) + comma;
    ThenThen(Key(ACTION), Quoted(CODES[verb]) + comma, DecompressRest(tail, env));
    assert Key(ACTION) + (Quoted(CODES[verb]) + comma) == Key(ACTION) + Quoted(CODES[verb]) + comma;
  }

  lemma EncodeLead(p: Part, env: Env)
    requires Good(p, env)
    ensures N(Encode(p, env)[0]) < 143
    ensures !p.Bracket? ==> N(Encode(p, env)[0]) >= 128
  {
  }

  /** The bytes of a message decode to its pieces, with the commas of the decoder's rules. */
  lemma {:induction false} PartsDecompress(m: seq<Elem>, env: Env)
    requires forall e :: e in m ==> Good(e.part, env)
    ensures DecompressRest(EncodeAll(m, env), env) == Some(Join(Pieces(m, env), true))
  {
    hide Encode, Good, PartPieces, Restored;
    if m != [] {
      var e, tail := m[0], EncodeAll(m[1..], env);
      assert e in m;
      if m[1..] != [] {
        assert m[1] in m;
        EncodeLead(m[1].part, env);
        assert tail[0] == Encode(m[1].part, env)[0];
      }
      PartDecompresses(e.part, e.comma, tail, env);
      PartsDecompress(m[1..], env);
      JoinAppend(PartPieces(e.part, e.comma, Restored(e.part, Head(tail), env), env), Pieces(m[1..], env), true);
    }
  }

  // ---------------------------------------------------------------- the text that should come back

  /** The part with its path in dot form. */
  function Dots(p: Part): Part {
    if p.PathOf? then PathOf(Dotted(p.path)) else p
  }

  function DotAll(m: seq<Elem>): seq<Elem> {
    if m == [] then [] else [Elem(Dots(m[0].part), m[0].comma)] + DotAll(m[1..])
  }

  function Flat(tokens: seq<string>): string {
    if tokens == [] then "" else tokens[0] + Flat(tokens[1..])
  }

  lemma {:induction false} DotAllKeyed(m: seq<Elem>)
    requires forall e :: e in m ==> Keyed(e.part)
    ensures forall e :: e in DotAll(m) ==> Keyed(e.part)
  {
    if m != [] {
      assert m[0] in m;
      DotAllKeyed(m[1..]);
    }
  }

  /** The message without spaces and with dotted paths: what decompression should give. */
  function Canonical(m: seq<Elem>, env: Env): string
    requires GoodMessage(m, env)
  {
    DotAllKeyed(m);
    "{" + Flat(Tokens(DotAll(m)))
  }

  lemma {:induction false} FlatAppend(a: seq<string>, b: seq<string>)
    ensures Flat(a + b) == Flat(a) + Flat(b)
  {
    if a == [] {
      assert a + b == b;
    } else {
      assert (a + b)[1..] == a[1..] + b;
      FlatAppend(a[1..], b);
    }
  }

  lemma FlatThree(a: string, b: string, c: string)
    ensures Flat([a, b]) == a + b && Flat([a, b, c]) == a + b + c
  {
    assert [a, b][1..] == [b] && [b][1..] == [] && [a, b, c][1..] == [b, c] && [b, c][1..] == [c] && [c][1..] == [];
    assert Flat([b]) == b && Flat([c]) == c;
  }

  lemma FlatNothing()
    ensures Flat([]) == ""
  {
  }

  lemma JoinNothing(decoded: bool)
    ensures Join([], decoded) == ""
  {
  }

  lemma FlatOne(a: string)
    ensures Flat([a]) == a
  {
    assert [a][1..] == [];
  }

  lemma {:induction false} ListFlat(vs: seq<string>, comma: bool, restored: bool, env: Env)
    ensures Flat(ListTokens(vs)) + (if comma then "," else "") == Join(ListPieces(vs, comma, restored, env), false)
  {
    hide SameType, Join, Flat;
    var pieces := ListPieces(vs, comma, restored, env);
    if vs == [] {
      JoinOne(pieces[0], false);
      FlatOne("]");
    } else {
      var mark, rest := if |vs| > 1 then [","] else [], ListTokens(vs[1..]);
      ListFlat(vs[1..], comma, restored, env);
      JoinOne(pieces[0], false);
      JoinAppend([pieces[0]], ListPieces(vs[1..], comma, restored, env), false);
      FlatOne(Quoted(vs[0]));
      FlatOne(",");
      FlatNothing();
      FlatAppend([Quoted(vs[0])], mark + rest);
      FlatAppend(mark, rest);
    }
  }

  lemma PartFlat(p: Part, comma: bool, restored: bool, env: Env)
    requires Good(p, env) && Keyed(p)
    ensures Flat(PartTokens(Dots(p))) + (if comma then "," else "") == Join(PartPieces(p, comma, restored, env), false)
  {
    hide Good, ListTokens, ListPieces, TimeStamp.Render, Join, Flat, Dotted;
    var pieces := PartPieces(p, comma, restored, env);
    match p
    case Action(verb) =>
      FlatThree(Quoted(CODES[ACTION]), ":", Quoted(CODES[verb]));
      JoinOne(pieces[0], false);
    case PathOf(path) =>
      FlatThree(Quoted(CODES[PATH]), ":", Quoted(Dotted(path)));
      JoinOne(pieces[0], false);
    case Time(stamp) =>
      FlatThree(Quoted(CODES[TS]), ":", TimeStamp.Render(stamp));
      JoinOne(pieces[0], false);
    case Scalar(key, v) =>
      FlatThree(Quoted(CODES[key]), ":", Quoted(v));
      JoinOne(pieces[0], false);
    case List(key, vs) =>
      FlatThree(Quoted(CODES[key]), ":", "[");
      FlatAppend([Quoted(CODES[key]), ":", "["], ListTokens(vs));
      ListFlat(vs, comma, restored, env);
      JoinOne(pieces[0], false);
      JoinAppend([pieces[0]], ListPieces(vs, comma, restored, env), false);
    case Open(key) =>
      FlatThree(Quoted(CODES[key]), ":", "");
      JoinOne(pieces[0], false);
    case Bracket(c) =>
      FlatOne([c]);
      JoinOne(pieces[0], false);
  }

  lemma {:induction false} FlatIsJoin(m: seq<Elem>, env: Env)
    requires forall e :: e in m ==> Good(e.part, env) && Keyed(e.part)
    requires forall e :: e in DotAll(m) ==> Keyed(e.part)
    ensures Flat(Tokens(DotAll(m))) == Join(Pieces(m, env), false) + "}"
  {
    hide PartTokens, PartPieces, Restored, Good, Encode, Dots, Join, Flat;
    if m == [] {
      FlatOne("}");
      assert Join([], false) == "" by { JoinNothing(false); }
    } else {
      var e, restored := m[0], Restored(m[0].part, Head(EncodeAll(m[1..], env)), env);
      assert e in m;
      assert DotAll(m)[0] in DotAll(m);
      var tokens, mark := PartTokens(Dots(e.part)), if e.comma then [","] else [];
      assert DotAll(m)[1..] == DotAll(m[1..]);
      FlatIsJoin(m[1..], env);
      PartFlat(e.part, e.comma, restored, env);
      FlatAppend(tokens, mark);
      FlatAppend(tokens + mark, Tokens(DotAll(m[1..])));
      FlatOne(",");
      FlatNothing();
      JoinAppend(PartPieces(e.part, e.comma, restored, env), Pieces(m[1..], env), false);
    }
  }

  // ---------------------------------------------------------------- the exact condition

  predicate Solid(s: string) {
    s == "" || s[0] != ','
  }

  predicate AllSolid(ps: seq<Piece>) {
    forall p :: p in ps ==> p.text != "" && Solid(p.text)
  }

  predicate AllAgree(ps: seq<Piece>) {
    forall p :: p in ps ==> p.comma == p.restored
  }

  function Comma(c: bool): string {
    if c then "," else ""
  }

  lemma CommasAgreeIff(c: bool, d: bool, x: string, y: string)
    requires Solid(x) && Solid(y)
    ensures Comma(c) + x == Comma(d) + y <==> c == d && x == y
  {
    if c == d {
      Cancel(Comma(c), x, y);
    } else {
      assert Comma(true) + (if c then x else y) != "" && (Comma(true) + (if c then x else y))[0] == ',';
      assert Comma(false) + x == x && Comma(false) + y == y;
    }
  }

  lemma {:induction false} JoinsAgreeIff(ps: seq<Piece>, a: string, b: string)
    requires AllSolid(ps) && Solid(a) && Solid(b)
    ensures Join(ps, false) + a == Join(ps, true) + b <==> AllAgree(ps) && a == b
  {
    if ps == [] {
      assert "" + a == a && "" + b == b;
    } else {
      hide Solid, Comma;
      var p, rest, x, y := ps[0], ps[1..], Join(ps[1..], false) + a, Join(ps[1..], true) + b;
      JoinsAgreeIff(rest, a, b);
      JoinSolid(rest, a, false);
      JoinSolid(rest, b, true);
      JoinHead(ps, a, false);
      JoinHead(ps, b, true);
      Cancel(p.text, Comma(p.comma) + x, Comma(p.restored) + y);
      CommasAgreeIff(p.comma, p.restored, x, y);
      assert ps == [p] + rest;
    }
  }

  lemma JoinHead(ps: seq<Piece>, a: string, decoded: bool)
    requires ps != []
    ensures Join(ps, decoded) + a
         == ps[0].text + (Comma(if decoded then ps[0].restored else ps[0].comma) + (Join(ps[1..], decoded) + a))
  {
  }

  lemma Cancel(p: string, a: string, b: string)
    ensures p + a == p + b <==> a == b
  {
    assert (p + a)[|p|..] == a && (p + b)[|p|..] == b;
  }

  lemma JoinSolid(ps: seq<Piece>, a: string, decoded: bool)
    requires AllSolid(ps) && Solid(a)
    ensures Solid(Join(ps, decoded) + a)
  {
    if ps != [] {
      assert ps[0] in ps;
    }
  }

  /** All elements of a list share one type code. */
  predicate Uniform(p: Part, env: Env) {
    p.List? ==> forall i :: 0 <= i < |p.texts| - 1 ==> SameType(p.texts[i], p.texts[i + 1], env)
  }

  function NextByte(m: seq<Elem>, i: nat, env: Env): Option<char>
    requires i < |m| && forall e :: e in m ==> Good(e.part, env)
  {
    if i + 1 < |m| then Some(Encode(m[i + 1].part, env)[0]) else None
  }

  /** Every comma of the message is where the decoder puts one, and nowhere else. */
  predicate CommasRestored(m: seq<Elem>, env: Env)
    requires forall e :: e in m ==> Good(e.part, env)
  {
    forall i :: 0 <= i < |m| ==> m[i].comma == Restored(m[i].part, NextByte(m, i, env), env) && Uniform(m[i].part, env)
  }

  /** What a caller can check before compressing a message. */
  predicate Restorable(m: seq<Elem>, env: Env)
    requires GoodMessage(m, env)
  {
    m != [] && CommasRestored(m, env) && EndByte(m[|m| - 1].part, env) != '}'
  }

  lemma {:induction false} ListAgrees(vs: seq<string>, comma: bool, restored: bool, env: Env)
    ensures AllAgree(ListPieces(vs, comma, restored, env)) <==> comma == restored && Uniform(List(0, vs), env)
    ensures AllSolid(ListPieces(vs, comma, restored, env))
  {
    hide SameType;
    var ps := ListPieces(vs, comma, restored, env);
    if vs != [] {
      ListAgrees(vs[1..], comma, restored, env);
      var rest := ListPieces(vs[1..], comma, restored, env);
      assert ps == [ps[0]] + rest;
      assert AllAgree(ps) <==> ps[0].comma == ps[0].restored && AllAgree(rest);
      assert |vs| > 1 ==> vs[1] == vs[1..][0];
      assert Uniform(List(0, vs), env)
          <==> (|vs| > 1 ==> SameType(vs[0], vs[1], env)) && Uniform(List(0, vs[1..]), env) by {
        UniformStep(vs, env);
      }
    }
  }

  lemma UniformStep(vs: seq<string>, env: Env)
    requires vs != []
    ensures Uniform(List(0, vs), env)
            <==> (|vs| > 1 ==> SameType(vs[0], vs[1], env)) && Uniform(List(0, vs[1..]), env)
  {
    hide SameType;
    var rest := vs[1..];
    if Uniform(List(0, vs), env) {
      forall i | 0 <= i < |rest| - 1 ensures SameType(rest[i], rest[i + 1], env) {
        assert SameType(vs[i + 1], vs[i + 2], env);
      }
    }
    if (|vs| > 1 ==> SameType(vs[0], vs[1], env)) && Uniform(List(0, rest), env) {
      forall i | 0 <= i < |vs| - 1 ensures SameType(vs[i], vs[i + 1], env) {
        assert i > 0 ==> SameType(rest[i - 1], rest[i], env);
      }
    }
  }

  lemma PartAgrees(p: Part, comma: bool, restored: bool, env: Env)
    requires Good(p, env)
    ensures AllAgree(PartPieces(p, comma, restored, env)) <==> comma == restored && Uniform(p, env)
    ensures AllSolid(PartPieces(p, comma, restored, env))
  {
    hide ListPieces, GoodValue, SameType;
    if p.List? {
      var head, rest := Piece(Key(p.key) + "[", false, false), ListPieces(p.texts, comma, restored, env);
      ListAgrees(p.texts, comma, restored, env);
      assert PartPieces(p, comma, restored, env) == [head] + rest;
    }
  }

  lemma {:induction false} MessageAgrees(m: seq<Elem>, env: Env)
    requires forall e :: e in m ==> Good(e.part, env)
    ensures AllAgree(Pieces(m, env)) <==> CommasRestored(m, env)
    ensures AllSolid(Pieces(m, env))
  {
    hide Good, PartPieces, Restored, Encode, Uniform;
    if m != [] {
      assert m[0] in m;
      var rest, here := Pieces(m[1..], env), Restored(m[0].part, Head(EncodeAll(m[1..], env)), env);
      var first := PartPieces(m[0].part, m[0].comma, here, env);
      PartAgrees(m[0].part, m[0].comma, here, env);
      MessageAgrees(m[1..], env);
      assert Pieces(m, env) == first + rest;
      assert AllAgree(first + rest) <==> AllAgree(first) && AllAgree(rest);
      HeadIsNext(m, env);
      CommasStep(m, env);
    }
  }

  lemma HeadIsNext(m: seq<Elem>, env: Env)
    requires m != [] && forall e :: e in m ==> Good(e.part, env)
    ensures Head(EncodeAll(m[1..], env)) == NextByte(m, 0, env)
  {
    hide Good;
    if |m| > 1 {
      assert m[1] in m && m[1..][0] == m[1];
    }
  }

  lemma CommasStep(m: seq<Elem>, env: Env)
    requires m != [] && forall e :: e in m ==> Good(e.part, env)
    ensures CommasRestored(m, env)
            <==> m[0].comma == Restored(m[0].part, NextByte(m, 0, env), env) && Uniform(m[0].part, env)
                 && CommasRestored(m[1..], env)
  {
    hide Good, Restored, Encode, Uniform, Keyed;
    var rest := m[1..];
    assert forall i :: 0 <= i < |rest| ==> rest[i] == m[i + 1] && NextByte(rest, i, env) == NextByte(m, i + 1, env);
    if CommasRestored(rest, env) && m[0].comma == Restored(m[0].part, NextByte(m, 0, env), env)
        && Uniform(m[0].part, env) {
      forall i | 0 <= i < |m|
        ensures m[i].comma == Restored(m[i].part, NextByte(m, i, env), env) && Uniform(m[i].part, env)
      {
        assert i > 0 ==> rest[i - 1] == m[i];
      }
    }
  }

  lemma {:induction false} EncodeAllEnds(m: seq<Elem>, env: Env)
    requires m != [] && forall e :: e in m ==> Good(e.part, env)
    ensures var s := EncodeAll(m, env);
            s != "" && s[0] == Encode(m[0].part, env)[0] && s[|s| - 1] == EndByte(m[|m| - 1].part, env)
  {
    hide Good, Encode;
    assert m[0] in m;
    if |m| > 1 {
      EncodeAllEnds(m[1..], env);
      assert m[1..][|m| - 2] == m[|m| - 1];
    } else {
      assert EncodeAll(m[1..], env) == "";
      assert EncodeAll(m, env) == Encode(m[0].part, env);
    }
  }

  /** The codec's law, exactly: a message of the grammar, however it is spaced, comes back (without the spaces, and with
      dotted paths) if and only if it is restorable. */
  lemma RoundTripIff(m: seq<Elem>, gaps: seq<nat>, env: Env)
    requires GoodMessage(m, env) && |gaps| == |Tokens(m)|
    ensures Compress(MessageText(m, gaps), env).Some?
    ensures Decompress(Compress(MessageText(m, gaps), env).value, env) == Some(Canonical(m, env))
            <==> Restorable(m, env)
  {
    hide Good, Encode, Pieces, Tokens, CommasRestored, Decompress, DecompressRest;
    MessageCompresses(m, gaps, env);
    var s := EncodeAll(m, env);
    DecodedText(m, env);
    if m != [] {
      DotAllKeyed(m);
      FlatIsJoin(m, env);
      MessageAgrees(m, env);
      EncodeAllEnds(m, env);
      var close := if s[|s| - 1] != '}' then "}" else "";
      var wanted, got := Join(Pieces(m, env), false) + "}", Join(Pieces(m, env), true) + close;
      JoinsAgreeIff(Pieces(m, env), "}", close);
      Cancel("{", wanted, got);
    }
  }

  lemma EncodeNothing(m: seq<Elem>, env: Env)
    requires m == []
    ensures EncodeAll(m, env) == ""
  {
  }

  /** What decompression gives for the bytes of a message. */
  lemma DecodedText(m: seq<Elem>, env: Env)
    requires GoodMessage(m, env)
    ensures var s := EncodeAll(m, env);
            if m == [] then Decompress(s, env) == Some("")
            else s != "" && Decompress(s, env)
                 == Some("{" + (Join(Pieces(m, env), true) + if s[|s| - 1] != '}' then "}" else ""))
  {
    hide Pieces, DecompressRest, Good, Encode, EncodeAll;
    if m == [] {
      assert EncodeAll(m, env) == "" by { EncodeNothing(m, env); }
    } else {
      assert m[0] in m;
      EncodeAllEnds(m, env);
      EncodeLead(m[0].part, env);
      PartsDecompress(m, env);
      var t, s := Join(Pieces(m, env), true), EncodeAll(m, env);
      var close := if s[|s| - 1] != '}' then "}" else "";
      assert "{" + t + close == "{" + (t + close);
    }
  }
}
