/** Texts behind JSON values: a value is never longer than what it is parsed from, and some texts are parsed nowhere. */
module JsonTexts {
  import opened Text
  import opened Json

  // ---------------------------------------------------------------- the length of a text

  /** The value without white space, its strings as they are. */
  function Bare(j: Json): string {
    Print(j, UNESCAPED)
  }

  /** `p` is at most as long as what has been taken from the front of `s`, and if it is as long, it is just that. */
  predicate Fits(p: string, s: string, rest: string) {
    |p| + |rest| <= |s| && (|p| + |rest| == |s| ==> s == p + rest)
  }

  predicate Tight(p: string, s: string, rest: string) {
    |p| + |rest| == |s|
  }

  lemma SkipFits(s: string)
    ensures Fits("", s, Skip(s))
  {
    assert "" + s == s;
  }

  lemma FitsOn(p: string, q: string, s: string, t: string, rest: string)
    requires Fits(p, s, t) && Fits(q, t, rest)
    ensures Fits(p + q, s, rest)
    ensures Tight(p + q, s, rest) ==> Tight(p, s, t) && Tight(q, t, rest)
  {
    if Tight(p + q, s, rest) {
      assert p + (q + rest) == (p + q) + rest;
    }
  }

  lemma CharFits(c: char, s: string)
    requires s != "" && s[0] == c
    ensures Fits([c], s, s[1..]) && Tight([c], s, s[1..])
  {
    assert s == [s[0]] + s[1..];
  }

  lemma UnescapeShrinks(s: string)
    ensures var r := Unescape(s); r.Some? ==> |r.value.0| <= r.value.1
  {
    hide HexValue;
  }

  lemma {:induction false} CharsFit(s: string)
    requires ParseChars(s).Some?
    ensures var (text, rest) := ParseChars(s).value;
            Fits(text + "\"", s, rest) && (Tight(text + "\"", s, rest) ==> RawText(text))
    decreases |s|
  {
    var (text, rest) := ParseChars(s).value;
    if s[0] == QUOTE {
      CharFits(QUOTE, s);
      assert text + "\"" == [QUOTE];
    } else if s[0] != '\\' {
      CharsFit(s[1..]);
      hide ParseChars;
      CharFits(s[0], s);
      FitsOn([s[0]], text[1..] + "\"", s, s[1..], rest);
      assert [s[0]] + (text[1..] + "\"") == text + "\"";
      RawOne(s[0], text[1..]);
      assert text == [s[0]] + text[1..];
    } else {
      var (more, n) := Unescape(s[1..]).value;
      CharsFit(s[1 + n..]);
      UnescapeShrinks(s[1..]);
      hide Unescape;
      var tail := text[|more|..];
      assert text == more + tail && |text| == |more| + |tail|;
      assert |s[1 + n..]| == |s| - 1 - n;
    }
  }

  lemma RawOne(c: char, text: string)
    requires N(c) >= 0x20 && c != QUOTE && c != '\\'
    ensures RawText(text) ==> RawText([c] + text)
  {
  }

  lemma LiteralFits(s: string)
    requires ParseLiteral(s).Some?
    ensures var (j, rest) := ParseLiteral(s).value; Fits(Bare(j), s, rest) && Raw(j)
  {
    hide IsLiteral;
    var n := LiteralLength(s);
    assert s == s[..n] + s[n..];
  }

  lemma StringFits(t: string)
    requires t != "" && t[0] == QUOTE && ParseChars(t[1..]).Some?
    ensures var (text, rest) := ParseChars(t[1..]).value;
            Fits(Bare(Str(text)), t, rest) && (Tight(Bare(Str(text)), t, rest) ==> RawText(text))
  {
    hide ParseChars;
    var (text, rest) := ParseChars(t[1..]).value;
    CharsFit(t[1..]);
    CharFits(QUOTE, t);
    FitsOn([QUOTE], text + "\"", t, t[1..], rest);
    assert [QUOTE] + (text + "\"") == Bare(Str(text));
    hide RawText;
  }

  /** What is parsed is at most as long as its text, and if it is as long, the text is its bare form. */
  lemma ValueFits(s: string)
    requires ParseValue(s).Some?
    ensures var (j, rest) := ParseValue(s).value; Fits(Bare(j), s, rest) && (Tight(Bare(j), s, rest) ==> Raw(j))
    decreases |s|, 2
  {
    var (j, rest) := ParseValue(s).value;
    var t := Skip(s);
    SkipFits(s);
    var inner := Bare(j);
    if t[0] == QUOTE {
      StringFits(t);
    } else if t[0] == '[' {
      ArrayFits(t);
    } else if t[0] == '{' {
      ObjectFits(t);
    } else {
      LiteralFits(t);
    }
    hide Fits, Print, Raw, ParseChars, ParseLiteral, ParseItems, ParseMembers;
    FitsOn("", inner, s, t, rest);
    assert "" + inner == inner;
  }

  lemma BareArray(items: seq<Json>)
    ensures Bare(Arr(items)) == if items == [] then "[]" else "[" + PrintItems(items, UNESCAPED)
  {
    assert items != [] ==> "[" + "" + PrintItems(items, UNESCAPED) == "[" + PrintItems(items, UNESCAPED);
  }

  lemma BareObject(ms: seq<Member>)
    ensures Bare(Obj(ms)) == if ms == [] then "{}" else "{" + PrintMembers(ms, UNESCAPED)
  {
    assert ms != [] ==> "{" + "" + PrintMembers(ms, UNESCAPED) == "{" + PrintMembers(ms, UNESCAPED);
  }

  lemma ArrayFits(t: string)
    requires t != "" && t[0] == '[' && ParseValue(t).Some?
    ensures var (j, rest) := ParseValue(t).value; Fits(Bare(j), t, rest) && (Tight(Bare(j), t, rest) ==> Raw(j))
    decreases |t|, 1
  {
    var (j, rest) := ParseValue(t).value;
    var u := Skip(t[1..]);
    CharFits('[', t);
    SkipFits(t[1..]);
    assert Skip(t) == t;
    FitsOn("[", "", t, t[1..], u);
    assert "[" + "" == "[";
    if u != "" && u[0] == ']' {
      CharFits(']', u);
      FitsOn("[", "]", t, u, u[1..]);
      assert "[" + "]" == "[]";
    } else {
      ItemsFit(u);
      BareArray(j.items);
      hide ParseItems, Print, Fits;
      FitsOn("[", PrintItems(j.items, UNESCAPED), t, u, rest);
    }
  }

  lemma ObjectFits(t: string)
    requires t != "" && t[0] == '{' && ParseValue(t).Some?
    ensures var (j, rest) := ParseValue(t).value; Fits(Bare(j), t, rest) && (Tight(Bare(j), t, rest) ==> Raw(j))
    decreases |t|, 1
  {
    var (j, rest) := ParseValue(t).value;
    var u := Skip(t[1..]);
    CharFits('{', t);
    SkipFits(t[1..]);
    assert Skip(t) == t;
    FitsOn("{", "", t, t[1..], u);
    assert "{" + "" == "{";
    if u != "" && u[0] == '}' {
      CharFits('}', u);
      FitsOn("{", "}", t, u, u[1..]);
      assert "{" + "}" == "{}";
    } else {
      MembersFit(u);
      BareObject(j.members);
      hide ParseMembers, Print, Fits;
      FitsOn("{", PrintMembers(j.members, UNESCAPED), t, u, rest);
    }
  }

  lemma ItemsFit(s: string)
    requires ParseItems(s).Some?
    ensures var (items, rest) := ParseItems(s).value;
            var p := PrintItems(items, UNESCAPED);
            items != [] && Fits(p, s, rest) && (Tight(p, s, rest) ==> Raw(Arr(items)))
    decreases |s|, 3
  {
    var (items, rest) := ParseItems(s).value;
    var (item, rest1) := ParseValue(s).value;
    var t := Skip(rest1);
    ValueFits(s);
    hide ParseValue;
    SkipFits(rest1);
    FitsOn(Bare(item), "", s, rest1, t);
    assert Bare(item) + "" == Bare(item);
    CharFits(t[0], t);
    FitsOn(Bare(item), [t[0]], s, t, t[1..]);
    if t[0] == ']' {
      OneItem(item);
    } else {
      ItemsFit(t[1..]);
      var (more, _) := ParseItems(t[1..]).value;
      assert items == [item] + more;
      FitsOn(Bare(item) + ",", PrintItems(more, UNESCAPED), s, t[1..], rest);
      MoreItems(item, more);
    }
    hide ParseItems, Print, PrintItems, Skip;
  }

  lemma OneItem(item: Json)
    ensures PrintItems([item], UNESCAPED) == Bare(item) + "]" && (Raw(item) ==> Raw(Arr([item])))
  {
    hide Print;
  }

  lemma MoreItems(item: Json, more: seq<Json>)
    requires more != []
    ensures PrintItems([item] + more, UNESCAPED) == Bare(item) + "," + PrintItems(more, UNESCAPED)
    ensures Raw(item) && Raw(Arr(more)) ==> Raw(Arr([item] + more))
  {
    hide Print;
    var items := [item] + more;
    assert items[1..] == more && |items| > 1;
    assert Bare(item) + ("," + "" + PrintItems(more, UNESCAPED)) == Bare(item) + "," + PrintItems(more, UNESCAPED);
  }

  /** A member, up to its value. */
  function MemberBare(m: Member): string {
    "\"" + m.key + "\":" + Bare(m.value)
  }

  lemma MemberFits(k: string, rest1: string, c: string, rest2: string, m: Member)
    requires k != "" && k[0] == QUOTE && ParseChars(k[1..]) == Some((m.key, rest1))
    requires c == Skip(rest1) && c != "" && c[0] == ':'
    requires ParseValue(c[1..]) == Some((m.value, rest2))
    requires Fits(Bare(m.value), c[1..], rest2) && (Tight(Bare(m.value), c[1..], rest2) ==> Raw(m.value))
    ensures Fits(MemberBare(m), k, rest2)
    ensures Tight(MemberBare(m), k, rest2) ==> RawText(m.key) && Raw(m.value)
  {
    hide *;
    StringFits(k);
    SkipFits(rest1);
    CharFits(':', c);
    var key := Bare(Str(m.key));
    BareString(m.key);
    FitsOn(key, "", k, rest1, c);
    assert key + "" == key;
    FitsOn(key, ":", k, c, c[1..]);
    FitsOn(key + ":", Bare(m.value), k, c[1..], rest2);
    MemberBareIs(m);
  }

  lemma MemberBareIs(m: Member)
    ensures Bare(Str(m.key)) + ":" + Bare(m.value) == MemberBare(m)
  {
    BareString(m.key);
    hide Print;
    assert "\"" + m.key + "\"" + ":" == "\"" + m.key + "\":";
  }

  lemma BareString(text: string)
    ensures Bare(Str(text)) == "\"" + text + "\""
  {
  }

  lemma MembersFit(s: string)
    requires ParseMembers(s).Some?
    ensures var (ms, rest) := ParseMembers(s).value;
            var p := PrintMembers(ms, UNESCAPED);
            ms != [] && Fits(p, s, rest) && (Tight(p, s, rest) ==> Raw(Obj(ms)))
    decreases |s|, 3
  {
    var (ms, rest) := ParseMembers(s).value;
    var k := Skip(s);
    var (key, rest1) := ParseChars(k[1..]).value;
    var c := Skip(rest1);
    ValueFits(c[1..]);
    var (value, rest2) := ParseValue(c[1..]).value;
    var m, t := Member(key, value), Skip(rest2);
    SkipFits(s);
    MemberFits(k, rest1, c, rest2, m);
    hide ParseChars, ParseValue;
    SkipFits(rest2);
    CharFits(t[0], t);
    MemberEnds(s, k, m, rest2, t);
    if t[0] == '}' {
      OneMember(m);
    } else {
      MembersFit(t[1..]);
      var (more, _) := ParseMembers(t[1..]).value;
      assert ms == [m] + more;
      FitsOn(MemberBare(m) + ",", PrintMembers(more, UNESCAPED), s, t[1..], rest);
      MoreMembers(m, more);
    }
    hide ParseMembers, Print, PrintMembers, Skip, MemberBare;
  }

  lemma MemberEnds(s: string, k: string, m: Member, rest2: string, t: string)
    requires Fits("", s, k) && Fits(MemberBare(m), k, rest2) && Fits("", rest2, t) && t != ""
    ensures Fits(MemberBare(m) + [t[0]], s, t[1..])
    ensures Tight(MemberBare(m) + [t[0]], s, t[1..]) ==> Tight(MemberBare(m), k, rest2)
  {
    var p := MemberBare(m);
    hide MemberBare;
    CharFits(t[0], t);
    FitsOn("", p, s, k, rest2);
    assert "" + p == p;
    FitsOn(p, "", s, rest2, t);
    assert p + "" == p;
    FitsOn(p, [t[0]], s, t, t[1..]);
  }

  lemma OneMember(m: Member)
    ensures PrintMembers([m], UNESCAPED) == MemberBare(m) + "}" && (RawText(m.key) && Raw(m.value) ==> Raw(Obj([m])))
  {
    hide Print, ReadableText;
  }

  lemma MoreMembers(m: Member, more: seq<Member>)
    requires more != []
    ensures PrintMembers([m] + more, UNESCAPED) == MemberBare(m) + "," + PrintMembers(more, UNESCAPED)
    ensures RawText(m.key) && Raw(m.value) && Raw(Obj(more)) ==> Raw(Obj([m] + more))
  {
    hide Print, ReadableText;
    var ms := [m] + more;
    assert ms[1..] == more && |ms| > 1 && ms[0] == m;
    MembersUnfold(ms, UNESCAPED);
    hide PrintMembers;
    assert MemberBare(m) + ("," + "" + PrintMembers(more, UNESCAPED))
        == MemberBare(m) + "," + PrintMembers(more, UNESCAPED);
  }

  /** A text is at least as long as the bare form of what it is parsed to; if it is as long, it is that form, and no
      string needs an escape. */
  lemma ParsedFits(s: string)
    requires Parse(s).Some?
    ensures |Bare(Parse(s).value)| <= |s|
    ensures |Bare(Parse(s).value)| == |s| ==> s == Bare(Parse(s).value) && Raw(Parse(s).value)
  {
    ValueFits(s);
    var (j, rest) := ParseValue(s).value;
    hide ParseValue, Print, Raw;
    if |Bare(j)| == |s| {
      assert rest == "" && Bare(j) + "" == Bare(j);
    }
  }

  // ---------------------------------------------------------------- what the members of an object add up to

  /** The length of a member with its quotes, its colon and the comma or brace behind it. */
  function Weight(m: Member): nat {
    |m.key| + |Bare(m.value)| + 4
  }

  function Weights(ms: seq<Member>): nat {
    if ms == [] then 0 else Weight(ms[0]) + Weights(ms[1..])
  }

  lemma {:induction false} WeightsPrinted(ms: seq<Member>)
    requires ms != []
    ensures |PrintMembers(ms, UNESCAPED)| == Weights(ms)
  {
    hide Print;
    MembersUnfold(ms, UNESCAPED);
    if |ms| > 1 {
      WeightsPrinted(ms[1..]);
    }
    hide PrintMembers;
  }

  lemma ObjectWeight(ms: seq<Member>)
    requires ms != []
    ensures |Bare(Obj(ms))| == 1 + Weights(ms)
  {
    WeightsPrinted(ms);
    BareObject(ms);
    hide Print, PrintMembers;
  }

  lemma {:induction false} WeightsAppend(a: seq<Member>, b: seq<Member>)
    ensures Weights(a + b) == Weights(a) + Weights(b)
  {
    hide Weight;
    if a == [] {
      assert a + b == b;
    } else {
      assert (a + b)[1..] == a[1..] + b;
      WeightsAppend(a[1..], b);
    }
  }

  lemma WeightsOne(m: Member)
    ensures Weights([m]) == Weight(m)
  {
    assert [m][1..] == [];
  }

  /** What the entry under a key takes, if there is one. */
  function Cost(ms: seq<Member>, key: string): nat {
    match Lookup(ms, key) case None => 0 case Some(value) => Weight(Member(key, value))
  }

  function Costs(ms: seq<Member>, keys: seq<string>): nat {
    if keys == [] then 0 else Cost(ms, keys[0]) + Costs(ms, keys[1..])
  }

  lemma {:induction false} CostsStep(ms: seq<Member>, keys: seq<string>)
    requires ms != [] && Distinct(keys)
    ensures var m := ms[|ms| - 1];
            Costs(ms, keys) <= Costs(ms[..|ms| - 1], keys) + if m.key in keys then Weight(m) else 0
  {
    hide Weight;
    var m := ms[|ms| - 1];
    if keys != [] {
      CostsStep(ms, keys[1..]);
      assert m.key in keys <==> m.key == keys[0] || m.key in keys[1..];
      if m.key == keys[0] {
        assert m.key !in keys[1..] by {
          assert forall i :: 0 <= i < |keys[1..]| ==> keys[1..][i] == keys[i + 1] != keys[0];
        }
        assert m == Member(keys[0], m.value);
      }
    }
  }

  /** The entries under different keys take no more than all members. */
  lemma {:induction false} CostsFit(ms: seq<Member>, keys: seq<string>)
    requires Distinct(keys)
    ensures Costs(ms, keys) <= Weights(ms)
  {
    hide Weight;
    if ms == [] {
      NoCosts(keys);
    } else {
      var n := |ms| - 1;
      CostsFit(ms[..n], keys);
      CostsStep(ms, keys);
      WeightsAppend(ms[..n], [ms[n]]);
      WeightsOne(ms[n]);
      assert ms[..n] + [ms[n]] == ms;
    }
  }

  lemma {:induction false} NoCosts(keys: seq<string>)
    ensures Costs([], keys) == 0
  {
    if keys != [] {
      NoCosts(keys[1..]);
    }
  }

  // ---------------------------------------------------------------- a key with nothing behind it

  const PARAMETER := ",\"parameter\":"

  /** The key of a member that has no value: no text with such an end is JSON, whatever stands in front. */
  predicate NoValue(b: string) {
    PARAMETER <= b && ParseValue(b[|PARAMETER|..]) == None
  }

  predicate Ends(s: string, b: string) {
    |b| <= |s| && s[|s| - |b|..] == b
  }

  /** Reading has stopped in front of the key, or behind its first quote. */
  predicate Before(rest: string, b: string)
    requires |b| >= 2
  {
    Ends(rest, b) || rest == b[2..]
  }

  lemma Starts(b: string)
    requires NoValue(b)
    ensures |b| >= 13 && b[0] == ',' && b[1] == QUOTE && b[2] == 'p' && ParseValue(b[13..]) == None
    ensures b[1..] == "\"" + ("parameter" + ("\"" + (":" + b[13..])))
  {
    hide ParseValue;
    assert PARAMETER == b[..|PARAMETER|] && |PARAMETER| == 13;
  }

  lemma {:induction false} SkipBefore(s: string, b: string)
    requires Ends(s, b) && b != "" && b[0] == ','
    ensures Ends(Skip(s), b)
  {
    if IsSpace(s[0]) {
      assert |s| > |b|;
      SkipBefore(s[1..], b);
    }
  }

  lemma {:induction false} NoHex(s: string)
    requires ',' in s
    ensures HexValue(s) == None
  {
    var n := |s| - 1;
    if s[n] != ',' {
      assert s == s[..n] + [s[n]];
      NoHex(s[..n]);
    }
  }

  /** No escape reaches into the key. */
  lemma EscapeBefore(s: string, b: string)
    requires Ends(s, b) && b != "" && b[0] == ',' && |s| > |b| && s[0] == '\\' && Unescape(s[1..]).Some?
    ensures Ends(s[1 + Unescape(s[1..]).value.1..], b)
  {
    var u, at := s[1..], |s| - 1 - |b|;
    assert u[at] == ',';
    if u[0] == 'u' && at < 5 && |u| >= 5 {
      assert at > 0 && u[1..5][at - 1] == ',';
      NoHex(u[1..5]);
    }
    hide HexValue;
  }

  lemma {:induction false} CharsBefore(s: string, b: string)
    requires NoValue(b) && Ends(s, b) && ParseChars(s).Some?
    ensures |b| >= 13 && Before(ParseChars(s).value.1, b)
    decreases |s|
  {
    Starts(b);
    hide NoValue, Unescape;
    if |s| == |b| {
      assert s == b && s[1..][0] == QUOTE && s[1..][1..] == b[2..];
    } else if s[0] != QUOTE && s[0] != '\\' {
      CharsBefore(s[1..], b);
    } else if s[0] == '\\' {
      EscapeBefore(s, b);
      CharsBefore(s[1 + Unescape(s[1..]).value.1..], b);
    }
  }

  lemma {:induction false} LiteralBefore(s: string, b: string)
    requires Ends(s, b) && b != "" && b[0] == ','
    ensures LiteralLength(s) <= |s| - |b|
  {
    if |s| > |b| && IsLiteralChar(s[0]) {
      LiteralBefore(s[1..], b);
    }
  }

  lemma LiteralEnds(s: string, b: string)
    requires Ends(s, b) && b != "" && b[0] == ',' && ParseLiteral(s).Some?
    ensures Ends(ParseLiteral(s).value.1, b)
  {
    LiteralBefore(s, b);
    hide IsLiteral, LiteralLength;
  }

  /** Reading a value stops there. */
  lemma ValueBefore(s: string, b: string)
    requires NoValue(b) && Ends(s, b) && ParseValue(s).Some?
    ensures |b| >= 13 && Before(ParseValue(s).value.1, b)
    decreases |s|, 1
  {
    Starts(b);
    SkipBefore(s, b);
    hide NoValue, IsLiteral, LiteralLength, Skip;
    var t := Skip(s);
    if t[0] == QUOTE {
      assert |t| > |b|;
      CharsBefore(t[1..], b);
    } else if t[0] == '[' || t[0] == '{' {
      BracketBefore(t, b);
      SkipAgain(s);
    } else {
      LiteralEnds(t, b);
    }
  }

  lemma SkipAgain(s: string)
    ensures Skip(Skip(s)) == Skip(s) && ParseValue(s) == ParseValue(Skip(s))
  {
    assert Skip(Skip(s)) == Skip(s);
    hide Skip, ParseChars, ParseItems, ParseMembers, ParseLiteral;
  }

  lemma BracketBefore(t: string, b: string)
    requires NoValue(b) && b != "" && b[0] == ',' && Ends(t, b) && ParseValue(t).Some?
    requires t[0] == '[' || t[0] == '{'
    ensures Ends(ParseValue(t).value.1, b)
    decreases |t|, 0
  {
    SkipBefore(t[1..], b);
    BracketParsed(t);
    hide NoValue, ParseValue, ParseItems, ParseMembers, Skip;
    var u := Skip(t[1..]);
    if t[0] == '[' && u[0] != ']' {
      ItemsBefore(u, b);
    } else if t[0] == '{' && u[0] != '}' {
      MembersBefore(u, b);
    }
  }

  lemma BracketParsed(t: string)
    requires t != "" && (t[0] == '[' || t[0] == '{')
    ensures var u := Skip(t[1..]);
            ParseValue(t)
            == if t[0] == '[' then
                 if u != "" && u[0] == ']' then Some((Arr([]), u[1..]))
                 else match ParseItems(u) case None => None case Some((items, rest)) => Some((Arr(items), rest))
               else
                 if u != "" && u[0] == '}' then Some((Obj([]), u[1..]))
                 else match ParseMembers(u) case None => None case Some((ms, rest)) => Some((Obj(ms), rest))
  {
    assert Skip(t) == t;
    hide Skip, ParseItems, ParseMembers;
  }

  lemma PIsNothing(b: string)
    requires NoValue(b)
    ensures |b| >= 13 && Skip(b[2..]) == b[2..] && b[2..][0] == 'p'
  {
    Starts(b);
    hide NoValue;
    assert !IsSpace('p');
  }

  /** What comes next is no part of the key unless it is its comma. */
  lemma NextBefore(rest: string, b: string)
    requires NoValue(b) && |b| >= 13 && Before(rest, b)
    ensures Skip(rest) != "" && Skip(rest)[0] != 'p' ==> Ends(Skip(rest), b)
  {
    Starts(b);
    PIsNothing(b);
    hide NoValue;
    if Ends(rest, b) {
      SkipBefore(rest, b);
    }
  }

  lemma ItemsBefore(s: string, b: string)
    requires NoValue(b) && Ends(s, b) && ParseItems(s).Some?
    ensures Ends(ParseItems(s).value.1, b)
    decreases |s|, 2
  {
    Starts(b);
    NoItems(b);
    ValueBefore(s, b);
    var rest := ParseValue(s).value.1;
    NextBefore(rest, b);
    hide NoValue, ParseValue, Skip;
    var t := Skip(rest);
    if t[0] == ',' && |t| > |b| {
      ItemsBefore(t[1..], b);
    }
  }

  lemma NoItems(b: string)
    requires NoValue(b)
    ensures b != "" && ParseItems(b[1..]) == None
  {
    Starts(b);
    hide NoValue;
    KeyRead(":" + b[13..]);
    var s := b[1..];
    assert s[1..] == "parameter" + ("\"" + (":" + b[13..]));
    assert Skip(":" + b[13..]) == ":" + b[13..];
    hide ParseChars, Skip;
  }

  lemma KeyRead(rest: string)
    ensures ParseChars("parameter" + ("\"" + rest)) == Some(("parameter", rest))
    ensures Skip("\"" + ("parameter" + ("\"" + rest))) == "\"" + ("parameter" + ("\"" + rest))
  {
    LettersRaw("parameter");
    ShownRoundTrip("parameter", UNESCAPED, rest);
    assert "parameter" + "\"" + rest == "parameter" + ("\"" + rest);
    hide ParseChars;
  }

  /** The key of a member, and its colon. */
  lemma ColonBefore(s: string, b: string, k: string, c: string)
    requires NoValue(b) && Ends(s, b) && k == Skip(s) && k != "" && k[0] == QUOTE && ParseChars(k[1..]).Some?
    requires c == Skip(ParseChars(k[1..]).value.1) && c != "" && c[0] == ':'
    ensures Ends(c[1..], b)
  {
    Starts(b);
    SkipBefore(s, b);
    CharsBefore(k[1..], b);
    hide NoValue, Skip;
    NextBefore(ParseChars(k[1..]).value.1, b);
    hide ParseChars;
  }

  lemma MembersBefore(s: string, b: string)
    requires NoValue(b) && Ends(s, b) && ParseMembers(s).Some?
    ensures Ends(ParseMembers(s).value.1, b)
    decreases |s|, 2
  {
    Starts(b);
    NoMembers(b);
    var k := Skip(s);
    hide NoValue, ParseChars, Skip, ParseValue, Before, Ends;
    var c := Skip(ParseChars(k[1..]).value.1);
    ColonBefore(s, b, k, c);
    ValueBefore(c[1..], b);
    var rest := ParseValue(c[1..]).value.1;
    NextBefore(rest, b);
    MembersEnd(s, b, k, c, Skip(rest));
  }

  lemma MembersEnd(s: string, b: string, k: string, c: string, t: string)
    requires NoValue(b) && b != "" && b[0] == ',' && ParseMembers(b[1..]) == None && ParseMembers(s).Some?
    requires k == Skip(s) && c == Skip(ParseChars(k[1..]).value.1) && t == Skip(ParseValue(c[1..]).value.1)
    requires t != "" && t[0] != 'p' ==> Ends(t, b)
    ensures Ends(ParseMembers(s).value.1, b)
    decreases |s|, 0
  {
    hide NoValue, ParseChars, Skip, ParseValue;
    if t[0] == ',' && |t| > |b| {
      MembersBefore(t[1..], b);
    }
  }

  lemma NoMembers(b: string)
    requires NoValue(b)
    ensures b != "" && ParseMembers(b[1..]) == None
  {
    Starts(b);
    hide NoValue;
    KeyRead(":" + b[13..]);
    var s := b[1..];
    assert s[1..] == "parameter" + ("\"" + (":" + b[13..]));
    assert Skip(":" + b[13..]) == ":" + b[13..] && (":" + b[13..])[1..] == b[13..];
    hide ParseChars, Skip, ParseValue;
  }

  /** No text is JSON in which nothing that can be read as a value stands behind such a key. */
  lemma Unparsable(front: string, b: string)
    requires NoValue(b)
    ensures Parse(front + b) == None
  {
    var s := front + b;
    assert Ends(s, b);
    PIsNothing(b);
    if ParseValue(s).Some? {
      Starts(b);
      ValueBefore(s, b);
      var rest := ParseValue(s).value.1;
      hide NoValue, ParseValue;
      if Ends(rest, b) {
        SkipBefore(rest, b);
      }
    }
  }
}
