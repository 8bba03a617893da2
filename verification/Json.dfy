/** JSON texts (sections 2 to 7 of RFC 8259): a parser, a printer, and the round trip. Strings are read and printed as
    bytes; of the escapes only surrogate pairs are not read. */
module Json {
  import opened Text

  /** Lit holds the text of a number, or of true, false or null. */
  datatype Json = Str(text: string) | Lit(token: string) | Arr(items: seq<Json>) | Obj(members: seq<Member>)

  datatype Member = Member(key: string, value: Json)

  // ---------------------------------------------------------------- parser

  predicate IsSpace(c: char) {
    c == ' ' || c == '\t' || c == '\n' || c == '\r'
  }

  function Skip(s: string): (r: string)
    ensures |r| <= |s| && (r != "" ==> !IsSpace(r[0]))
  {
    if s != "" && IsSpace(s[0]) then Skip(s[1..]) else s
  }

  function Cons<T>(x: T, o: Option<(seq<T>, string)>): Option<(seq<T>, string)> {
    match o case None => None case Some((xs, rest)) => Some(([x] + xs, rest))
  }

  function Prepend<T>(xs: seq<T>, o: Option<(seq<T>, string)>): Option<(seq<T>, string)> {
    match o case None => None case Some((ys, rest)) => Some((xs + ys, rest))
  }

  function HexDigit(c: char): Option<nat> {
    if '0' <= c <= '9' then Some(N(c) - 48)
    else if 'a' <= c <= 'f' then Some(N(c) - 87)
    else if 'A' <= c <= 'F' then Some(N(c) - 55)
    else None
  }

  function HexValue(s: string): Option<nat> {
    if s == "" then Some(0)
    else
      var high :- HexValue(s[..|s| - 1]);
      var low :- HexDigit(s[|s| - 1]);
      Some(high * 16 + low)
  }

  /** A code point below 0x10000 in UTF-8 (section 3 of RFC 3629). */
  function CodePoint(n: nat): string {
    if n < 0x80 then [B(n)]
    else if n < 0x800 then [B(0xC0 + n / 64), B(0x80 + n % 64)]
    else [B(0xE0 + n / 4096), B(0x80 + n / 64 % 64), B(0x80 + n % 64)]
  }

  /** What an escape stands for, and its length without the backslash. */
  function Unescape(s: string): (r: Option<(string, nat)>)
    ensures r.Some? ==> 1 <= r.value.1 <= |s|
  {
    if s == "" then None
    else if s[0] == 'u' then
      if |s| < 5 then None
      else
        match HexValue(s[1..5])
        case None => None
        case Some(n) => if 0xD800 <= n < 0xE000 then None else Some((CodePoint(n), 5))
    else if s[0] == QUOTE || s[0] == '\\' || s[0] == '/' then Some(([s[0]], 1))
    else if s[0] == 'b' then Some(([8 as char], 1))
    else if s[0] == 'f' then Some(([12 as char], 1))
    else if s[0] == 'n' then Some(("\n", 1))
    else if s[0] == 'r' then Some(("\r", 1))
    else if s[0] == 't' then Some(("\t", 1))
    else None
  }

  /** The characters up to the closing quote. */
  function ParseChars(s: string): (r: Option<(string, string)>)
    ensures r.Some? ==> |r.value.1| < |s|
  {
    if s == "" || N(s[0]) < 0x20 then None
    else if s[0] == QUOTE then Some(("", s[1..]))
    else if s[0] != '\\' then Cons(s[0], ParseChars(s[1..]))
    else
      match Unescape(s[1..])
      case None => None
      case Some((text, n)) => Prepend(text, ParseChars(s[1 + n..]))
  }

  predicate IsLiteralChar(c: char) {
    IsDigit(c) || 'a' <= c <= 'z' || 'A' <= c <= 'Z' || c == '-' || c == '+' || c == '.'
  }

  function LiteralLength(s: string): (n: nat)
    ensures n <= |s|
  {
    if s == "" || !IsLiteralChar(s[0]) then 0 else 1 + LiteralLength(s[1..])
  }

  function DigitsLength(s: string): (n: nat)
    ensures n <= |s|
  {
    if s == "" || !IsDigit(s[0]) then 0 else 1 + DigitsLength(s[1..])
  }

  predicate IsExponent(s: string) {
    s != "" && (s[0] == 'e' || s[0] == 'E')
    && var u := s[1..];
       var digits := if u != "" && (u[0] == '+' || u[0] == '-') then u[1..] else u;
       digits != "" && AllDigits(digits)
  }

  predicate IsFraction(s: string) {
    s == "" || IsExponent(s)
    || (s[0] == '.' && var n := DigitsLength(s[1..]); n > 0 && (n + 1 == |s| || IsExponent(s[n + 1..])))
  }

  /** Section 6 of RFC 8259. */
  predicate IsNumber(s: string) {
    var u := if s != "" && s[0] == '-' then s[1..] else s;
    var n := DigitsLength(u);
    n > 0 && (u[0] == '0' ==> n == 1) && IsFraction(u[n..])
  }

  predicate IsLiteral(s: string) {
    s != "" && (forall c :: c in s ==> IsLiteralChar(c)) && (s == "true" || s == "false" || s == "null" || IsNumber(s))
  }

  function ParseLiteral(s: string): (r: Option<(Json, string)>)
    ensures r.Some? ==> |r.value.1| < |s|
  {
    var n := LiteralLength(s);
    if IsLiteral(s[..n]) then Some((Lit(s[..n]), s[n..])) else None
  }

  /** A value at the front of `s`, and what follows it. */
  function ParseValue(s: string): (r: Option<(Json, string)>)
    ensures r.Some? ==> |r.value.1| < |s|
    decreases |s|, 0
  {
    var t := Skip(s);
    if t == "" then None
    else if t[0] == QUOTE then
      match ParseChars(t[1..]) case None => None case Some((text, rest)) => Some((Str(text), rest))
    else if t[0] == '[' then
      var u := Skip(t[1..]);
      if u != "" && u[0] == ']' then Some((Arr([]), u[1..]))
      else match ParseItems(u) case None => None case Some((items, rest)) => Some((Arr(items), rest))
    else if t[0] == '{' then
      var u := Skip(t[1..]);
      if u != "" && u[0] == '}' then Some((Obj([]), u[1..]))
      else match ParseMembers(u) case None => None case Some((members, rest)) => Some((Obj(members), rest))
    else ParseLiteral(t)
  }

  function ParseItems(s: string): (r: Option<(seq<Json>, string)>)
    ensures r.Some? ==> |r.value.1| < |s|
    decreases |s|, 1
  {
    match ParseValue(s)
    case None => None
    case Some((item, rest)) =>
      var t := Skip(rest);
      if t == "" then None
      else if t[0] == ']' then Some(([item], t[1..]))
      else if t[0] == ',' then Cons(item, ParseItems(t[1..]))
      else None
  }

  function ParseMembers(s: string): (r: Option<(seq<Member>, string)>)
    ensures r.Some? ==> |r.value.1| < |s|
    decreases |s|, 1
  {
    var k := Skip(s);
    if k == "" || k[0] != QUOTE then None
    else
      match ParseChars(k[1..])
      case None => None
      case Some((key, rest)) =>
        var c := Skip(rest);
        if c == "" || c[0] != ':' then None
        else
          match ParseValue(c[1..])
          case None => None
          case Some((value, rest2)) =>
            var t := Skip(rest2);
            if t == "" then None
            else if t[0] == '}' then Some(([Member(key, value)], t[1..]))
            else if t[0] == ',' then Cons(Member(key, value), ParseMembers(t[1..]))
            else None
  }

  /** A whole text. */
  function Parse(s: string): Option<Json> {
    match ParseValue(s)
    case None => None
    case Some((j, rest)) => if Skip(rest) == "" then Some(j) else None
  }

  /** json.Unmarshal into []string; None for its error. */
  function ParseStrings(text: string): Option<seq<string>> {
    var j :- Parse(text);
    StringsOf(j)
  }

  const NULL := Lit("null")

  /** null leaves a slice nil, and a string in it empty. */
  function StringsOf(j: Json): Option<seq<string>> {
    if j == NULL then Some([])
    else if j.Arr? && forall i :: 0 <= i < |j.items| ==> j.items[i].Str? || j.items[i] == NULL then
      Some(seq(|j.items|, i requires 0 <= i < |j.items| => if j.items[i].Str? then j.items[i].text else ""))
    else None
  }

  // ---------------------------------------------------------------- printer

  /** What the printer escapes: nothing, quotes, or what json.Marshal does. */
  datatype Escaping = AsIs | Quotes | Full

  /** White space put behind every comma, and behind every opening bracket of a nonempty array or object;
      and what is escaped. */
  datatype Style = Style(comma: string, open: string, escape: Escaping)

  /** As json.Marshal prints it, but for the line separators of Unicode. */
  const COMPACT := Style("", "", Full)

  /** As the hand-written printers do it: strings go out as they are. */
  const UNESCAPED := Style("", "", AsIs)

  /** Likewise, with a space behind every comma. */
  const SPACED := Style(" ", "", AsIs)

  predicate AllSpaces(s: string) {
    forall c :: c in s ==> IsSpace(c)
  }

  predicate Blank(sp: Style) {
    AllSpaces(sp.comma) && AllSpaces(sp.open)
  }

  function Hex(n: nat): char
    requires n < 16
  {
    if n < 10 then B(48 + n) else B(87 + n)
  }

  /** Printed with its code point: the other control characters, and what HTML would take for markup. */
  predicate ByNumber(c: char) {
    N(c) < 0x20 || c == '<' || c == '>' || c == '&'
  }

  function EscapeChar(c: char, e: Escaping): string {
    if e.AsIs? then [c]
    else if c == QUOTE then "\\\""
    else if !e.Full? then [c]
    else if c == '\\' then "\\\\"
    else if c == '\n' then "\\n"
    else if c == '\r' then "\\r"
    else if c == '\t' then "\\t"
    else if ByNumber(c) then "\\u00" + [Hex(N(c) / 16), Hex(N(c) % 16)]
    else [c]
  }

  function Escape(s: string, e: Escaping): string {
    if s == "" then "" else EscapeChar(s[0], e) + Escape(s[1..], e)
  }

  function Shown(s: string, sp: Style): string {
    if sp.escape.AsIs? then s else Escape(s, sp.escape)
  }

  function Print(j: Json, sp: Style): (s: string)
    ensures !j.Lit? ==> s != ""
    decreases j, 0
  {
    match j
    case Str(text) => "\"" + Shown(text, sp) + "\""
    case Lit(token) => token
    case Arr(items) => if items == [] then "[]" else "[" + sp.open + PrintItems(items, sp)
    case Obj(members) => if members == [] then "{}" else "{" + sp.open + PrintMembers(members, sp)
  }

  function PrintItems(items: seq<Json>, sp: Style): string
    decreases items, 0
  {
    if items == [] then ""
    else Print(items[0], sp) + (if |items| == 1 then "]" else "," + sp.comma + PrintItems(items[1..], sp))
  }

  function PrintMembers(members: seq<Member>, sp: Style): string
    decreases members, 0
  {
    if members == [] then ""
    else "\"" + Shown(members[0].key, sp) + "\":" + Print(members[0].value, sp)
         + (if |members| == 1 then "}" else "," + sp.comma + PrintMembers(members[1..], sp))
  }

  // ---------------------------------------------------------------- round trip

  /** Printed with these escapes, the character is read back. */
  predicate ReadableChar(c: char, e: Escaping) {
    e.Full? || (c != '\\' && N(c) >= 0x20 && (e.Quotes? || c != QUOTE))
  }

  predicate ReadableText(s: string, e: Escaping) {
    forall c :: c in s ==> ReadableChar(c, e)
  }

  /** No backslash and no control character. */
  predicate CleanText(s: string) {
    ReadableText(s, Quotes)
  }

  /** Nor a quote. */
  predicate RawText(s: string) {
    ReadableText(s, AsIs)
  }

  /** All strings can be printed with these escapes. */
  predicate Readable(j: Json, e: Escaping)
    decreases j, 0
  {
    match j
    case Str(text) => ReadableText(text, e)
    case Lit(token) => IsLiteral(token)
    case Arr(items) => forall i :: 0 <= i < |items| ==> Readable(items[i], e)
    case Obj(members) =>
      forall i :: 0 <= i < |members| ==> ReadableText(members[i].key, e) && Readable(members[i].value, e)
  }

  /** No string in it needs an escape. */
  predicate Raw(j: Json) {
    Readable(j, AsIs)
  }

  /** A literal ends in front of this text. */
  predicate EndsLiteral(j: Json, tail: string) {
    j.Lit? && tail != "" ==> !IsLiteralChar(tail[0])
  }

  lemma {:induction false} SkipSpaces(a: string, s: string)
    requires AllSpaces(a)
    ensures Skip(a + s) == Skip(s)
  {
    if a == "" {
      assert a + s == s;
    } else {
      assert a[0] in a && (a + s)[1..] == a[1..] + s;
      SkipSpaces(a[1..], s);
    }
  }

  lemma HexRead(n: nat)
    requires n < 16
    ensures HexDigit(Hex(n)) == Some(n)
  {
  }

  lemma ControlRead(c: char, rest: string)
    requires N(c) < 0x80
    ensures Unescape("u00" + [Hex(N(c) / 16), Hex(N(c) % 16)] + rest) == Some(([c], 5))
  {
    var high, low := N(c) / 16, N(c) % 16;
    var hex := "00" + [Hex(high), Hex(low)];
    HexRead(high);
    HexRead(low);
    assert HexValue("0") == Some(0) && HexValue("00") == Some(0);
    assert hex[..3] == "00" + [Hex(high)] && hex[..3][..2] == "00";
    assert HexValue(hex[..3]) == Some(high) && HexValue(hex) == Some(high * 16 + low);
    hide HexValue, Hex;
    assert ("u00" + [Hex(high), Hex(low)] + rest)[1..5] == hex;
  }

  lemma CharStep(c: char, e: Escaping, rest: string)
    requires ReadableChar(c, e)
    ensures ParseChars(EscapeChar(c, e) + rest) == Cons(c, ParseChars(rest))
  {
    hide Unescape;
    var s := EscapeChar(c, e) + rest;
    if |EscapeChar(c, e)| == 1 {
      assert s[1..] == rest && s[0] == c;
    } else if |EscapeChar(c, e)| > 2 {
      ControlRead(c, rest);
      assert s[1..] == "u00" + [Hex(N(c) / 16), Hex(N(c) % 16)] + rest;
      assert s[6..] == rest && s[0] == '\\';
      EscapedChar(s, [c], 5);
    } else {
      TwoRead(c, EscapeChar(c, e)[1], rest);
      assert s[1..] == [EscapeChar(c, e)[1]] + rest && s[2..] == rest && s[0] == '\\';
      EscapedChar(s, [c], 1);
    }
  }

  lemma TwoRead(c: char, letter: char, rest: string)
    requires ((c == QUOTE || c == '\\') && letter == c) || (c == '\n' && letter == 'n') || (c == '\r' && letter == 'r')
             || (c == '\t' && letter == 't')
    ensures Unescape([letter] + rest) == Some(([c], 1))
  {
    hide HexValue;
  }

  lemma EscapedChar(s: string, text: string, n: nat)
    requires s != "" && s[0] == '\\' && Unescape(s[1..]) == Some((text, n)) && |text| == 1
    ensures ParseChars(s) == Cons(text[0], ParseChars(s[1 + n..]))
  {
    hide Unescape;
    assert text == [text[0]];
  }

  lemma {:induction false} CharsRoundTrip(text: string, e: Escaping, tail: string)
    requires ReadableText(text, e)
    ensures ParseChars(Escape(text, e) + "\"" + tail) == Some((text, tail))
  {
    hide ReadableChar;
    if text == "" {
      var s := Escape(text, e) + "\"" + tail;
      assert s[0] == QUOTE && s[1..] == tail;
    } else {
      hide ParseChars, EscapeChar;
      var rest := Escape(text[1..], e) + "\"" + tail;
      assert text[0] in text;
      assert forall c :: c in text[1..] ==> c in text;
      CharsRoundTrip(text[1..], e, tail);
      CharStep(text[0], e, rest);
      assert text == [text[0]] + text[1..];
      Assoc(EscapeChar(text[0], e), Escape(text[1..], e), "\"", tail);
    }
  }

  lemma {:induction false} EscapeAsIs(s: string)
    ensures Escape(s, AsIs) == s
  {
    if s != "" {
      EscapeAsIs(s[1..]);
      assert s == [s[0]] + s[1..];
    }
  }

  lemma ShownRoundTrip(text: string, sp: Style, tail: string)
    requires ReadableText(text, sp.escape)
    ensures ParseChars(Shown(text, sp) + "\"" + tail) == Some((text, tail))
  {
    EscapeAsIs(text);
    CharsRoundTrip(text, sp.escape, tail);
  }

  lemma {:induction false} LiteralRoundTrip(token: string, tail: string)
    requires (forall c :: c in token ==> IsLiteralChar(c)) && (tail != "" ==> !IsLiteralChar(tail[0]))
    ensures LiteralLength(token + tail) == |token|
  {
    hide IsLiteralChar;
    if token == "" {
      assert token + tail == tail;
    } else {
      assert (token + tail)[1..] == token[1..] + tail;
      LiteralRoundTrip(token[1..], tail);
    }
  }

  lemma LiteralRead(token: string, tail: string)
    requires IsLiteral(token) && (tail != "" ==> !IsLiteralChar(tail[0]))
    ensures ParseLiteral(token + tail) == Some((Lit(token), tail))
  {
    LiteralRoundTrip(token, tail);
    hide IsLiteral;
    assert (token + tail)[..|token|] == token && (token + tail)[|token|..] == tail;
  }

  lemma LettersRaw(s: string)
    requires forall i :: 0 <= i < |s| ==> 'a' <= s[i] <= 'z' || 'A' <= s[i] <= 'Z'
    ensures RawText(s)
  {
  }

  lemma Assoc(a: string, b: string, c: string, d: string)
    ensures a + b + c + d == a + (b + c + d)
  {
  }

  lemma PrintStarts(j: Json, sp: Style)
    requires Readable(j, sp.escape)
    ensures Print(j, sp) != "" && !IsSpace(Print(j, sp)[0]) && Print(j, sp)[0] != ']'
    ensures j.Lit? ==> Print(j, sp)[0] !in {QUOTE, '[', '{'}
  {
    if j.Lit? {
      assert j.token[0] in j.token;
      hide IsNumber;
    }
  }

  lemma SkipNothing(s: string, tail: string)
    requires s != "" && !IsSpace(s[0])
    ensures Skip(s + tail) == s + tail && s + tail != "" && (s + tail)[0] == s[0]
  {
  }

  lemma MembersStart(members: seq<Member>, sp: Style)
    requires members != []
    ensures PrintMembers(members, sp) != "" && PrintMembers(members, sp)[0] == QUOTE
  {
    hide *;
    MembersUnfold(members, sp);
    QuoteStarts(Shown(members[0].key, sp), Print(members[0].value, sp),
                if |members| == 1 then "}" else "," + sp.comma + PrintMembers(members[1..], sp));
  }

  lemma QuoteStarts(key: string, value: string, rest: string)
    ensures var s := "\"" + key + "\":" + value + rest; s != "" && s[0] == QUOTE
  {
  }

  lemma ItemsStart(items: seq<Json>, sp: Style)
    requires items != [] && Print(items[0], sp) != ""
    ensures PrintItems(items, sp) != "" && PrintItems(items, sp)[0] == Print(items[0], sp)[0]
  {
  }

  /** `body` follows the opening bracket and the space behind it. */
  lemma AfterOpen(open: char, spaces: string, body: string, tail: string)
    requires AllSpaces(spaces) && body != "" && !IsSpace(body[0])
    ensures var s := [open] + spaces + body + tail; Skip(s[1..]) == body + tail
  {
    var s := [open] + spaces + body + tail;
    assert s[1..] == spaces + (body + tail);
    SkipSpaces(spaces, body + tail);
    SkipNothing(body, tail);
  }

  lemma ValueRoundTrip(j: Json, sp: Style, tail: string)
    requires Readable(j, sp.escape) && Blank(sp) && EndsLiteral(j, tail)
    ensures ParseValue(Print(j, sp) + tail) == Some((j, tail))
    decreases j, 0
  {
    hide ParseItems, ParseMembers, ParseChars, PrintItems, PrintMembers, Skip, IsSpace, IsLiteral, ParseLiteral, Shown;
    var s := Print(j, sp) + tail;
    QuoteIsNoSpace();
    PrintStarts(j, sp);
    SkipNothing(Print(j, sp), tail);
    match j
    case Str(text) =>
      assert s[1..] == Shown(text, sp) + "\"" + tail;
      ShownRoundTrip(text, sp, tail);
    case Lit(token) =>
      LiteralRead(token, tail);
    case Arr(items) =>
      if items == [] {
        BracketsClose(']', tail);
        assert s[1..] == "]" + tail;
      } else {
        PrintStarts(items[0], sp);
        ItemsStart(items, sp);
        AfterOpen('[', sp.open, PrintItems(items, sp), tail);
        ItemsRoundTrip(items, sp, tail);
        SkipNothing(PrintItems(items, sp), tail);
      }
    case Obj(members) =>
      if members == [] {
        BracketsClose('}', tail);
        assert s[1..] == "}" + tail;
      } else {
        MembersStart(members, sp);
        AfterOpen('{', sp.open, PrintMembers(members, sp), tail);
        MembersRoundTrip(members, sp, tail);
        SkipNothing(PrintMembers(members, sp), tail);
      }
  }

  lemma QuoteIsNoSpace()
    ensures !IsSpace(QUOTE) && !IsSpace(',') && !IsSpace(':') && !IsSpace(']') && !IsSpace('}')
    ensures !IsLiteralChar(',') && !IsLiteralChar(']') && !IsLiteralChar('}')
  {
  }

  lemma BracketsClose(c: char, tail: string)
    requires !IsSpace(c)
    ensures Skip([c] + tail) == [c] + tail && ([c] + tail)[1..] == tail
  {
  }

  /** What ParseItems does behind an item. */
  lemma ItemStep(item: Json, text: string, after: string)
    requires ParseValue(text + after) == Some((item, after)) && after != "" && !IsSpace(after[0])
    ensures after[0] == ']' ==> ParseItems(text + after) == Some(([item], after[1..]))
    ensures after[0] == ',' ==> ParseItems(text + after) == Cons(item, ParseItems(after[1..]))
  {
    hide ParseValue;
    assert Skip(after) == after;
  }

  lemma ItemsRoundTrip(items: seq<Json>, sp: Style, tail: string)
    requires Blank(sp) && items != [] && forall i :: 0 <= i < |items| ==> Readable(items[i], sp.escape)
    ensures ParseItems(PrintItems(items, sp) + tail) == Some((items, tail))
    decreases items, 0
  {
    hide ParseItems, ParseValue, Print, Readable, IsSpace, IsLiteralChar;
    QuoteIsNoSpace();
    var s, item := PrintItems(items, sp) + tail, items[0];
    if |items| == 1 {
      assert s == Print(item, sp) + ("]" + tail);
      ValueRoundTrip(item, sp, "]" + tail);
      ItemStep(item, Print(item, sp), "]" + tail);
      assert items == [item] && ("]" + tail)[1..] == tail;
    } else {
      var rest := PrintItems(items[1..], sp) + tail;
      var after := "," + (sp.comma + rest);
      assert s == Print(item, sp) + after;
      ValueRoundTrip(item, sp, after);
      ItemStep(item, Print(item, sp), after);
      assert after[1..] == sp.comma + rest;
      SkipInItems(sp.comma, rest);
      ItemsRoundTrip(items[1..], sp, tail);
      assert items == [item] + items[1..];
    }
  }

  lemma SkipInItems(a: string, s: string)
    requires AllSpaces(a)
    ensures ParseItems(a + s) == ParseItems(s)
  {
    SkipSpaces(a, s);
    assert ParseValue(a + s) == ParseValue(s);
    hide ParseValue, Skip;
  }

  /** What ParseMembers does behind a member. */
  lemma MemberStep(key: string, sp: Style, value: Json, text: string, after: string)
    requires ReadableText(key, sp.escape)
    requires ParseValue(text + after) == Some((value, after)) && after != "" && !IsSpace(after[0])
    ensures var s := "\"" + (Shown(key, sp) + "\"" + (":" + (text + after)));
            && (after[0] == '}' ==> ParseMembers(s) == Some(([Member(key, value)], after[1..])))
            && (after[0] == ',' ==> ParseMembers(s) == Cons(Member(key, value), ParseMembers(after[1..])))
  {
    var colon := ":" + (text + after);
    var s := "\"" + (Shown(key, sp) + "\"" + colon);
    ShownRoundTrip(key, sp, colon);
    hide Shown, ParseValue, ParseChars;
    assert Skip(s) == s && Skip(colon) == colon && Skip(after) == after;
    assert s[1..] == Shown(key, sp) + "\"" + colon && colon[1..] == text + after;
    hide Skip;
  }

  lemma Regroup(key: string, text: string, x: string, tail: string)
    ensures "\"" + key + "\":" + text + x + tail == "\"" + (key + "\"" + (":" + (text + (x + tail))))
  {
  }

  /** The text of members, as MemberStep wants it. */
  lemma MembersText(members: seq<Member>, sp: Style, tail: string)
    requires members != []
    ensures PrintMembers(members, sp) + tail
         == "\"" + (Shown(members[0].key, sp) + "\""
                    + (":" + (Print(members[0].value, sp) + Behind(members, sp, tail))))
  {
    hide Shown, Print;
    var key, text := Shown(members[0].key, sp), Print(members[0].value, sp);
    var x := if |members| == 1 then "}" else "," + sp.comma + PrintMembers(members[1..], sp);
    MembersUnfold(members, sp);
    hide PrintMembers;
    Regroup(key, text, x, tail);
    BehindIs(members, sp, x, tail);
  }

  lemma MembersUnfold(members: seq<Member>, sp: Style)
    requires members != []
    ensures PrintMembers(members, sp)
         == "\"" + Shown(members[0].key, sp) + "\":" + Print(members[0].value, sp)
            + (if |members| == 1 then "}" else "," + sp.comma + PrintMembers(members[1..], sp))
  {
    hide Shown, Print;
  }

  lemma BehindIs(members: seq<Member>, sp: Style, x: string, tail: string)
    requires members != []
    requires x == if |members| == 1 then "}" else "," + sp.comma + PrintMembers(members[1..], sp)
    ensures x + tail == Behind(members, sp, tail)
  {
    hide PrintMembers;
  }

  /** What stands behind the first of some members. */
  function Behind(members: seq<Member>, sp: Style, tail: string): string
    requires members != []
  {
    if |members| == 1 then "}" + tail else "," + (sp.comma + (PrintMembers(members[1..], sp) + tail))
  }

  lemma MembersRoundTrip(members: seq<Member>, sp: Style, tail: string)
    requires Blank(sp) && members != []
    requires forall i :: 0 <= i < |members| ==>
               ReadableText(members[i].key, sp.escape) && Readable(members[i].value, sp.escape)
    ensures ParseMembers(PrintMembers(members, sp) + tail) == Some((members, tail))
    decreases members, 0
  {
    hide ParseMembers, ParseValue, Print, Readable, ReadableText, IsSpace, Shown, PrintMembers, IsLiteralChar;
    QuoteIsNoSpace();
    MembersText(members, sp, tail);
    var key, value, after := members[0].key, members[0].value, Behind(members, sp, tail);
    ValueRoundTrip(value, sp, after);
    MemberStep(key, sp, value, Print(value, sp), after);
    if |members| == 1 {
      assert members == [Member(key, value)] && after[1..] == tail;
    } else {
      var rest := PrintMembers(members[1..], sp) + tail;
      assert after[1..] == sp.comma + rest;
      SkipInMembers(sp.comma, rest);
      MembersRoundTrip(members[1..], sp, tail);
      assert members == [Member(key, value)] + members[1..];
    }
  }

  lemma SkipInMembers(a: string, s: string)
    requires AllSpaces(a)
    ensures ParseMembers(a + s) == ParseMembers(s)
  {
    SkipSpaces(a, s);
  }

  /** An object with members. */
  lemma BraceParsed(members: string)
    requires members != "" && members[0] == QUOTE
    ensures ParseValue("{" + members)
         == match ParseMembers(members) case None => None case Some((ms, rest)) => Some((Obj(ms), rest))
  {
    QuoteIsNoSpace();
    var s := "{" + members;
    assert s[1..] == members && Skip(s) == s && Skip(members) == members;
    hide ParseMembers, Skip;
  }

  /** Reading a printed value gives the value back, whatever white space the printer leaves. */
  lemma ParseOfPrint(j: Json, sp: Style, end: string)
    requires Readable(j, sp.escape) && Blank(sp) && AllSpaces(end)
    ensures Parse(Print(j, sp) + end) == Some(j)
  {
    if end != "" {
      assert end[0] in end && IsSpace(end[0]);
    }
    ValueRoundTrip(j, sp, end);
    SkipSpaces(end, "");
    assert end + "" == end;
  }

  // ---------------------------------------------------------------- an object as a Go map

  /** A Go map built from the members: the last one with a key counts. */
  function Lookup(members: seq<Member>, key: string): Option<Json> {
    if members == [] then None
    else
      var last := members[|members| - 1];
      if last.key == key then Some(last.value) else Lookup(members[..|members| - 1], key)
  }

  lemma {:induction false} LookupAppend(a: seq<Member>, b: seq<Member>, key: string)
    ensures Lookup(a + b, key) == if Lookup(b, key).Some? then Lookup(b, key) else Lookup(a, key)
  {
    if b == [] {
      assert a + b == a;
    } else {
      assert (a + b)[..|a + b| - 1] == a + b[..|b| - 1];
      LookupAppend(a, b[..|b| - 1], key);
    }
  }

  lemma LookupOne(m: Member, key: string)
    ensures Lookup([m], key) == if m.key == key then Some(m.value) else None
  {
    assert [m][..0] == [];
  }

  lemma LookupTwo(m: Member, n: Member, key: string)
    ensures Lookup([m, n], key) == if n.key == key then Some(n.value) else if m.key == key then Some(m.value) else None
  {
    assert [m, n][..1] == [m];
    LookupOne(m, key);
  }

  lemma LookupThree(m: Member, n: Member, o: Member, key: string)
    ensures Lookup([m, n, o], key)
         == if o.key == key then Some(o.value) else if n.key == key then Some(n.value)
            else if m.key == key then Some(m.value) else None
  {
    assert [m, n, o][..2] == [m, n];
    LookupTwo(m, n, key);
  }

  lemma LookupNothing(key: string)
    ensures Lookup([], key) == None
  {
  }

  // ---------------------------------------------------------------- append a comma, then trim

  /** A text without its last character. */
  function Cut(s: string): string
    requires s != ""
  {
    s[..|s| - 1]
  }

  lemma CutRest(first: string, rest: string, tail: string)
    requires rest != ""
    ensures Cut(first + "," + rest) + tail == first + ("," + (Cut(rest) + tail))
  {
    assert Cut(first + "," + rest) == first + "," + Cut(rest);
  }

  lemma CutComma(first: string)
    ensures Cut(first + "," + "") == first
  {
  }

  /** Every item with a comma behind it: what the printing loops build up. */
  function CommaEach(items: seq<Json>, sp: Style): string {
    if items == [] then "" else CommaEach(items[..|items| - 1], sp) + Print(items[|items| - 1], sp) + ","
  }

  /** Cutting off the last comma gives the comma-joined list. */
  lemma {:induction false} TrimmedIsJoined(items: seq<Json>, sp: Style)
    requires items != [] && sp.comma == ""
    ensures CommaEach(items, sp) != "" && Cut(CommaEach(items, sp)) + "]" == PrintItems(items, sp)
  {
    hide Print, Cut, CommaEach;
    CommaEachHead(items, sp);
    var first, rest := Print(items[0], sp), CommaEach(items[1..], sp);
    if |items| == 1 {
      CommaEachNothing(items[1..], sp);
      CutComma(first);
    } else {
      TrimmedIsJoined(items[1..], sp);
      CutRest(first, rest, "]");
      assert "," + "" == ",";
    }
  }

  lemma CommaEachNothing(items: seq<Json>, sp: Style)
    requires items == []
    ensures CommaEach(items, sp) == ""
  {
  }

  lemma {:induction false} CommaEachHead(items: seq<Json>, sp: Style)
    requires items != []
    ensures CommaEach(items, sp) == Print(items[0], sp) + "," + CommaEach(items[1..], sp)
  {
    hide Print;
    var n := |items| - 1;
    if n > 0 {
      CommaEachHead(items[..n], sp);
      assert items[..n][1..] == items[1..][..n - 1];
    } else {
      assert items[..0] == [] && items[1..] == [];
      assert "" + Print(items[0], sp) + "," == Print(items[0], sp) + "," + "";
    }
  }

  /** A member as the hand-written printers put it. */
  function MemberText(m: Member): string {
    "\"" + m.key + "\":" + Print(m.value, UNESCAPED)
  }

  function CommaEachMember(ms: seq<Member>): string {
    if ms == [] then "" else MemberText(ms[0]) + "," + CommaEachMember(ms[1..])
  }

  /** The same for members. */
  lemma {:induction false} TrimmedMembers(ms: seq<Member>)
    requires ms != []
    ensures CommaEachMember(ms) != "" && Cut(CommaEachMember(ms)) + "}" == PrintMembers(ms, UNESCAPED)
  {
    hide MemberText, Cut, PrintMembers;
    var first, rest := MemberText(ms[0]), CommaEachMember(ms[1..]);
    MembersHead(ms);
    if |ms| == 1 {
      CutComma(first);
    } else {
      TrimmedMembers(ms[1..]);
      CutRest(first, rest, "}");
      assert "," + "" == ",";
    }
  }

  lemma MembersHead(ms: seq<Member>)
    requires ms != []
    ensures PrintMembers(ms, UNESCAPED)
         == MemberText(ms[0]) + (if |ms| == 1 then "}" else "," + "" + PrintMembers(ms[1..], UNESCAPED))
  {
    hide Print;
  }

  lemma {:induction false} CommaEachAppend(ms: seq<Member>, m: Member)
    ensures CommaEachMember(ms + [m]) == CommaEachMember(ms) + (MemberText(m) + ",")
  {
    hide MemberText;
    if ms == [] {
      assert [] + [m] == [m] && [m][1..] == [];
    } else {
      assert (ms + [m])[0] == ms[0] && (ms + [m])[1..] == ms[1..] + [m];
      CommaEachAppend(ms[1..], m);
    }
  }
}
