/** Which scaling texts the feeder reads back as the tool has them, exactly. */
module ScalingRoundTrip {
  import opened Text
  import opened Json
  import opened Files
  import opened ConversionTool
  import opened ScalingFile

  /** A text as the tool puts it into the file, its closing quote, and what follows. */
  function Rest(s: string, tail: string): string {
    InsertEscape(s) + ("\"" + tail)
  }

  predicate Reads(s: string, text: string) {
    ParseChars(s).Some? && ParseChars(s).value.0 == text
  }

  /** What stands behind the closing quote of an item. */
  predicate Follows(tail: string) {
    |tail| >= 2 && ((tail[0] == ',' && tail[1] == QUOTE) || (tail[0] == ']' && tail[1] == '\n'))
  }

  lemma RestHead(s: string, tail: string)
    requires s != ""
    ensures Rest(s, tail) == Escaped(s[0]) + Rest(s[1..], tail)
  {
    hide Escaped;
  }

  lemma RestPlain(s: string, tail: string)
    requires s != "" && s[0] != QUOTE && N(s[0]) < 0x80
    ensures Rest(s, tail) == [s[0]] + Rest(s[1..], tail) && Rest(s, tail)[1..] == Rest(s[1..], tail)
  {
    RestHead(s, tail);
    hide Rest;
  }

  lemma RestQuote(s: string, tail: string)
    requires s != "" && s[0] == QUOTE
    ensures Rest(s, tail) == "\\" + ("\"" + Rest(s[1..], tail))
    ensures Rest(s, tail)[1..] == "\"" + Rest(s[1..], tail) && Rest(s, tail)[2..] == Rest(s[1..], tail)
  {
    RestHead(s, tail);
    hide Rest;
  }

  lemma RestWide(s: string, tail: string)
    requires s != "" && 0x80 <= N(s[0])
    ensures Rest(s, tail) != "" && N(Rest(s, tail)[0]) >= 0xC0
  {
    RestHead(s, tail);
    hide Rest;
  }

  /** Reading on behind the first characters of a text. */
  lemma ReadsOn(s: string, text: string, first: string, more: string)
    requires ParseChars(s) == Prepend(first, ParseChars(more)) && Reads(s, text)
    ensures |first| <= |text| && text[..|first|] == first && Reads(more, text[|first|..])
  {
    hide ParseChars;
  }

  lemma PlainReads(s: string)
    requires s != "" && s[0] != QUOTE && s[0] != '\\' && N(s[0]) >= 0x20
    ensures ParseChars(s) == Prepend([s[0]], ParseChars(s[1..]))
  {
    hide Unescape;
  }

  lemma EscapeReads(s: string)
    requires s != "" && s[0] == '\\'
    ensures ParseChars(s) == match Unescape(s[1..])
                             case None => None
                             case Some((e, n)) => Prepend(e, ParseChars(s[1 + n..]))
  {
    hide Unescape;
  }

  /** The one character that stands before the rest moves behind the others. */
  lemma Window(x: string, y: string, n: nat)
    requires 1 <= n <= |y| && Ascii(x) && Ascii(y[..n])
    ensures (x + y)[1..] == (x + y[..n])[1..] + y[n..] && Ascii((x + y[..n])[1..])
  {
    assert x + y == (x + y[..n]) + y[n..];
  }

  /** Reading never gives a text that runs behind itself: some ASCII characters, and then what is still to be read. */
  lemma {:induction false} Shifted(y: string, x: string, tail: string)
    requires x != "" && Ascii(x) && Follows(tail)
    ensures !Reads(Rest(y, tail), x + y)
    decreases |y|, 0
  {
    hide ParseChars, Rest, Ascii, Reads, InsertEscape, Follows;
    if y == "" {
      ClosesAtOnce(tail);
      OnlyReads(Rest("", tail), "", x + y);
    } else if y[0] == '\\' {
      SlashShifted(y, x, tail);
    } else {
      OrdinaryShifted(y, x, tail);
    }
  }

  lemma RestNothing(tail: string)
    ensures Rest("", tail)[0] == QUOTE
  {
  }

  lemma ClosesAtOnce(tail: string)
    ensures ParseChars(Rest("", tail)) == Some(("", tail))
  {
    assert Rest("", tail) == "\"" + tail && ("\"" + tail)[1..] == tail;
  }

  lemma OnlyReads(s: string, text: string, other: string)
    requires ParseChars(s).Some? ==> ParseChars(s).value.0 == text
    ensures Reads(s, other) ==> other == text
  {
  }

  lemma OrdinaryShifted(y: string, x: string, tail: string)
    requires x != "" && Ascii(x) && Follows(tail) && y != "" && y[0] != '\\'
    ensures !Reads(Rest(y, tail), x + y)
    decreases |y|, 0, 0
  {
    var s, c := Rest(y, tail), y[0];
    AsciiStart(x, y);
    hide Unescape, Rest, InsertEscape, Follows, Ascii;
    if Reads(s, x + y) {
      if N(c) >= 0x80 {
        RestWide(y, tail);
        PlainReads(s);
        ReadsOn(s, x + y, [s[0]], s[1..]);
      } else {
        if c == QUOTE {
          RestQuote(y, tail);
          QuoteEscape(Rest(y[1..], tail));
          EscapeReads(s);
        } else {
          RestPlain(y, tail);
          if N(c) >= 0x20 {
            PlainReads(s);
          }
        }
        hide ParseChars, Reads;
        if N(c) >= 0x20 {
          ReadsOn(s, x + y, [c], Rest(y[1..], tail));
          AsciiOne(y);
          Window(x, y, 1);
          Shifted(y[1..], (x + y[..1])[1..], tail);
        }
      }
    }
  }

  lemma AsciiStart(x: string, y: string)
    requires x != "" && Ascii(x)
    ensures N((x + y)[0]) < 0x80
  {
    assert x[0] in x;
  }

  lemma AsciiOne(y: string)
    requires y != "" && N(y[0]) < 0x80
    ensures Ascii(y[..1]) && y[..1] == [y[0]]
  {
  }

  lemma QuoteEscape(rest: string)
    ensures Unescape("\"" + rest) == Some(("\"", 1))
  {
  }

  /** The same behind a backslash, where the characters that were read before may be none. */
  lemma {:induction false} SlashShifted(y: string, x: string, tail: string)
    requires y != "" && y[0] == '\\' && Ascii(x) && Follows(tail)
    ensures !Reads(Rest(y, tail), x + y)
    decreases |y|, 0, 0
  {
    var s := Rest(y, tail);
    hide Rest, InsertEscape, ParseChars, Unescape, Ascii;
    RestPlain(y, tail);
    EscapeReads(s);
    if Reads(s, x + y) {
      if |y| == 1 {
        SlashCloses(y, x, tail);
      } else if y[1] == QUOTE {
        SlashQuote(y, x, tail);
      } else {
        var (e, n) := Unescape(s[1..]).value;
        EscapeTaken(y, tail, e, n);
        ReadsOn(s, x + y, e, s[1 + n..]);
        AsciiHead(x, y);
        assert (x + y)[..|e|][0] == (x + y)[0] == e[0];
        Window(x, y, n + 1);
        hide Reads;
        Shifted(y[n + 1..], (x + y[..n + 1])[1..], tail);
      }
    }
  }

  lemma AsciiHead(x: string, y: string)
    requires Ascii(x) && y != "" && y[0] == '\\'
    ensures N((x + y)[0]) < 0x80
  {
    assert x != "" ==> x[0] in x;
  }

  /** A backslash at the end takes the closing quote: what is read ends in a comma. */
  lemma SlashCloses(y: string, x: string, tail: string)
    requires y == "\\" && Follows(tail)
    ensures !Reads(Rest(y, tail), x + y)
  {
    var s := Rest(y, tail);
    RestPlain(y, tail);
    assert y[1..] == "" && s[1..] == "\"" + tail && s[2..] == tail;
    QuoteEscape(tail);
    EscapeReads(s);
    if tail[0] == ',' {
      PlainReads(tail);
      assert ParseChars(tail[1..]) == Some(("", tail[2..]));
      assert ParseChars(s).value.0 == "\"" + ("," + "");
      assert (x + y)[|x + y| - 1] == '\\';
    } else {
      PlainReads(tail);
      assert ParseChars(tail[1..]) == None;
    }
  }

  /** In front of a quote it takes the backslash that the tool has put there: reading ends at the quote. */
  lemma SlashQuote(y: string, x: string, tail: string)
    requires |y| >= 2 && y[0] == '\\' && y[1] == QUOTE
    ensures !Reads(Rest(y, tail), x + y)
  {
    var s := Rest(y, tail);
    hide Rest, InsertEscape;
    RestPlain(y, tail);
    RestQuote(y[1..], tail);
    assert s[1..] == "\\" + ("\"" + Rest(y[2..], tail)) && s[2..] == "\"" + Rest(y[2..], tail);
    SlashEscape("\"" + Rest(y[2..], tail));
    EscapeReads(s);
    assert ParseChars(s[2..]) == Some(("", s[2..][1..]));
    assert ParseChars(s).value.0 == "\\" + "";
  }

  lemma SlashEscape(rest: string)
    ensures Unescape("\\" + rest) == Some(("\\", 1))
  {
  }

  /** Any other escape that is read is one of the text's own, in ASCII, and what stands behind it is the rest of the
      text. It stands for a single ASCII character, or starts with a byte of 0xC0 or above. */
  lemma EscapeTaken(y: string, tail: string, e: string, n: nat)
    requires |y| >= 2 && y[0] == '\\' && y[1] != QUOTE
    requires Unescape(Rest(y[1..], tail)) == Some((e, n))
    ensures n + 1 <= |y| && Ascii(y[..n + 1]) && Rest(y[1..], tail)[n..] == Rest(y[n + 1..], tail)
    ensures e != "" && (|e| == 1 || N(e[0]) >= 0xC0)
  {
    var u := Rest(y[1..], tail);
    hide Rest, InsertEscape;
    if N(y[1]) >= 0x80 {
      RestWide(y[1..], tail);
    } else {
      RestPlain(y[1..], tail);
      assert y[1..][1..] == y[2..];
      if y[1] == 'u' {
        HexTaken(y[2..], tail, u, e, n);
        assert y[..6] == "\\u" + y[2..6] && y[2..][4..] == y[6..];
      } else {
        assert y[..2] == [y[0], y[1]];
      }
    }
  }

  lemma HexTaken(y: string, tail: string, u: string, e: string, n: nat)
    requires u == "u" + Rest(y, tail) && Unescape(u) == Some((e, n))
    ensures n == 5 && |y| >= 4 && Ascii(y[..4]) && u[5..] == Rest(y[4..], tail)
    ensures e != "" && (|e| == 1 || N(e[0]) >= 0xC0)
  {
    HexEscape(u, e, n);
    hide *;
    AllHex(u[1..5]);
    assert Rest(y, tail)[..4] == u[1..5] && u[5..] == Rest(y, tail)[4..];
    HexHead(y, tail, 4);
  }

  lemma HexEscape(u: string, e: string, n: nat)
    requires u != "" && u[0] == 'u' && Unescape(u) == Some((e, n))
    ensures n == 5 && |u| >= 5 && HexValue(u[1..5]).Some? && e != "" && (|e| == 1 || N(e[0]) >= 0xC0)
  {
    hide HexValue;
    var code := HexValue(u[1..5]).value;
    HexBound(u[1..5]);
    assert code < 0x800 ==> code / 64 < 32;
    assert code / 4096 < 16;
  }

  lemma HexBound(s: string)
    requires |s| == 4 && HexValue(s).Some?
    ensures HexValue(s).value < 0x1_0000
  {
    hide HexValue;
    HexStep(s);
    HexStep(s[..3]);
    HexStep(s[..3][..2]);
    HexStep(s[..3][..2][..1]);
    HexNothing(s[..3][..2][..1][..0]);
  }

  lemma HexStep(s: string)
    requires s != "" && HexValue(s).Some?
    ensures HexValue(s[..|s| - 1]).Some? && HexValue(s).value < 16 * HexValue(s[..|s| - 1]).value + 16
  {
    hide HexValue;
    assert HexValue(s) == match HexValue(s[..|s| - 1])
                          case None => None
                          case Some(high) =>
                            match HexDigit(s[|s| - 1]) case None => None case Some(low) => Some(high * 16 + low) by {
      HexUnfold(s);
    }
  }

  lemma HexUnfold(s: string)
    requires s != ""
    ensures HexValue(s) == match HexValue(s[..|s| - 1])
                           case None => None
                           case Some(high) =>
                             match HexDigit(s[|s| - 1]) case None => None case Some(low) => Some(high * 16 + low)
  {
  }

  lemma HexNothing(s: string)
    requires s == ""
    ensures HexValue(s) == Some(0)
  {
  }

  lemma {:induction false} AllHex(s: string)
    requires HexValue(s).Some?
    ensures forall c :: c in s ==> HexDigit(c).Some?
  {
    if s != "" {
      AllHex(s[..|s| - 1]);
    }
  }

  /** Leading hexadecimal digits are the text's own. */
  lemma {:induction false} HexHead(y: string, tail: string, m: nat)
    requires m <= |Rest(y, tail)| && forall c :: c in Rest(y, tail)[..m] ==> HexDigit(c).Some?
    ensures m <= |y| && Ascii(y[..m]) && Rest(y, tail)[m..] == Rest(y[m..], tail)
  {
    if m > 0 {
      var s := Rest(y, tail);
      assert s[0] in s[..m];
      if y == "" {
        RestNothing(tail);
      } else {
        hide Rest, InsertEscape;
        if y[0] == QUOTE {
          RestQuote(y, tail);
        } else if N(y[0]) >= 0x80 {
          RestWide(y, tail);
        } else {
          RestPlain(y, tail);
          assert s[1..][..m - 1] == s[1..m];
          HexHead(y[1..], tail, m - 1);
          assert y[1..][..m - 1] == y[1..m] && y[..m] == [y[0]] + y[1..m] && y[1..][m - 1..] == y[m..];
          assert s[1..][m - 1..] == s[m..];
        }
      }
    }
  }

  // ---------------------------------------------------------------- one text

  /** How far a text goes without backslash and control character. */
  function CleanLength(s: string): (k: nat)
    ensures k <= |s| && CleanText(s[..k])
    ensures k < |s| ==> s[k] == '\\' || N(s[k]) < 0x20
  {
    if s == "" || s[0] == '\\' || N(s[0]) < 0x20 then 0
    else
      var k := CleanLength(s[1..]);
      assert s[..k + 1] == [s[0]] + s[1..][..k];
      k + 1
  }

  lemma {:induction false} CleanReads(s: string, k: nat, tail: string)
    requires k <= |s| && CleanText(s[..k])
    ensures ParseChars(Rest(s, tail)) == Prepend(Widen(s[..k]), ParseChars(Rest(s[k..], tail)))
  {
    if k == 0 {
      assert s[..0] == "" && s[0..] == s;
      NothingPrepended(ParseChars(Rest(s, tail)));
    } else {
      assert s[0] in s[..k] && s[..k][1..] == s[1..][..k - 1] && s[1..][k - 1..] == s[k..];
      assert forall c :: c in s[1..][..k - 1] ==> c in s[..k];
      CleanReads(s[1..], k - 1, tail);
      CharReads(s, tail);
      hide ParseChars, Rest, Utf8;
      PrependTwice(Utf8(s[0]), Widen(s[1..][..k - 1]), ParseChars(Rest(s[k..], tail)));
    }
  }

  lemma NothingPrepended(o: Option<(string, string)>)
    ensures Prepend("", o) == o
  {
    assert o.Some? ==> "" + o.value.0 == o.value.0;
  }

  lemma PrependTwice(a: string, b: string, o: Option<(string, string)>)
    ensures Prepend(a, Prepend(b, o)) == Prepend(a + b, o)
  {
    if o.Some? {
      assert a + (b + o.value.0) == (a + b) + o.value.0;
    }
  }

  lemma CharReads(s: string, tail: string)
    requires s != "" && s[0] != '\\' && N(s[0]) >= 0x20
    ensures ParseChars(Rest(s, tail)) == Prepend(Utf8(s[0]), ParseChars(Rest(s[1..], tail)))
  {
    var r, more := Rest(s, tail), Rest(s[1..], tail);
    hide Rest, InsertEscape;
    if s[0] == QUOTE {
      RestQuote(s, tail);
      QuoteEscape(more);
      EscapeReads(r);
    } else if N(s[0]) < 0x80 {
      RestPlain(s, tail);
      PlainReads(r);
    } else {
      RestHead(s, tail);
      TwoBytesRead(Utf8(s[0]), more);
    }
  }

  lemma TwoBytesRead(u: string, more: string)
    requires |u| == 2 && N(u[0]) >= 0x80 && N(u[1]) >= 0x80
    ensures ParseChars(u + more) == Prepend(u, ParseChars(more))
  {
    var r := u + more;
    assert r[1..] == [u[1]] + more && r[1..][1..] == more && r[0] == u[0];
    hide ParseChars;
    PlainReads(r);
    PlainReads(r[1..]);
    PrependTwice([u[0]], [u[1]], ParseChars(more));
    assert [u[0]] + [u[1]] == u;
  }

  /** A text is read back only if it is in ASCII, without backslashes and control characters. */
  lemma CharsExact(s: string, tail: string)
    requires Follows(tail) && Reads(Rest(s, tail), s)
    ensures CleanText(s) && Ascii(s) && ParseChars(Rest(s, tail)).value.1 == tail
  {
    var k := CleanLength(s);
    var p := Widen(s[..k]);
    CleanReads(s, k, tail);
    WidenKeepsIff(s[..k]);
    WidenClean(s[..k]);
    hide Rest, Widen, CleanText;
    ReadsOn(Rest(s, tail), s, p, Rest(s[k..], tail));
    if k == |s| {
      assert s[..k] == s && s[k..] == "";
      ClosesAtOnce(tail);
    } else if |p| > k {
      CleanAt(p, k);
    } else {
      assert s[|p|..] == s[k..];
      BadHead(s[k..], tail);
    }
  }

  lemma CleanAt(s: string, k: nat)
    requires CleanText(s) && k < |s|
    ensures s[k] != '\\' && N(s[k]) >= 0x20
  {
    assert s[k] in s;
  }

  lemma BadHead(y: string, tail: string)
    requires y != "" && (y[0] == '\\' || N(y[0]) < 0x20) && Follows(tail)
    ensures !Reads(Rest(y, tail), y)
  {
    if y[0] == '\\' {
      SlashShifted(y, "", tail);
      assert "" + y == y;
    } else {
      RestPlain(y, tail);
    }
  }

  // ---------------------------------------------------------------- the list

  predicate Plain(s: string) {
    CleanText(s) && Ascii(s)
  }

  /** What stands behind the closing quote of the first item. */
  function Behind(list: seq<string>, end: string): string
    requires list != []
  {
    if |list| == 1 then end else "," + (ItemsText(list[1..]) + end)
  }

  lemma ItemsHead(list: seq<string>, end: string)
    requires list != []
    ensures ItemsText(list) + end == "\"" + Rest(list[0], Behind(list, end))
  {
    hide InsertEscape;
    if |list| == 1 {
      assert ItemsText(list[1..]) == "";
    }
  }

  lemma BehindFollows(list: seq<string>, end: string)
    requires list != [] && |end| >= 2 && end[0] == ']' && end[1] == '\n'
    ensures Follows(Behind(list, end))
  {
    if |list| > 1 {
      ItemsHead(list[1..], end);
    }
  }

  lemma FirstItem(s: string)
    requires ParseItems("\"" + s).Some?
    ensures ParseChars(s).Some?
    ensures var (text, rest) := ParseChars(s).value;
            var t := Skip(rest);
            && t != "" && (t[0] == ']' || t[0] == ',')
            && ParseItems("\"" + s)
               == if t[0] == ']' then Some(([Str(text)], t[1..])) else Cons(Str(text), ParseItems(t[1..]))
  {
    var all := "\"" + s;
    assert all[1..] == s && Skip(all) == all;
    hide ParseChars, Skip;
  }

  /** If the items are read back as they are, all are plain, and reading stops at the end of the list. */
  lemma {:induction false} ItemsExact(list: seq<string>, end: string)
    requires list != [] && |end| >= 2 && end[0] == ']' && end[1] == '\n'
    requires ParseItems(ItemsText(list) + end).Some?
    requires StringsOf(Arr(ParseItems(ItemsText(list) + end).value.0)) == Some(list)
    ensures (forall i :: 0 <= i < |list| ==> Plain(list[i])) && ParseItems(ItemsText(list) + end).value.1 == end[1..]
  {
    var tail := Behind(list, end);
    ItemsHead(list, end);
    BehindFollows(list, end);
    hide ItemsText, Rest, ParseChars, ParseItems, Skip, Plain;
    var s := Rest(list[0], tail);
    FirstItem(s);
    var items := ParseItems(ItemsText(list) + end).value.0;
    StringsHead(items, list);
    hide StringsOf;
    assert Reads(s, list[0]);
    CharsExact(list[0], tail);
    PlainIs(list[0]);
    FollowsStays(tail);
    if |list| > 1 {
      assert tail[1..] == ItemsText(list[1..]) + end;
      ItemsExact(list[1..], end);
    }
  }

  lemma PlainIs(s: string)
    ensures Plain(s) <==> CleanText(s) && Ascii(s)
  {
  }

  lemma FollowsStays(tail: string)
    requires Follows(tail)
    ensures Skip(tail) == tail
  {
  }

  lemma StringsHead(items: seq<Json>, list: seq<string>)
    requires StringsOf(Arr(items)) == Some(list) && list != [] && items != [] && items[0].Str?
    ensures items[0].text == list[0]
    ensures |items| == |list| && StringsOf(Arr(items[1..])) == Some(list[1..])
  {
    assert forall i :: 0 <= i < |items| - 1 ==> items[1..][i] == items[i + 1];
    assert StringsOf(Arr(items)).value[0] == items[0].text;
    assert StringsOf(Arr(items[1..])).value == StringsOf(Arr(items)).value[1..];
  }

  lemma BooleanPlain()
    ensures Plain(BOOLEAN) && Widen(BOOLEAN) == BOOLEAN
  {
    BooleanClean();
    QuotedAscii("false");
    QuotedAscii("0");
    QuotedAscii("true");
    QuotedAscii("1");
    hide Quoted, Ascii, CleanText;
    NestedAscii(Quoted("false"), Quoted("0"), Quoted("true"), Quoted("1"));
    WidenKeepsIff(BOOLEAN);
  }

  lemma QuotedAscii(s: string)
    requires Ascii(s)
    ensures Ascii(Quoted(s))
  {
  }

  lemma NestedAscii(a: string, b: string, c: string, d: string)
    requires Ascii(a) && Ascii(b) && Ascii(c) && Ascii(d)
    ensures Ascii("{" + a + ":" + b + ", " + c + ":" + d + "}")
  {
  }

  /** The file is one list of items, the boolean entry among them. */
  lemma FileIsItems(list: seq<string>, was: string)
    requires list != []
    ensures Overwritten(was, 0, ScalingText(list))
         == "[\n" + (ItemsText([BOOLEAN] + list) + ("]\n" + Drop(was, |ScalingText(list)|)))
  {
    BooleanEscaped();
    BooleanPlain();
    InsertEscapeIs(BOOLEAN);
    hide BOOLEAN, BOOLEAN_ITEM, Escape, Widen, InsertEscape, Drop;
    var all := [BOOLEAN] + list;
    assert all[1..] == list && all[0] == BOOLEAN;
    assert ItemsText(all) == "\"" + InsertEscape(BOOLEAN) + "\"," + ItemsText(list);
    OverwrittenStart(was, ScalingText(list));
    hide ItemsText;
    assert HEAD + ItemsText(list) + "]\n" == "[\n" + ("\"" + InsertEscape(BOOLEAN) + "\"," + ItemsText(list)) + "]\n";
  }

  lemma ListParsed(items: string)
    requires items != "" && items[0] == QUOTE
    ensures Parse("[\n" + items) == match ParseItems(items)
                                    case None => None
                                    case Some((js, rest)) => if Skip(rest) == "" then Some(Arr(js)) else None
  {
    var s := "[\n" + items;
    assert s[1..] == "\n" + items && ("\n" + items)[1..] == items;
    assert Skip(s) == s && Skip("\n" + items) == items;
    hide ParseItems, Skip;
  }

  /** The feeder reads the boolean entry and then the tool's list exactly when there is some scaling text, all are in
      ASCII without backslashes and control characters, and nothing but white space is left over from a longer file. */
  lemma ScalingRoundTripIff(list: seq<string>, was: string)
    ensures ReadScaling(Overwritten(was, 0, ScalingText(list))) == Some([BOOLEAN] + list)
       <==> && list != []
            && (forall i :: 0 <= i < |list| ==> Plain(list[i]))
            && AllSpaces(Drop(was, |ScalingText(list)|))
  {
    var content := Overwritten(was, 0, ScalingText(list));
    hide ScalingText, Overwritten, Drop, Widened, BOOLEAN, ReadScaling, AllSpaces;
    if list == [] {
      NothingReadBack(was);
    } else {
      if forall i :: 0 <= i < |list| ==> Plain(list[i]) {
        ReadBack(list, was);
        hide Ascii, CleanText;
        WidenedIff(list);
      }
      if ReadScaling(content) == Some([BOOLEAN] + list) {
        ReadExact(list, was);
      }
    }
  }

  lemma ReadExact(list: seq<string>, was: string)
    requires list != [] && ReadScaling(Overwritten(was, 0, ScalingText(list))) == Some([BOOLEAN] + list)
    ensures (forall i :: 0 <= i < |list| ==> Plain(list[i])) && AllSpaces(Drop(was, |ScalingText(list)|))
  {
    hide *;
    var stale := Drop(was, |ScalingText(list)|);
    var all, end := [BOOLEAN] + list, "]\n" + stale;
    FileIsItems(list, was);
    ItemsHead(all, end);
    StartsWithQuote(Rest(all[0], Behind(all, end)));
    ListRead(ItemsText(all) + end, all);
    ItemsExact(all, end);
    assert end[1..] == "\n" + stale;
    NewlineSkipped(stale);
    assert forall i :: 0 <= i < |list| ==> all[i + 1] == list[i];
  }

  lemma StartsWithQuote(s: string)
    ensures "\"" + s != "" && ("\"" + s)[0] == QUOTE
  {
  }

  lemma ListRead(items: string, list: seq<string>)
    requires items != "" && items[0] == QUOTE && ReadScaling("[\n" + items) == Some(list)
    ensures ParseItems(items).Some? && StringsOf(Arr(ParseItems(items).value.0)) == Some(list)
    ensures Skip(ParseItems(items).value.1) == ""
  {
    ListParsed(items);
    hide ParseItems, Parse, Skip, StringsOf;
  }

  lemma WidenedIff(list: seq<string>)
    ensures Widened(list) == list <==> forall i :: 0 <= i < |list| ==> Ascii(list[i])
  {
    hide Widen, Ascii;
    forall i | 0 <= i < |list| ensures Widened(list)[i] == list[i] <==> Ascii(list[i]) {
      WidenKeepsIff(list[i]);
    }
  }
}
