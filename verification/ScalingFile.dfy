/** The file of scaling data: written by the tool as one JSON array of escaped texts, read by the feeder. */
module ScalingFile {
  import opened Text
  import opened Json
  import opened ConversionTool
  import opened Files

  /** The entry behind conversion index 1. */
  const BOOLEAN := "{" + Quoted("false") + ":" + Quoted("0") + ", " + Quoted("true") + ":" + Quoted("1") + "}"

  function InsertEscape(s: string): string {
    if s == "" then "" else Escaped(s[0]) + InsertEscape(s[1..])
  }

  function Escaped(c: char): string {
    if c == QUOTE then "\\" + "\"" else Utf8(c)
  }

  method InsertEscapes(jsonString: string) returns (escaped: string)
    ensures escaped == InsertEscape(jsonString)
  {
    escaped := "";
    assert jsonString[0..] == jsonString && InsertEscape(jsonString[|jsonString|..]) == "";
    hide InsertEscape, Escaped, Utf8;
    for i := 0 to |jsonString|
      invariant escaped + InsertEscape(jsonString[i..]) == InsertEscape(jsonString)
    {
      ghost var done := escaped;
      InsertEscapeStep(done, jsonString, i);
      EscapedIs(done, jsonString[i]);
      if jsonString[i] == QUOTE {
        escaped := escaped + "\\";
        escaped := escaped + "\"";
      } else {
        escaped := escaped + Utf8(jsonString[i]);
      }
    }
  }

  lemma EscapedIs(done: string, c: char)
    ensures done + Escaped(c) == if c == QUOTE then done + "\\" + "\"" else done + Utf8(c)
  {
    hide Utf8;
  }

  lemma InsertEscapeStep(done: string, s: string, i: nat)
    requires i < |s|
    ensures done + InsertEscape(s[i..]) == done + Escaped(s[i]) + InsertEscape(s[i + 1..])
  {
    hide Escaped;
    assert s[i..][1..] == s[i + 1..];
  }

  function ItemsText(list: seq<string>): string {
    if list == [] then ""
    else "\"" + InsertEscape(list[0]) + (if |list| == 1 then "\"" else "\",") + ItemsText(list[1..])
  }

  /** The boolean entry as the tool spells it in the file. */
  const BOOLEAN_ITEM := "\""
      + ("{" + Slashed("false") + ":" + Slashed("0") + ", " + Slashed("true") + ":" + Slashed("1") + "}") + "\""

  function Slashed(s: string): string {
    "\\\"" + s + "\\\""
  }

  const HEAD := "[\n" + (BOOLEAN_ITEM + ",")

  function ScalingText(list: seq<string>): string {
    HEAD + ItemsText(list) + "]\n"
  }

  method WriteScaleDataList(f: File, scaleDataList: seq<string>)
    requires f.pos == 0
    modifies f
    ensures f.Valid() && f.content == Overwritten(old(f.content), 0, ScalingText(scaleDataList))
  {
    hide Overwritten, InsertEscape, BOOLEAN_ITEM;
    ghost var was, done := f.content, "[\n";
    f.Write("[\n");
    f.Write(BOOLEAN_ITEM + ",");
    OverwrittenTwice(was, 0, done, BOOLEAN_ITEM + ",");
    done := HEAD;
    for i := 0 to |scaleDataList|
      invariant f.Valid() && f.pos == |done| && f.content == Overwritten(was, 0, done)
      invariant done + ItemsText(scaleDataList[i..]) == HEAD + ItemsText(scaleDataList)
    {
      var escaped := InsertEscapes(scaleDataList[i]);
      var text := if i == |scaleDataList| - 1 then "\"" + escaped + "\"" else "\"" + escaped + "\",";
      f.Write(text);
      OverwrittenTwice(was, 0, done, text);
      ItemsTextStep(scaleDataList, i, text, done);
      done := done + text;
    }
    f.Write("]\n");
    OverwrittenTwice(was, 0, done, "]\n");
    assert done == HEAD + ItemsText(scaleDataList);
  }

  lemma ItemsTextStep(list: seq<string>, i: nat, text: string, done: string)
    requires i < |list|
    requires text == "\"" + InsertEscape(list[i]) + (if i == |list| - 1 then "\"" else "\",")
    ensures done + ItemsText(list[i..]) == done + text + ItemsText(list[i + 1..])
  {
    hide InsertEscape;
    assert list[i..][1..] == list[i + 1..];
  }

  /** readscalingDataList on the bytes of the file: None where the feeder goes on with no list at all. */
  function ReadScaling(content: string): Option<seq<string>> {
    ParseStrings(content)
  }

  // ---------------------------------------------------------------- what is read back

  function Widen(s: string): string {
    if s == "" then "" else Utf8(s[0]) + Widen(s[1..])
  }

  predicate Ascii(s: string) {
    forall c :: c in s ==> N(c) < 0x80
  }

  lemma {:induction false} WidenKeepsIff(s: string)
    ensures |Widen(s)| >= |s|
    ensures |Widen(s)| == |s| <==> Ascii(s)
    ensures Ascii(s) ==> Widen(s) == s
  {
    if s != "" {
      WidenKeepsIff(s[1..]);
      assert s == [s[0]] + s[1..];
      assert Ascii(s) <==> N(s[0]) < 0x80 && Ascii(s[1..]);
    }
  }

  lemma {:induction false} WidenClean(s: string)
    requires CleanText(s)
    ensures CleanText(Widen(s))
  {
    if s != "" {
      assert s[0] in s && forall c :: c in s[1..] ==> c in s;
      WidenClean(s[1..]);
      assert forall c :: c in Utf8(s[0]) ==> c != '\\' && N(c) >= 0x20;
    }
  }

  lemma {:induction false} InsertEscapeIs(s: string)
    ensures InsertEscape(s) == Escape(Widen(s), Quotes)
  {
    if s != "" {
      InsertEscapeIs(s[1..]);
      var w := Utf8(s[0]) + Widen(s[1..]);
      if N(s[0]) < 0x80 {
        assert w[0] == s[0] && w[1..] == Widen(s[1..]);
      } else {
        EscapeTwo(Utf8(s[0])[0], Utf8(s[0])[1], Widen(s[1..]));
      }
    }
  }

  lemma EscapeTwo(a: char, b: char, s: string)
    requires a != QUOTE && b != QUOTE
    ensures Escape([a, b] + s, Quotes) == [a, b] + Escape(s, Quotes)
  {
    var w := [a, b] + s;
    assert w[1..] == [b] + s && ([b] + s)[1..] == s;
    assert [a] + ([b] + Escape(s, Quotes)) == [a, b] + Escape(s, Quotes);
  }

  const OPENED := Style("", "\n", Quotes)

  function Texts(list: seq<string>): (items: seq<Json>)
    ensures |items| == |list|
  {
    seq(|list|, i requires 0 <= i < |list| => Str(list[i]))
  }

  function Widened(list: seq<string>): (r: seq<string>)
    ensures |r| == |list|
  {
    seq(|list|, i requires 0 <= i < |list| => Widen(list[i]))
  }

  lemma {:induction false} ItemsPrinted(list: seq<string>)
    requires list != []
    ensures ItemsText(list) + "]" == PrintItems(Texts(Widened(list)), OPENED)
  {
    hide InsertEscape, Escape, Widen;
    var items := Texts(Widened(list));
    InsertEscapeIs(list[0]);
    var first := "\"" + InsertEscape(list[0]);
    assert Print(items[0], OPENED) == first + "\"";
    if |list| == 1 {
      assert ItemsText(list[1..]) == "";
      assert first + "\"" + "" + "]" == first + "\"" + "]";
    } else {
      assert items[1..] == Texts(Widened(list[1..]));
      ItemsPrinted(list[1..]);
      hide PrintItems, Texts;
      JoinItem(first, ItemsText(list[1..]));
    }
  }

  lemma JoinItem(first: string, rest: string)
    ensures first + "\"," + rest + "]" == first + "\"" + ("," + "" + (rest + "]"))
  {
  }

  lemma {:induction false} EscapePrefix(a: string, s: string)
    requires QUOTE !in a
    ensures Escape(a + s, Quotes) == a + Escape(s, Quotes)
  {
    if a == "" {
      assert a + s == s;
    } else {
      assert (a + s)[1..] == a[1..] + s;
      EscapePrefix(a[1..], s);
      assert a == [a[0]] + a[1..];
    }
  }

  lemma EscapeQuoted(w: string, s: string)
    requires QUOTE !in w
    ensures Escape(Quoted(w) + s, Quotes) == Slashed(w) + Escape(s, Quotes)
  {
    var rest := w + ("\"" + s);
    assert Quoted(w) + s == "\"" + rest && ("\"" + rest)[1..] == rest && ("\"" + s)[1..] == s;
    EscapePrefix(w, "\"" + s);
  }

  /** The tool's own spelling of the boolean entry is what the escaping gives. */
  lemma BooleanEscaped()
    ensures BOOLEAN_ITEM == "\"" + Escape(BOOLEAN, Quotes) + "\""
  {
    hide Escape, Quoted, Slashed;
    var s3 := ":" + (Quoted("1") + "}");
    var s2 := ", " + (Quoted("true") + s3);
    var s1 := ":" + (Quoted("0") + s2);
    EscapeBraces();
    EscapePrefix("{", Quoted("false") + s1);
    EscapeQuoted("false", s1);
    EscapePrefix(":", Quoted("0") + s2);
    EscapeQuoted("0", s2);
    EscapePrefix(", ", Quoted("true") + s3);
    EscapeQuoted("true", s3);
    EscapePrefix(":", Quoted("1") + "}");
    EscapeQuoted("1", "}");
    Nested(Quoted("false"), Quoted("0"), Quoted("true"), Quoted("1"));
    Nested(Slashed("false"), Slashed("0"), Slashed("true"), Slashed("1"));
  }

  lemma EscapeBraces()
    ensures Escape("}", Quotes) == "}"
  {
  }

  lemma Nested(a: string, b: string, c: string, d: string)
    ensures "{" + a + ":" + b + ", " + c + ":" + d + "}" == "{" + (a + (":" + (b + (", " + (c + (":" + (d + "}")))))))
  {
  }

  lemma BooleanClean()
    ensures CleanText(BOOLEAN)
  {
    QuotedClean("false");
    QuotedClean("0");
    QuotedClean("true");
    QuotedClean("1");
    hide Quoted, CleanText;
    NestedClean(Quoted("false"), Quoted("0"), Quoted("true"), Quoted("1"));
  }

  lemma QuotedClean(s: string)
    requires CleanText(s)
    ensures CleanText(Quoted(s))
  {
  }

  lemma NestedClean(a: string, b: string, c: string, d: string)
    requires CleanText(a) && CleanText(b) && CleanText(c) && CleanText(d)
    ensures CleanText("{" + a + ":" + b + ", " + c + ":" + d + "}")
  {
  }

  /** With at least one scaling text the file is one printed JSON array. */
  lemma ScalingPrinted(list: seq<string>)
    requires list != []
    ensures ScalingText(list) == Print(Arr(Texts([BOOLEAN] + Widened(list))), OPENED) + "\n"
  {
    hide Escape, ItemsText, BOOLEAN, BOOLEAN_ITEM;
    var items, rest := Texts([BOOLEAN] + Widened(list)), Texts(Widened(list));
    assert items[0] == Str(BOOLEAN) && items[1..] == rest;
    ItemsPrinted(list);
    BooleanEscaped();
    var first := "\"" + Escape(BOOLEAN, Quotes) + "\"";
    assert PrintItems(items, OPENED) == first + ("," + "" + PrintItems(rest, OPENED));
    hide PrintItems;
    JoinHead(first, ItemsText(list));
  }

  lemma JoinHead(first: string, items: string)
    ensures "[\n" + (first + ",") + items + "]\n" == "[" + "\n" + (first + ("," + "" + (items + "]"))) + "\n"
  {
  }

  /** What the feeder reads from a file that held `was` before, all texts being free of backslashes and controls. */
  lemma ReadBack(list: seq<string>, was: string)
    requires list != [] && forall i :: 0 <= i < |list| ==> CleanText(list[i])
    ensures ReadScaling(Overwritten(was, 0, ScalingText(list)))
         == if AllSpaces(Drop(was, |ScalingText(list)|)) then Some([BOOLEAN] + Widened(list)) else None
  {
    hide BOOLEAN, CleanText, AllCleanText, Readable, ScalingText, Drop, AllSpaces, Print, ParseValue, Skip, Texts;
    var stale, all := Drop(was, |ScalingText(list)|), [BOOLEAN] + Widened(list);
    var j := Arr(Texts(all));
    AllClean(list);
    ScalingPrinted(list);
    OverwrittenStart(was, ScalingText(list));
    assert Print(j, OPENED) + "\n" + stale == Print(j, OPENED) + ("\n" + stale);
    TextsClean(all);
    NewlineSkipped(stale);
    ValueRoundTrip(j, OPENED, "\n" + stale);
    StringsOfTexts(all);
  }

  lemma OverwrittenStart(was: string, bytes: string)
    ensures Overwritten(was, 0, bytes) == bytes + Drop(was, |bytes|)
  {
  }

  lemma NewlineSkipped(stale: string)
    ensures Skip("\n" + stale) == "" <==> AllSpaces(stale)
    ensures Blank(OPENED)
  {
    SkipAllIff(stale);
    assert ("\n" + stale)[1..] == stale;
  }

  predicate AllCleanText(list: seq<string>) {
    forall i :: 0 <= i < |list| ==> CleanText(list[i])
  }

  lemma AllClean(list: seq<string>)
    requires forall i :: 0 <= i < |list| ==> CleanText(list[i])
    ensures AllCleanText([BOOLEAN] + Widened(list))
  {
    BooleanClean();
    hide BOOLEAN, CleanText;
    var all := [BOOLEAN] + Widened(list);
    forall i | 0 <= i < |all| ensures CleanText(all[i]) {
      if i > 0 {
        WidenClean(list[i - 1]);
      }
    }
  }

  lemma TextsClean(list: seq<string>)
    requires AllCleanText(list)
    ensures Readable(Arr(Texts(list)), OPENED.escape)
  {
    hide ReadableText;
  }

  lemma StringsOfTexts(list: seq<string>)
    ensures StringsOf(Arr(Texts(list))) == Some(list)
  {
    assert forall i :: 0 <= i < |list| ==> Texts(list)[i].Str?;
    assert StringsOf(Arr(Texts(list))).value == list;
  }

  lemma {:induction false} SkipAllIff(s: string)
    ensures Skip(s) == "" <==> AllSpaces(s)
  {
    if s != "" {
      SkipAllIff(s[1..]);
      assert s[0] in s && s == [s[0]] + s[1..];
    }
  }

  lemma EmptyListText(was: string)
    ensures Overwritten(was, 0, ScalingText([]))
         == "[\n" + (Print(Str(BOOLEAN), OPENED) + ("," + ("]\n" + Drop(was, |ScalingText([])|))))
  {
    BooleanEscaped();
    hide BOOLEAN, BOOLEAN_ITEM, Escape;
    assert ScalingText([]) == "[\n" + (Print(Str(BOOLEAN), OPENED) + ",") + "" + "]\n";
    hide Print, ScalingText;
  }

  /** With no scaling text a comma stands before the closing bracket: the feeder reads nothing. */
  lemma NothingReadBack(was: string)
    ensures ReadScaling(Overwritten(was, 0, ScalingText([]))) == None
  {
    hide BOOLEAN, BOOLEAN_ITEM, Escape;
    var tail := "]\n" + Drop(was, |ScalingText([])|);
    EmptyListText(was);
    BooleanClean();
    CommaAndBracket(BOOLEAN, tail);
    hide Print;
    TrailingComma(Print(Str(BOOLEAN), OPENED) + ("," + tail));
  }

  lemma CommaAndBracket(text: string, tail: string)
    requires CleanText(text) && tail != "" && tail[0] == ']'
    ensures var s := Print(Str(text), OPENED) + ("," + tail);
            s[0] == QUOTE && ParseItems(s) == None
  {
    hide Escape;
    ValueRoundTrip(Str(text), OPENED, "," + tail);
    assert ("," + tail)[1..] == tail;
    assert ParseValue(tail) == None && ParseItems(tail) == None;
    hide ParseValue;
  }

  lemma TrailingComma(items: string)
    requires items != "" && items[0] == QUOTE && ParseItems(items) == None
    ensures Parse("[\n" + items) == None
  {
    var s := "[\n" + items;
    assert s[1..] == "\n" + items && ("\n" + items)[1..] == items;
    assert Skip(s) == s && Skip("\n" + items) == items;
  }
}
