/** Requests as text and back: what the converter reads from the text that it has printed. */
module GrpcRequests {
  import opened Text
  import opened Json
  import opened JsonTexts
  import opened Grpc
  import opened GrpcRoundTrip

  function NormRequest(m: Request): Request {
    m.(authorization := NormText(m.authorization), requestId := NormText(m.requestId))
  }

  /** The request printed, parsed and read. */
  function RequestOverWire(m: Request): Option<Request> {
    var j :- RequestJson(m);
    var members :- Unmarshal(Bare(j));
    ReadRequest(m.action, members)
  }

  // ---------------------------------------------------------------- reading filters

  /** A filter whose parameter is printed as it is, without quotes; no text is printed for an undefined one. */
  predicate IsRaw(f: Filter) {
    f.StaticMetadata? || f.DynamicMetadata? || f.Undefined?
  }

  /** A filter with a parameter as it is read. */
  function FilterWith(f: Filter, parameter: Json): Json {
    Obj([Field("type", FilterType(f)), Member("parameter", parameter)])
  }

  lemma {:induction false} StringsRead(texts: seq<string>)
    ensures ReadStrings(TextsJson(texts)) == Some(texts)
  {
    if texts == [] {
      assert TextsJson(texts) == [];
    } else {
      var n := |texts| - 1;
      StringsRead(texts[..n]);
      assert TextsJson(texts)[..n] == TextsJson(texts[..n]);
      assert texts[..n] + [texts[n]] == texts;
    }
  }

  /** The range printer writes "logic-op", the reader wants "boundary-op": reading always fails. */
  lemma RangesFail(bounds: seq<RangeValue>)
    requires bounds != []
    ensures ReadRanges(RangesJson(bounds)) == None
  {
    var last := bounds[|bounds| - 1];
    LookupTwo(Field("logic-op", last.logicOp), Field("boundary", last.boundary), "boundary-op");
    assert ReadRange(RangesJson(bounds)[|bounds| - 1]) == None;
  }

  lemma ParameterReads(f: Filter)
    requires FilterPrintable(f)
    ensures f.Paths? ==> ReadPaths(Some(ParameterJson(f))) == Some(f)
    ensures f.Range? ==> ReadBounds(Some(ParameterJson(f))) == None
  {
    match f
    case Paths(relative) =>
      SpreadCollapsed(TextsJson(relative));
      StringsRead(relative);
    case Range(bounds) =>
      SpreadCollapsed(RangesJson(bounds));
      RangesFail(bounds);
    case _ =>
  }

  /** What a filter comes back as when its parameter is read as this value. */
  function ReadBack(f: Filter, parameter: Json): Option<Filter> {
    match f
    case Range(_) => None
    case DynamicMetadata(_) => if parameter.Str? then Some(DynamicMetadata(parameter.text)) else None
    case StaticMetadata(_) => Some(StaticMetadata(""))
    case _ => Some(f)
  }

  lemma FilterReads(f: Filter, parameter: Json)
    requires FilterPrintable(f) && (IsRaw(f) || parameter == ParameterJson(f))
    ensures ReadFilter(FilterWith(f, parameter)) == ReadBack(f, parameter)
  {
    hide ReadPaths, ReadBounds, Lookup;
    LookupTwo(Field("type", FilterType(f)), Member("parameter", parameter), "type");
    LookupTwo(Field("type", FilterType(f)), Member("parameter", parameter), "parameter");
    match f
    case Paths(_) =>
      ParameterReads(f);
    case Timebased(period) =>
      LookupOne(Field("period", period), "period");
    case Range(_) =>
      ParameterReads(f);
    case Change(op, diff) =>
      LookupTwo(Field("logic-op", op), Field("diff", diff), "logic-op");
      LookupTwo(Field("logic-op", op), Field("diff", diff), "diff");
    case Curvelog(maxErr, bufSize) =>
      LookupTwo(Field("maxerr", maxErr), Field("bufsize", bufSize), "maxerr");
      LookupTwo(Field("maxerr", maxErr), Field("bufsize", bufSize), "bufsize");
    case _ =>
  }

  function FiltersWith(fs: seq<Filter>, js: seq<Json>): (items: seq<Json>)
    requires |fs| == |js|
    ensures |items| == |fs|
  {
    seq(|fs|, i requires 0 <= i < |fs| => FilterWith(fs[i], js[i]))
  }

  /** The filters as they come back: three or more are dropped without an error. */
  function FiltersBack(fs: seq<Filter>, js: seq<Json>): Option<Option<seq<Filter>>>
    requires |fs| == |js| > 0
  {
    if |fs| > 2 then Some(None)
    else if |fs| == 1 then
      var f :- ReadBack(fs[0], js[0]);
      Some(Some([f]))
    else
      var f :- ReadBack(fs[0], js[0]);
      var g :- ReadBack(fs[1], js[1]);
      Some(Some([f, g]))
  }

  lemma FiltersRead(fs: seq<Filter>, js: seq<Json>)
    requires FiltersPrintable(fs) && |js| == |fs|
    requires forall i :: 0 <= i < |fs| ==> IsRaw(fs[i]) || js[i] == ParameterJson(fs[i])
    ensures !Collapsed(FiltersWith(fs, js)).Lit?
    ensures ReadFilters(Some(Collapsed(FiltersWith(fs, js)))) == FiltersBack(fs, js)
  {
    hide ReadFilter, ParameterJson, ReadBack;
    FilterReads(fs[0], js[0]);
    if |fs| == 2 {
      FilterReads(fs[1], js[1]);
    }
  }

  // ---------------------------------------------------------------- the place of a parameter in the text

  function ParameterText(f: Filter): string
    requires FilterPrintable(f)
  {
    Bare(ParameterJson(f))
  }

  function OptMembers(m: Request): seq<Member> {
    OptField("authorization", Get(m.authorization, "")) + OptField("requestId", Get(m.requestId, ""))
  }

  /** What stands behind the filter member. */
  function After(m: Request): string {
    if OptMembers(m) == [] then "}" else "," + PrintMembers(OptMembers(m), UNESCAPED)
  }

  /** What stands behind filter i of an array, or behind the only one. */
  function ItemTail(fs: seq<Filter>, i: nat, after: string): string
    requires i < |fs| && FiltersPrintable(fs)
  {
    if i == |fs| - 1 then "]" + after else "," + (PrintItems(FilterItems(fs[i + 1..]), UNESCAPED) + after)
  }

  function Tail(fs: seq<Filter>, i: nat, after: string): string
    requires i < |fs| && FiltersPrintable(fs)
  {
    if |fs| == 1 then after else ItemTail(fs, i, after)
  }

  /** The parameter of filter i is read as this value, up to the brace of its filter. */
  predicate Taken(fs: seq<Filter>, i: nat, after: string, j: Json)
    requires i < |fs| && FiltersPrintable(fs)
  {
    var rest := "}" + Tail(fs, i, after);
    ParseValue(ParameterText(fs[i]) + rest) == Some((j, rest))
  }

  /** Nothing can be read there. */
  predicate Unread(fs: seq<Filter>, i: nat, after: string)
    requires i < |fs| && FiltersPrintable(fs)
  {
    ParseValue(ParameterText(fs[i]) + ("}" + Tail(fs, i, after))) == None
  }

  lemma TwoBare(t: Member, p: Member)
    ensures Bare(Obj([t, p])) == "{" + (MemberBare(t) + "," + (MemberBare(p) + "}"))
  {
    OneMember(p);
    MoreMembers(t, [p]);
    BareObject([t, p]);
    hide *;
    assert [t] + [p] == [t, p];
  }

  lemma TypeBare(kind: string)
    ensures MemberBare(Field("type", kind)) == "\"type\":\"" + kind + "\""
  {
    BareString(kind);
    hide Print;
    assert "\"" + "type" + "\":" + ("\"" + kind + "\"") == "\"type\":\"" + kind + "\"";
  }

  lemma ParameterBare(j: Json)
    ensures "," + (MemberBare(Member("parameter", j)) + "}") == PARAMETER + (Bare(j) + "}")
  {
    hide Print, Bare;
    assert "," + ("\"" + "parameter" + "\":") == PARAMETER;
  }

  /** The text of a filter in front of its parameter. */
  function Front(f: Filter): string {
    "{\"type\":\"" + FilterType(f) + "\""
  }

  lemma FilterText(f: Filter)
    requires FilterPrintable(f)
    ensures Bare(FilterJson(f)) == Front(f) + (PARAMETER + (ParameterText(f) + "}"))
  {
    var t, p := Field("type", FilterType(f)), Member("parameter", ParameterJson(f));
    TwoBare(t, p);
    TypeBare(FilterType(f));
    ParameterBare(p.value);
    hide ParameterJson, Print, Bare, MemberBare, PARAMETER, FilterType;
    Braced("\"type\":\"" + FilterType(f) + "\"", MemberBare(p) + "}");
    assert "{" + ("\"type\":\"" + FilterType(f) + "\"") == Front(f);
  }

  lemma Braced(a: string, b: string)
    ensures "{" + (a + "," + b) == "{" + a + ("," + b)
  {
  }

  lemma BareItems(items: seq<Json>)
    requires items != []
    ensures PrintItems(items, UNESCAPED)
         == Bare(items[0]) + if |items| == 1 then "]" else "," + PrintItems(items[1..], UNESCAPED)
  {
    hide Print;
    assert "," + "" == ",";
  }

  lemma ItemsRest(fs: seq<Filter>)
    requires FiltersPrintable(fs) && |fs| > 1
    ensures FiltersPrintable(fs[1..]) && FilterItems(fs)[1..] == FilterItems(fs[1..])
  {
    hide FilterJson;
  }

  lemma TailRest(fs: seq<Filter>, i: nat, after: string)
    requires FiltersPrintable(fs) && 0 < i < |fs|
    ensures FiltersPrintable(fs[1..]) && ItemTail(fs[1..], i - 1, after) == ItemTail(fs, i, after)
  {
    assert fs[1..][i..] == fs[i + 1..];
  }

  lemma FirstTail(fs: seq<Filter>, more: string, after: string)
    requires FiltersPrintable(fs)
    requires more == if |fs| == 1 then "]" else "," + PrintItems(FilterItems(fs[1..]), UNESCAPED)
    ensures more + after == ItemTail(fs, 0, after)
  {
    hide PrintItems, FilterItems, FilterPrintable;
  }

  lemma FirstItemPlace(fs: seq<Filter>, after: string)
    requires FiltersPrintable(fs)
    ensures PrintItems(FilterItems(fs), UNESCAPED) + after
         == Front(fs[0]) + (PARAMETER + (ParameterText(fs[0]) + ("}" + ItemTail(fs, 0, after))))
  {
    var items, f := FilterItems(fs), fs[0];
    BareItems(items);
    FilterText(f);
    hide FilterPrintable, FilterJson, ParameterText, PARAMETER, Front, PrintItems, Bare;
    if |fs| > 1 {
      ItemsRest(fs);
    }
    var more := if |fs| == 1 then "]" else "," + PrintItems(items[1..], UNESCAPED);
    FirstTail(fs, more, after);
    hide ItemTail;
    Nested(Front(f), PARAMETER, ParameterText(f), more, after);
  }

  /** The items as a text, around the parameter of filter i. */
  lemma {:induction false} ItemsPlace(fs: seq<Filter>, i: nat, after: string) returns (front: string)
    requires FiltersPrintable(fs) && i < |fs|
    ensures PrintItems(FilterItems(fs), UNESCAPED) + after
         == front + (PARAMETER + (ParameterText(fs[i]) + ("}" + ItemTail(fs, i, after))))
    decreases i
  {
    if i == 0 {
      FirstItemPlace(fs, after);
      front := Front(fs[0]);
    } else {
      ItemsRest(fs);
      TailRest(fs, i, after);
      BareItems(FilterItems(fs));
      hide FilterPrintable, FilterJson, ParameterText, PARAMETER, PrintItems, Bare, ItemTail, FilterItems;
      var inner := ItemsPlace(fs[1..], i - 1, after);
      assert fs[1..][i - 1] == fs[i];
      var first, p := Bare(FilterItems(fs)[0]), PrintItems(FilterItems(fs[1..]), UNESCAPED);
      front := first + "," + inner;
      Behind(first, p, after, inner, PARAMETER + (ParameterText(fs[i]) + ("}" + ItemTail(fs, i, after))));
    }
  }

  lemma Behind(first: string, p: string, after: string, inner: string, hole: string)
    requires p + after == inner + hole
    ensures first + ("," + p) + after == first + "," + inner + hole
  {
    assert first + ("," + p) + after == first + "," + (p + after);
    assert first + "," + inner + hole == first + "," + (inner + hole);
  }

  lemma Nested(front: string, key: string, text: string, more: string, after: string)
    ensures front + (key + (text + "}")) + more + after == front + (key + (text + ("}" + (more + after))))
  {
  }

  lemma OnlyPlace(fs: seq<Filter>, after: string)
    requires FiltersPrintable(fs) && |fs| == 1
    ensures Bare(FiltersJson(fs)) + after
         == Front(fs[0]) + (PARAMETER + (ParameterText(fs[0]) + ("}" + Tail(fs, 0, after))))
  {
    FilterText(fs[0]);
    assert FiltersJson(fs) == FilterJson(fs[0]) && Tail(fs, 0, after) == after;
    hide *;
    Nested(Front(fs[0]), PARAMETER, ParameterText(fs[0]), "", after);
    assert Bare(FiltersJson(fs)) + "" == Bare(FiltersJson(fs)) && "" + after == after;
  }

  lemma Enclosed(p: string, after: string, inner: string, hole: string)
    requires p + after == inner + hole
    ensures "[" + p + after == "[" + inner + hole
  {
    assert "[" + p + after == "[" + (p + after) && "[" + inner + hole == "[" + (inner + hole);
  }

  /** The filter member as a text, around the parameter of filter i. */
  lemma FiltersPlace(fs: seq<Filter>, i: nat, after: string) returns (front: string)
    requires FiltersPrintable(fs) && i < |fs|
    ensures Bare(FiltersJson(fs)) + after == front + (PARAMETER + (ParameterText(fs[i]) + ("}" + Tail(fs, i, after))))
  {
    if |fs| == 1 {
      OnlyPlace(fs, after);
      front := Front(fs[0]);
    } else {
      BareArray(FilterItems(fs));
      hide FilterPrintable, FilterItems, ParameterText, PARAMETER, Front, PrintItems, Bare, ItemTail;
      var inner := ItemsPlace(fs, i, after);
      front := "[" + inner;
      var hole := PARAMETER + (ParameterText(fs[i]) + ("}" + ItemTail(fs, i, after)));
      Enclosed(PrintItems(FilterItems(fs), UNESCAPED), after, inner, hole);
    }
  }

  function Lead(m: Request): string {
    MemberBare(Field("action", m.action)) + "," + (MemberBare(Field("path", m.path)) + "," + "\"filter\":")
  }

  lemma BareMembers(ms: seq<Member>)
    requires ms != []
    ensures PrintMembers(ms, UNESCAPED)
         == MemberBare(ms[0]) + if |ms| == 1 then "}" else "," + PrintMembers(ms[1..], UNESCAPED)
  {
    hide PrintMembers, MemberBare;
    if |ms| == 1 {
      assert ms == [ms[0]];
      OneMember(ms[0]);
    } else {
      assert ms == [ms[0]] + ms[1..];
      MoreMembers(ms[0], ms[1..]);
    }
    hide *;
  }

  /** The text of a request with filters. */
  lemma RequestText(m: Request)
    requires m.filter.Some? && FiltersPrintable(m.filter.value)
    ensures RequestJson(m).Some?
    ensures Bare(RequestJson(m).value) == "{" + (Lead(m) + (Bare(FiltersJson(m.filter.value)) + After(m)))
  {
    hide FiltersPrintable, FiltersJson, OptField, Print;
    var a, p, f := Field("action", m.action), Field("path", m.path), Member("filter", FiltersJson(m.filter.value));
    var opts := OptMembers(m);
    var ms := RequestJson(m).value.members;
    assert ms == [a, p, f] + opts;
    assert ms[1..] == [p, f] + opts && ms[1..][1..] == [f] + opts && ms[1..][1..][1..] == opts;
    BareObject(ms);
    BareMembers(ms);
    BareMembers(ms[1..]);
    BareMembers(ms[1..][1..]);
    FilterKey(f);
    hide MemberBare, PrintMembers, Bare;
    Chained(MemberBare(a), MemberBare(p), "\"filter\":", Bare(f.value), After(m));
  }

  lemma FilterKey(f: Member)
    requires f.key == "filter"
    ensures MemberBare(f) == "\"filter\":" + Bare(f.value)
  {
    hide Print, Bare;
    assert "\"" + "filter" + "\":" == "\"filter\":";
  }

  lemma Chained(a: string, p: string, key: string, value: string, after: string)
    ensures "{" + (a + ("," + (p + ("," + (key + value + after)))))
         == "{" + (a + "," + (p + "," + key) + (value + after))
  {
  }

  /** A request with a filter whose parameter cannot be read in its place fails, whatever its other texts. */
  lemma RequestFails(m: Request, i: nat)
    requires m.filter.Some? && FiltersPrintable(m.filter.value) && i < |m.filter.value|
    requires Unread(m.filter.value, i, After(m))
    ensures RequestOverWire(m) == None
  {
    var fs := m.filter.value;
    RequestText(m);
    var front := FiltersPlace(fs, i, After(m));
    hide RequestJson, FiltersPrintable, FiltersJson, After, Lead, ReadRequest, ParameterText, Tail, PARAMETER;
    var b := PARAMETER + (ParameterText(fs[i]) + ("}" + Tail(fs, i, After(m))));
    KeyEnds(ParameterText(fs[i]) + ("}" + Tail(fs, i, After(m))));
    Unparsable("{" + (Lead(m) + front), b);
    hide NoValue, Bare, Parse;
    Within(Lead(m), front, b);
  }

  lemma Within(lead: string, front: string, b: string)
    ensures "{" + (lead + (front + b)) == "{" + (lead + front) + b
  {
  }

  lemma KeyEnds(rest: string)
    requires ParseValue(rest) == None
    ensures NoValue(PARAMETER + rest)
  {
    hide ParseValue;
    assert (PARAMETER + rest)[|PARAMETER|..] == rest;
  }

  /** No JSON value: empty, or a word that is neither a number nor true, false or null. */
  predicate IsWord(s: string) {
    s == ""
    || (!IsSpace(s[0]) && s[0] !in {QUOTE, '[', '{'} && !IsLiteral(s[..LiteralLength(s)]))
  }

  lemma {:induction false} WordLength(s: string, rest: string)
    requires rest != "" && !IsLiteralChar(rest[0])
    ensures LiteralLength(s + rest) == LiteralLength(s)
  {
    hide IsLiteralChar;
    if s == "" {
      assert s + rest == rest;
    } else {
      assert (s + rest)[1..] == s[1..] + rest;
      WordLength(s[1..], rest);
    }
  }

  lemma WordUnread(s: string, rest: string)
    requires IsWord(s)
    ensures ParseValue(s + ("}" + rest)) == None
  {
    var t := s + ("}" + rest);
    WordLength(s, "}" + rest);
    assert t[..LiteralLength(s)] == s[..LiteralLength(s)];
    assert !IsSpace('}') && Skip(t) == t;
    hide Skip, IsLiteral, LiteralLength, ParseItems, ParseMembers, ParseChars;
    if s == "" {
      assert t[0] == '}';
      EmptyIsNoLiteral();
    }
  }

  lemma EmptyIsNoLiteral()
    ensures !IsLiteral("") && forall s :: s != "" && s[0] == '}' ==> LiteralLength(s) == 0
  {
  }

  /** What a raw filter prints. */
  function RawOf(f: Filter): string {
    match f case StaticMetadata(tree) => tree case DynamicMetadata(domain) => domain case _ => ""
  }

  /** So a request fails with a metadata filter whose text is empty or an ordinary word. */
  lemma WordFails(m: Request, i: nat)
    requires m.filter.Some? && FiltersPrintable(m.filter.value) && i < |m.filter.value|
    requires IsRaw(m.filter.value[i]) && IsWord(RawOf(m.filter.value[i]))
    ensures RequestOverWire(m) == None
  {
    var fs := m.filter.value;
    WordUnread(RawOf(fs[i]), Tail(fs, i, After(m)));
    assert ParameterText(fs[i]) == RawOf(fs[i]);
    hide IsWord, ParseValue, RequestOverWire, Tail, After;
    RequestFails(m, i);
  }

  // ---------------------------------------------------------------- what is read from the text

  /** The texts of a request but for its filters. */
  predicate TextsRaw(m: Request) {
    RawText(m.action) && RawText(m.path) && RawText(Get(m.authorization, "")) && RawText(Get(m.requestId, ""))
  }

  lemma TypeRaw(f: Filter)
    ensures RawText(FilterType(f)) && RawText("type") && RawText("parameter")
  {
    LettersRaw("type");
    LettersRaw("parameter");
    match f
    case StaticMetadata(_) =>
      assert forall i :: 0 <= i < |"static-metadata"| ==> ReadableChar("static-metadata"[i], AsIs);
    case DynamicMetadata(_) =>
      assert forall i :: 0 <= i < |"dynamic-metadata"| ==> ReadableChar("dynamic-metadata"[i], AsIs);
    case _ =>
      LettersRaw(FilterType(f));
      hide RawText;
  }

  /** A filter whose parameter is read as a value. */
  lemma FilterTaken(f: Filter, j: Json, rest: string)
    requires FilterPrintable(f) && ParseValue(ParameterText(f) + ("}" + rest)) == Some((j, "}" + rest))
    ensures ParseValue(Bare(FilterJson(f)) + rest) == Some((FilterWith(f, j), rest))
  {
    FilterText(f);
    hide *;
    TypeRaw(f);
    QuoteIsNoSpace();
    RawMember("parameter", j, ParameterText(f), "}" + rest);
    Headed("}", rest);
    var second := MemberLine("parameter", ParameterText(f), "}" + rest);
    Headed(",", second);
    RawString(FilterType(f), "," + second);
    RawMember("type", Str(FilterType(f)), Bare(Str(FilterType(f))), "," + second);
    var first := MemberLine("type", Bare(Str(FilterType(f))), "," + second);
    LineStarts("type", Bare(Str(FilterType(f))), "," + second);
    BraceParsed(first);
    FilterLine(f, ParameterText(f), rest);
    FilterIs(f, j, rest);
  }

  lemma Headed(c: string, rest: string)
    requires |c| == 1
    ensures c + rest != "" && (c + rest)[0] == c[0] && (c + rest)[1..] == rest
  {
  }

  /** A member as MemberStep reads it. */
  function MemberLine(key: string, text: string, after: string): string {
    "\"" + (key + "\"" + (":" + (text + after)))
  }

  lemma LineStarts(key: string, text: string, after: string)
    ensures MemberLine(key, text, after) != "" && MemberLine(key, text, after)[0] == QUOTE
  {
  }

  lemma RawString(text: string, rest: string)
    requires RawText(text)
    ensures ParseValue(Bare(Str(text)) + rest) == Some((Str(text), rest))
  {
    ValueRoundTrip(Str(text), UNESCAPED, rest);
    hide ParseValue;
  }

  lemma RawMember(key: string, value: Json, text: string, after: string)
    requires RawText(key) && ParseValue(text + after) == Some((value, after)) && after != "" && !IsSpace(after[0])
    ensures after[0] == '}' ==>
              ParseMembers(MemberLine(key, text, after)) == Some(([Member(key, value)], after[1..]))
    ensures after[0] == ',' ==>
              ParseMembers(MemberLine(key, text, after)) == Cons(Member(key, value), ParseMembers(after[1..]))
  {
    MemberStep(key, UNESCAPED, value, text, after);
    hide ParseMembers, ParseValue;
  }

  lemma FilterLine(f: Filter, text: string, rest: string)
    ensures Front(f) + (PARAMETER + (text + "}")) + rest
         == "{" + MemberLine("type", Bare(Str(FilterType(f))), "," + MemberLine("parameter", text, "}" + rest))
  {
    BareString(FilterType(f));
    hide FilterType, Bare, Print;
    TypeLine(FilterType(f), PARAMETER + (text + "}") + rest);
    assert PARAMETER + (text + "}") + rest == "," + MemberLine("parameter", text, "}" + rest);
  }

  lemma TypeLine(kind: string, more: string)
    ensures "{\"type\":\"" + kind + "\"" + more == "{" + MemberLine("type", "\"" + kind + "\"", more)
  {
  }

  lemma FilterIs(f: Filter, j: Json, rest: string)
    ensures match Cons(Member("type", Str(FilterType(f))), Some(([Member("parameter", j)], rest)))
            case None => false
            case Some((ms, r)) => Obj(ms) == FilterWith(f, j) && r == rest
  {
    hide FilterType;
    assert [Member("type", Str(FilterType(f)))] + [Member("parameter", j)]
        == [Field("type", FilterType(f)), Member("parameter", j)];
  }

  /** The parameter of filter i of an array is read as this value. */
  predicate ItemTaken(fs: seq<Filter>, i: nat, after: string, j: Json)
    requires i < |fs| && FiltersPrintable(fs)
  {
    var rest := "}" + ItemTail(fs, i, after);
    ParseValue(ParameterText(fs[i]) + rest) == Some((j, rest))
  }

  lemma ItemsSplit(fs: seq<Filter>, after: string)
    requires FiltersPrintable(fs)
    ensures PrintItems(FilterItems(fs), UNESCAPED) + after == Bare(FilterJson(fs[0])) + ItemTail(fs, 0, after)
  {
    var items := FilterItems(fs);
    BareItems(items);
    if |fs| > 1 {
      ItemsRest(fs);
    }
    hide FilterPrintable, FilterJson, Bare, PrintItems;
    var more := if |fs| == 1 then "]" else "," + PrintItems(items[1..], UNESCAPED);
    FirstTail(fs, more, after);
    hide ItemTail;
    assert Bare(items[0]) + more + after == Bare(items[0]) + (more + after);
  }

  lemma FirstTaken(fs: seq<Filter>, j: Json, after: string)
    requires FiltersPrintable(fs) && ItemTaken(fs, 0, after, j)
    ensures |fs| > 1 ==> FiltersPrintable(fs[1..])
    ensures ParseItems(PrintItems(FilterItems(fs), UNESCAPED) + after)
         == if |fs| == 1 then Some(([FilterWith(fs[0], j)], after))
            else Cons(FilterWith(fs[0], j), ParseItems(PrintItems(FilterItems(fs[1..]), UNESCAPED) + after))
  {
    var f, rest := fs[0], ItemTail(fs, 0, after);
    ItemsSplit(fs, after);
    FilterTaken(f, j, rest);
    QuoteIsNoSpace();
    TailHead(fs, after);
    hide *;
    ItemStep(FilterWith(f, j), Bare(FilterJson(f)), rest);
  }

  lemma TailHead(fs: seq<Filter>, after: string)
    requires FiltersPrintable(fs)
    ensures |fs| > 1 ==> FiltersPrintable(fs[1..])
    ensures var rest := ItemTail(fs, 0, after);
            rest != ""
            && (if |fs| == 1 then rest[0] == ']' && rest[1..] == after
                else rest[0] == ',' && rest[1..] == PrintItems(FilterItems(fs[1..]), UNESCAPED) + after)
  {
    hide PrintItems, FilterPrintable, FilterItems;
  }

  /** The filters of an array. */
  lemma {:induction false} ItemsTaken(fs: seq<Filter>, js: seq<Json>, after: string)
    requires FiltersPrintable(fs) && |js| == |fs| && forall i :: 0 <= i < |fs| ==> ItemTaken(fs, i, after, js[i])
    ensures ParseItems(PrintItems(FilterItems(fs), UNESCAPED) + after) == Some((FiltersWith(fs, js), after))
  {
    FirstTaken(fs, js[0], after);
    hide ItemTaken, ParseItems, FilterPrintable, PrintItems, FilterWith, FilterItems;
    if |fs| == 1 {
      assert FiltersWith(fs, js) == [FilterWith(fs[0], js[0])];
    } else {
      forall i | 0 <= i < |fs[1..]| ensures ItemTaken(fs[1..], i, after, js[1..][i]) {
        assert ItemTaken(fs, i + 1, after, js[i + 1]);
        TakenRest(fs, i + 1, after, js[i + 1]);
      }
      ItemsTaken(fs[1..], js[1..], after);
      FiltersWithCons(fs, js);
      hide FiltersWith;
    }
  }

  lemma FiltersWithCons(fs: seq<Filter>, js: seq<Json>)
    requires fs != [] && |js| == |fs|
    ensures FiltersWith(fs, js) == [FilterWith(fs[0], js[0])] + FiltersWith(fs[1..], js[1..])
  {
    hide FilterWith;
  }

  lemma TakenRest(fs: seq<Filter>, i: nat, after: string, j: Json)
    requires FiltersPrintable(fs) && 0 < i < |fs| && ItemTaken(fs, i, after, j)
    ensures FiltersPrintable(fs[1..]) && ItemTaken(fs[1..], i - 1, after, j)
  {
    TailRest(fs, i, after);
    hide ItemTail, ParseValue, ParameterText, FilterPrintable;
    assert fs[1..][i - 1] == fs[i];
  }

  /** Each parameter is read as a value, up to the brace of its filter. */
  predicate AllTaken(fs: seq<Filter>, js: seq<Json>, after: string)
    requires FiltersPrintable(fs)
  {
    |js| == |fs| && forall i :: 0 <= i < |fs| ==> Taken(fs, i, after, js[i])
  }

  lemma FiltersTaken(fs: seq<Filter>, js: seq<Json>, after: string)
    requires FiltersPrintable(fs) && AllTaken(fs, js, after)
    ensures ParseValue(Bare(FiltersJson(fs)) + after) == Some((Collapsed(FiltersWith(fs, js)), after))
  {
    hide ParseValue, ParseItems, FilterJson, Bare, PrintItems, FilterWith, FilterPrintable, ParameterText, ItemTail;
    if |fs| == 1 {
      assert Taken(fs, 0, after, js[0]);
      FilterTaken(fs[0], js[0], after);
      assert FiltersWith(fs, js) == [FilterWith(fs[0], js[0])] && FiltersJson(fs) == FilterJson(fs[0]);
    } else {
      forall i | 0 <= i < |fs| ensures ItemTaken(fs, i, after, js[i]) {
        assert Taken(fs, i, after, js[i]);
      }
      ItemsTaken(fs, js, after);
      hide ItemTaken, Taken, AllTaken;
      ArrayText(FilterItems(fs), after);
      ArrayParsed(PrintItems(FilterItems(fs), UNESCAPED) + after, FiltersWith(fs, js), after);
      assert FiltersJson(fs) == Arr(FilterItems(fs));
    }
  }

  lemma ArrayText(items: seq<Json>, after: string)
    requires items != []
    ensures Bare(Arr(items)) + after == "[" + (PrintItems(items, UNESCAPED) + after)
  {
    BareArray(items);
    hide Bare, PrintItems;
  }

  lemma ArrayParsed(text: string, items: seq<Json>, after: string)
    requires ParseItems(text) == Some((items, after))
    ensures ParseValue("[" + text) == Some((Arr(items), after))
  {
    var t := "[" + text;
    BracketParsed(t);
    assert t[1..] == text;
    NoItemsEmpty(text);
    hide ParseValue, ParseItems, Skip;
  }

  lemma NoItemsEmpty(text: string)
    requires ParseItems(text).Some?
    ensures Skip(text) != "" && Skip(text)[0] != ']' && ParseItems(Skip(text)) == ParseItems(text)
  {
    SkipAgain(text);
    NoLiteral(Skip(text));
    hide Skip, ParseLiteral;
  }

  lemma NoLiteral(t: string)
    ensures t != "" && t[0] == ']' ==> ParseLiteral(t) == None
  {
    if t != "" && t[0] == ']' {
      assert t[..0] == "";
      EmptyIsNoLiteral();
    }
    hide IsLiteral;
  }

  /** The members of a request whose filter is read as this value. */
  function MembersWith(m: Request, filter: Option<Json>): seq<Member> {
    [Field("action", m.action), Field("path", m.path)]
    + (match filter case None => [] case Some(j) => [Member("filter", j)])
    + OptField("authorization", Get(m.authorization, "")) + OptField("requestId", Get(m.requestId, ""))
  }

  lemma AfterParsed(m: Request)
    requires TextsRaw(m)
    ensures var after := After(m);
            after != ""
            && (if OptMembers(m) == [] then after[0] == '}' && after[1..] == ""
                else after[0] == ',' && ParseMembers(after[1..]) == Some((OptMembers(m), "")))
  {
    var opts := OptMembers(m);
    KeysRaw();
    assert forall i :: 0 <= i < |opts| ==> RawText(opts[i].key) && Raw(opts[i].value);
    hide RawText, ParseMembers, OptMembers;
    if opts == [] {
      Headed("}", "");
      assert "}" + "" == "}";
    } else {
      MembersRoundTrip(opts, UNESCAPED, "");
      assert PrintMembers(opts, UNESCAPED) + "" == PrintMembers(opts, UNESCAPED);
      hide PrintMembers;
      Headed(",", PrintMembers(opts, UNESCAPED));
    }
  }

  lemma KeysRaw()
    ensures RawText("action") && RawText("path") && RawText("filter")
    ensures RawText("authorization") && RawText("requestId")
  {
    LettersRaw("action");
    LettersRaw("path");
    LettersRaw("filter");
    LettersRaw("authorization");
    LettersRaw("requestId");
    hide RawText;
  }

  lemma FilterLineIs(value: string, after: string)
    ensures "\"filter\":" + (value + after) == MemberLine("filter", value, after)
  {
    assert "\"filter\":" == "\"" + ("filter" + "\"") + ":";
  }

  lemma MemberBareLine(key: string, value: Json, more: string)
    ensures MemberBare(Member(key, value)) + ("," + more) == MemberLine(key, Bare(value), "," + more)
  {
    hide Bare, Print;
  }

  /** The text of a request with filters, member by member. */
  function RequestLine(m: Request, filters: string): string {
    MemberLine("action", Bare(Str(m.action)),
               "," + MemberLine("path", Bare(Str(m.path)), "," + MemberLine("filter", filters, After(m))))
  }

  lemma RequestLineIs(m: Request, filters: string)
    ensures "{" + (Lead(m) + (filters + After(m))) == "{" + RequestLine(m, filters)
  {
    hide Bare, After, MemberLine, MemberBare;
    var a, p, f := MemberBare(Field("action", m.action)), MemberBare(Field("path", m.path)), filters + After(m);
    FilterLineIs(filters, After(m));
    MemberBareLine("path", Str(m.path), MemberLine("filter", filters, After(m)));
    MemberBareLine("action", Str(m.action), MemberLine("path", Bare(Str(m.path)),
                                                        "," + MemberLine("filter", filters, After(m))));
    assert a + "," + (p + "," + "\"filter\":") + f == a + ("," + (p + ("," + ("\"filter\":" + f))));
  }

  lemma LineParsed(m: Request, filters: string, filter: Json)
    requires TextsRaw(m) && ParseValue(filters + After(m)) == Some((filter, After(m)))
    ensures ParseMembers(RequestLine(m, filters)) == Some((MembersWith(m, Some(filter)), ""))
  {
    AfterParsed(m);
    KeysRaw();
    QuoteIsNoSpace();
    TextsAre(m);
    hide *;
    var after, third := After(m), MemberLine("filter", filters, After(m));
    RawMember("filter", filter, filters, after);
    Headed(",", third);
    var second := MemberLine("path", Bare(Str(m.path)), "," + third);
    RawString(m.path, "," + third);
    RawMember("path", Str(m.path), Bare(Str(m.path)), "," + third);
    Headed(",", second);
    RawString(m.action, "," + second);
    RawMember("action", Str(m.action), Bare(Str(m.action)), "," + second);
    LineIs(m, filters);
    MembersAre(m, filter);
  }

  lemma TextsAre(m: Request)
    requires TextsRaw(m)
    ensures RawText(m.action) && RawText(m.path)
  {
  }

  lemma LineIs(m: Request, filters: string)
    ensures RequestLine(m, filters)
         == MemberLine("action", Bare(Str(m.action)),
                       "," + MemberLine("path", Bare(Str(m.path)), "," + MemberLine("filter", filters, After(m))))
  {
    hide MemberLine, Bare, After;
  }

  lemma MembersAre(m: Request, filter: Json)
    ensures var f := if OptMembers(m) == [] then Some(([Member("filter", filter)], ""))
                     else Cons(Member("filter", filter), Some((OptMembers(m), "")));
            Cons(Member("action", Str(m.action)), Cons(Member("path", Str(m.path)), f))
            == Some((MembersWith(m, Some(filter)), ""))
  {
    hide OptField;
    var a, p, f := Member("action", Str(m.action)), Member("path", Str(m.path)), Member("filter", filter);
    assert [a] + ([p] + ([f] + OptMembers(m))) == MembersWith(m, Some(filter));
    assert OptMembers(m) == [] ==> [f] == [f] + OptMembers(m);
  }

  /** What the text of a request with filters is parsed to. */
  lemma RequestTaken(m: Request, js: seq<Json>)
    requires m.filter.Some? && FiltersPrintable(m.filter.value) && TextsRaw(m)
    requires AllTaken(m.filter.value, js, After(m))
    ensures RequestJson(m).Some?
    ensures Unmarshal(Bare(RequestJson(m).value))
         == Some(MembersWith(m, Some(Collapsed(FiltersWith(m.filter.value, js)))))
  {
    var fs := m.filter.value;
    RequestText(m);
    FiltersTaken(fs, js, After(m));
    hide *;
    var filters, filter := Bare(FiltersJson(fs)), Collapsed(FiltersWith(fs, js));
    LineParsed(m, filters, filter);
    RequestLineIs(m, filters);
    RequestLineStarts(m, filters);
    BraceParsed(RequestLine(m, filters));
    WholeParsed("{" + RequestLine(m, filters), MembersWith(m, Some(filter)));
  }

  lemma RequestLineStarts(m: Request, filters: string)
    ensures RequestLine(m, filters) != "" && RequestLine(m, filters)[0] == QUOTE
  {
    hide Bare, After;
  }

  lemma WholeParsed(text: string, ms: seq<Member>)
    requires ParseValue(text) == Some((Obj(ms), ""))
    ensures Unmarshal(text) == Some(ms)
  {
    hide ParseValue;
  }

  lemma NoFilterTaken(m: Request)
    requires m.filter.None? && TextsRaw(m)
    ensures RequestJson(m).Some? && Unmarshal(Bare(RequestJson(m).value)) == Some(MembersWith(m, None))
  {
    KeysRaw();
    var ms := RequestJson(m).value.members;
    assert ms == MembersWith(m, None);
    assert forall i :: 0 <= i < |ms| ==> RawText(ms[i].key) && Raw(ms[i].value);
    hide RawText, OptField, Unmarshal;
    UnmarshalPrinted(RequestJson(m).value);
  }

  /** How the members are read. */
  lemma MembersRead(m: Request, filter: Option<Json>)
    requires filter.Some? ==> !filter.value.Lit?
    ensures ReadRequest(m.action, MembersWith(m, filter))
         == match ReadFilters(filter)
            case None => None
            case Some(fs) => Some(NormRequest(m).(filter := fs))
  {
    hide Lookup, OptField, ReadFilters;
    var action, path := Field("action", m.action), Field("path", m.path);
    var middle := match filter case None => [] case Some(j) => [Member("filter", j)];
    var auth, requestId := Get(m.authorization, ""), Get(m.requestId, "");
    var members := MembersWith(m, filter);
    forall key: string
      ensures Lookup(members, key)
           == if key == "requestId" && requestId != "" then Some(Str(requestId))
              else if key == "authorization" && auth != "" then Some(Str(auth))
              else if key == "filter" && filter.Some? then filter
              else if key == "path" then Some(Str(m.path)) else if key == "action" then Some(Str(m.action)) else None
    {
      LookupParts([action, path] + middle, "authorization", auth, "requestId", requestId, key);
      LookupAppend([action, path], middle, key);
      LookupTwo(action, path, key);
      LookupNothing(key);
      if filter.Some? {
        LookupOne(middle[0], key);
      }
    }
  }

  /** What a request is read back as, when each parameter is read as a value in its place: with a range filter, or
      with a dynamic metadata filter whose text is no JSON string, reading fails; of static metadata only the type is
      left; three or more filters are silently dropped. */
  lemma RequestReads(m: Request, js: seq<Json>)
    requires TextsRaw(m)
    requires m.filter.Some? ==>
               FiltersPrintable(m.filter.value) && AllTaken(m.filter.value, js, After(m))
               && forall i :: 0 <= i < |js| ==> IsRaw(m.filter.value[i]) || js[i] == ParameterJson(m.filter.value[i])
    ensures RequestOverWire(m)
         == if m.filter.None? then Some(NormRequest(m))
            else
              match FiltersBack(m.filter.value, js)
              case None => None
              case Some(fs) => Some(NormRequest(m).(filter := fs))
  {
    hide ReadRequest, ReadFilters, NormRequest, Taken, MembersWith, Unmarshal, FiltersBack, IsRaw, RequestJson;
    if m.filter.None? {
      NoFilterTaken(m);
      MembersRead(m, None);
      NothingRead();
      NormIsItself(m);
    } else {
      RequestTaken(m, js);
      FiltersRead(m.filter.value, js);
      MembersRead(m, Some(Collapsed(FiltersWith(m.filter.value, js))));
    }
  }

  lemma NothingRead()
    ensures ReadFilters(None) == Some(None)
  {
  }

  lemma NormIsItself(m: Request)
    ensures NormRequest(m).(filter := m.filter) == NormRequest(m)
  {
  }

  /** A parameter that needs no escape is read as it is. */
  lemma TakenItself(fs: seq<Filter>, i: nat, after: string)
    requires FiltersPrintable(fs) && i < |fs| && Raw(ParameterJson(fs[i]))
    ensures Taken(fs, i, after, ParameterJson(fs[i]))
  {
    ValueRoundTrip(ParameterJson(fs[i]), UNESCAPED, "}" + Tail(fs, i, after));
    hide ParseValue, Tail, Print, ParameterJson;
  }
}
