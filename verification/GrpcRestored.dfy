/** Which requests come back from their own text: an exact condition. */
module GrpcRestored {
  import opened Text
  import opened Json
  import opened JsonTexts
  import opened Grpc
  import opened GrpcRoundTrip
  import opened GrpcRequests

  /** A filter that the reader gives back. */
  predicate Kept(f: Filter) {
    !f.Range? && !IsRaw(f)
  }

  // ---------------------------------------------------------------- what a reader needs

  lemma CostOf(ms: seq<Member>, key: string, value: Json)
    requires Lookup(ms, key) == Some(value)
    ensures Weights(ms) >= Weight(Member(key, value))
  {
    CostsFit(ms, [key]);
    assert [key][1..] == [];
    hide Weight, Lookup;
  }

  lemma CostOfTwo(ms: seq<Member>, k1: string, v1: Json, k2: string, v2: Json)
    requires k1 != k2 && Lookup(ms, k1) == Some(v1) && Lookup(ms, k2) == Some(v2)
    ensures Weights(ms) >= Weight(Member(k1, v1)) + Weight(Member(k2, v2))
  {
    CostsFit(ms, [k1, k2]);
    assert [k1, k2][1..] == [k2] && [k2][1..] == [];
    hide Weight, Lookup;
  }

  lemma WeightsTwo(m: Member, n: Member)
    ensures Weights([m, n]) == Weight(m) + Weight(n)
  {
    assert [m, n] == [m] + [n];
    WeightsAppend([m], [n]);
    WeightsOne(m);
    WeightsOne(n);
  }

  lemma NotEmpty(ms: seq<Member>, key: string)
    requires Lookup(ms, key).Some?
    ensures ms != []
  {
  }

  /** An object that holds these two entries is at least as long as the one with just them. */
  lemma PairWeight(ms: seq<Member>, k1: string, v1: Json, k2: string, v2: Json)
    requires k1 != k2 && Lookup(ms, k1) == Some(v1) && Lookup(ms, k2) == Some(v2)
    ensures |Bare(Obj(ms))| >= |Bare(Obj([Member(k1, v1), Member(k2, v2)]))|
  {
    CostOfTwo(ms, k1, v1, k2, v2);
    NotEmpty(ms, k1);
    WeightsTwo(Member(k1, v1), Member(k2, v2));
    ObjectWeight(ms);
    ObjectWeight([Member(k1, v1), Member(k2, v2)]);
    hide Bare, Weight, Weights, Lookup;
  }

  lemma OneWeight(ms: seq<Member>, key: string, value: Json)
    requires Lookup(ms, key) == Some(value)
    ensures |Bare(Obj(ms))| >= |Bare(Obj([Member(key, value)]))|
  {
    CostOf(ms, key, value);
    NotEmpty(ms, key);
    WeightsOne(Member(key, value));
    ObjectWeight(ms);
    ObjectWeight([Member(key, value)]);
    hide Bare, Weight, Weights, Lookup;
  }

  lemma {:induction false} StringsAre(items: seq<Json>)
    requires ReadStrings(items).Some?
    ensures items == TextsJson(ReadStrings(items).value)
  {
    if items == [] {
      assert TextsJson([]) == [];
    } else {
      var n := |items| - 1;
      StringsAre(items[..n]);
      assert items == items[..n] + [items[n]];
    }
  }

  lemma OneBare(item: Json)
    ensures |Bare(Arr([item]))| == |Bare(item)| + 2
  {
    OneItem(item);
    BareArray([item]);
    hide Bare;
  }

  lemma PathsWeight(parameter: Option<Json>, relative: seq<string>)
    requires ReadPaths(parameter) == Some(Paths(relative)) && relative != []
    ensures parameter.Some? && |Bare(parameter.value)| >= |Bare(Collapsed(TextsJson(relative)))|
    ensures Raw(parameter.value) ==> Raw(Collapsed(TextsJson(relative)))
  {
    StringsAre(Spread(parameter));
    hide Bare, ReadStrings;
    var items := Spread(parameter);
    if parameter.value.Arr? && |items| == 1 {
      OneBare(items[0]);
      assert parameter.value == Arr([items[0]]) && Collapsed(TextsJson(relative)) == items[0];
    }
  }

  lemma RangeWeight(j: Json)
    requires ReadRange(j).Some?
    ensures var r := ReadRange(j).value;
            |Bare(j)| > |Bare(Obj([Field("logic-op", r.logicOp), Field("boundary", r.boundary)]))|
  {
    var r := ReadRange(j).value;
    var op, boundary := Str(r.logicOp), Str(r.boundary);
    assert "boundary-op" != "boundary";
    hide Bare, Lookup;
    PairWeight(j.members, "boundary-op", op, "boundary", boundary);
    WeightsTwo(Field("logic-op", r.logicOp), Field("boundary", r.boundary));
    WeightsTwo(Member("boundary-op", op), Field("boundary", r.boundary));
    ObjectWeight([Field("logic-op", r.logicOp), Field("boundary", r.boundary)]);
    ObjectWeight([Member("boundary-op", op), Field("boundary", r.boundary)]);
    hide Weights;
  }

  /** The items of a list add up. */
  function Sizes(items: seq<Json>): nat {
    if items == [] then 0 else Sizes(items[..|items| - 1]) + |Bare(items[|items| - 1])| + 1
  }

  lemma {:induction false} SizesHead(items: seq<Json>)
    requires items != []
    ensures Sizes(items) == |Bare(items[0])| + 1 + Sizes(items[1..])
  {
    hide Bare;
    var n := |items| - 1;
    if n == 0 {
      assert items[..0] == [] && items[1..] == [];
    } else {
      SizesHead(items[..n]);
      assert items[..n][1..] == items[1..][..n - 1];
    }
  }

  lemma {:induction false} SizesPrinted(items: seq<Json>)
    requires items != []
    ensures |PrintItems(items, UNESCAPED)| == Sizes(items)
  {
    BareItems(items);
    SizesHead(items);
    hide Bare, PrintItems;
    if |items| > 1 {
      SizesPrinted(items[1..]);
    } else {
      assert items[1..] == [] && Sizes([]) == 0;
    }
  }

  lemma {:induction false} RangesWeight(items: seq<Json>)
    requires ReadRanges(items).Some?
    ensures |ReadRanges(items).value| == |items|
    ensures Sizes(items) >= Sizes(RangesJson(ReadRanges(items).value)) + |items|
  {
    hide ReadRange, Bare;
    if items != [] {
      var n := |items| - 1;
      var bounds := ReadRanges(items).value;
      RangesWeight(items[..n]);
      RangeWeight(items[n]);
      assert RangesJson(bounds)[..n] == RangesJson(bounds[..n]) && bounds[..n] == ReadRanges(items[..n]).value;
    }
  }

  lemma ArrayWeight(items: seq<Json>)
    requires items != []
    ensures |Bare(Arr(items))| == 1 + Sizes(items)
  {
    SizesPrinted(items);
    BareArray(items);
    hide Bare, PrintItems;
  }

  /** A range parameter that is read as these bounds is longer than the one that is printed for them. */
  lemma BoundsWeight(parameter: Option<Json>, bounds: seq<RangeValue>)
    requires ReadBounds(parameter) == Some(Range(bounds)) && bounds != [] && bounds != [RangeValue("", "")]
    ensures parameter.Some? && |Bare(parameter.value)| > |Bare(Collapsed(RangesJson(bounds)))|
  {
    var items := Spread(parameter);
    RangesWeight(items);
    hide Bare, ReadRanges;
    if parameter.value.Arr? {
      ArrayWeight(items);
    }
    if |bounds| > 1 {
      ArrayWeight(RangesJson(bounds));
    }
    SizesHead(items);
    SizesHead(RangesJson(bounds));
    hide Sizes;
    if |bounds| == 1 {
      assert items[1..] == [] && RangesJson(bounds)[1..] == [];
      SizesNothing();
    }
  }

  lemma SizesNothing()
    ensures Sizes([]) == 0
  {
  }

  lemma KindAndParameter(f: Filter, j: Json)
    requires ReadFilter(j) == Some(f)
    ensures j.Obj? && Lookup(j.members, "type").Some? && Lookup(j.members, "type").value.Str?
    ensures !f.StaticMetadata? && !f.Undefined? ==> Lookup(j.members, "type") == Some(Str(FilterType(f)))
    ensures f.StaticMetadata? ==> f.tree == ""
    ensures f.DynamicMetadata? ==> Lookup(j.members, "parameter") == Some(Str(f.domain))
    ensures f.Paths? ==> ReadPaths(Lookup(j.members, "parameter")) == Some(f)
    ensures f.Range? ==> ReadBounds(Lookup(j.members, "parameter")) == Some(f)
  {
    hide Lookup, ReadPaths, ReadBounds;
    KindIs(j.members, Lookup(j.members, "type").value.text, f);
  }

  lemma KindIs(ms: seq<Member>, kind: string, f: Filter)
    requires Lookup(ms, "type") == Some(Str(kind)) && ReadFilter(Obj(ms)) == Some(f)
    ensures !f.StaticMetadata? && !f.Undefined? ==> kind == FilterType(f)
    ensures f.StaticMetadata? ==> f.tree == ""
    ensures f.DynamicMetadata? ==> Lookup(ms, "parameter") == Some(Str(f.domain))
    ensures f.Paths? ==> ReadPaths(Lookup(ms, "parameter")) == Some(f)
    ensures f.Range? ==> ReadBounds(Lookup(ms, "parameter")) == Some(f)
  {
    var parameter := Lookup(ms, "parameter");
    PathsAndBounds(parameter);
    hide Lookup, ReadPaths, ReadBounds;
    assert parameter == Lookup(ms, "parameter");
  }

  lemma PathsAndBounds(parameter: Option<Json>)
    ensures ReadPaths(parameter).Some? ==> ReadPaths(parameter).value.Paths?
    ensures ReadBounds(parameter).Some? ==> ReadBounds(parameter).value.Range?
  {
    hide ReadStrings, ReadRanges, Spread;
  }

  lemma KindsDiffer()
    ensures "paths" != "timebased" && "paths" != "range" && "paths" != "change" && "paths" != "curvelog"
    ensures "paths" != "history" && "paths" != "dynamic-metadata" && "paths" != "static-metadata"
    ensures "type" != "parameter" && "logic-op" != "diff" && "maxerr" != "bufsize" && "logic-op" != "boundary"
  {
    assert "paths"[0] == 'p' && "timebased"[0] == 't' && "range"[0] == 'r';
    assert "change"[0] == 'c' && "curvelog"[0] == 'c';
    assert "history"[0] == 'h' && "dynamic-metadata"[0] == 'd' && "static-metadata"[0] == 's' && "type"[0] == 't';
    assert "parameter"[0] == 'p' && "logic-op"[0] == 'l' && "diff"[0] == 'd' && "maxerr"[0] == 'm';
    assert "bufsize"[0] == 'b' && "boundary"[0] == 'b';
  }

  lemma {:induction false} LookupRaw(ms: seq<Member>, key: string)
    requires Raw(Obj(ms)) && Lookup(ms, key).Some?
    ensures Raw(Lookup(ms, key).value)
  {
    var n := |ms| - 1;
    if ms[n].key != key {
      assert Raw(Obj(ms[..n]));
      LookupRaw(ms[..n], key);
    }
  }

  /** A parameter that is read as a filter is at least as long as the printed one, and longer for ranges and dynamic
      metadata. */
  lemma ParameterWeight(f: Filter, j: Json)
    requires ReadFilter(j) == Some(f) && FilterPrintable(f) && !f.StaticMetadata? && !f.Undefined?
    requires f != Range([RangeValue("", "")])
    ensures j.Obj? && Lookup(j.members, "parameter").Some?
    ensures var p := Lookup(j.members, "parameter").value;
            && |Bare(p)| >= |Bare(ParameterJson(f))| + (if Kept(f) then 0 else 1)
            && (Kept(f) && Raw(p) ==> Raw(ParameterJson(f)))
  {
    KindAndParameter(f, j);
    KindsDiffer();
    hide Lookup, ReadPaths, ReadBounds, Bare;
    match f
    case Paths(relative) =>
      PathsWeight(Lookup(j.members, "parameter"), relative);
    case Timebased(period) =>
      PeriodWeight(j, period);
    case Range(bounds) =>
      BoundsWeight(Lookup(j.members, "parameter"), bounds);
    case Change(op, diff) =>
      ChangeWeight(j, op, diff);
    case Curvelog(maxErr, bufSize) =>
      CurvelogWeight(j, maxErr, bufSize);
    case History(period) =>
      HistoryWeight(j, period);
    case DynamicMetadata(domain) =>
      DomainWeight(domain);
  }

  lemma DomainWeight(domain: string)
    ensures |Bare(Str(domain))| == |Bare(Lit(domain))| + 2
  {
  }

  lemma HistoryWeight(j: Json, period: string)
    requires ReadFilter(j) == Some(History(period))
    ensures Lookup(j.members, "parameter") == Some(Str(period))
  {
    KindAndParameter(History(period), j);
    hide Lookup, ReadPaths, ReadBounds;
  }

  lemma PeriodWeight(j: Json, period: string)
    requires ReadFilter(j) == Some(Timebased(period))
    ensures Lookup(j.members, "parameter").Some?
    ensures var p := Lookup(j.members, "parameter").value;
            |Bare(p)| >= |Bare(Obj([Field("period", period)]))| && (Raw(p) ==> Raw(Obj([Field("period", period)])))
  {
    KindAndParameter(Timebased(period), j);
    hide Lookup, ReadPaths, ReadBounds, Bare;
    var ms := Lookup(j.members, "parameter").value.members;
    OneWeight(ms, "period", Str(period));
    LettersRaw("period");
    if Raw(Obj(ms)) {
      LookupRaw(ms, "period");
    }
  }

  lemma ChangeWeight(j: Json, op: string, diff: string)
    requires ReadFilter(j) == Some(Change(op, diff))
    ensures Lookup(j.members, "parameter").Some?
    ensures var p, q := Lookup(j.members, "parameter").value, Obj([Field("logic-op", op), Field("diff", diff)]);
            |Bare(p)| >= |Bare(q)| && (Raw(p) ==> Raw(q))
  {
    KindAndParameter(Change(op, diff), j);
    KindsDiffer();
    hide Lookup, ReadPaths, ReadBounds, Bare;
    var ms := Lookup(j.members, "parameter").value.members;
    PairWeight(ms, "logic-op", Str(op), "diff", Str(diff));
    if Raw(Obj(ms)) {
      LookupRaw(ms, "logic-op");
      LookupRaw(ms, "diff");
    }
  }

  lemma CurvelogWeight(j: Json, maxErr: string, bufSize: string)
    requires ReadFilter(j) == Some(Curvelog(maxErr, bufSize))
    ensures Lookup(j.members, "parameter").Some?
    ensures var p := Lookup(j.members, "parameter").value;
            var q := Obj([Field("maxerr", maxErr), Field("bufsize", bufSize)]);
            |Bare(p)| >= |Bare(q)| && (Raw(p) ==> Raw(q))
  {
    KindAndParameter(Curvelog(maxErr, bufSize), j);
    KindsDiffer();
    hide Lookup, ReadPaths, ReadBounds, Bare;
    var ms := Lookup(j.members, "parameter").value.members;
    PairWeight(ms, "maxerr", Str(maxErr), "bufsize", Str(bufSize));
    LettersRaw("maxerr");
    LettersRaw("bufsize");
    if Raw(Obj(ms)) {
      LookupRaw(ms, "maxerr");
      LookupRaw(ms, "bufsize");
    }
  }

  /** The same for a filter. */
  lemma FilterWeight(f: Filter, j: Json)
    requires ReadFilter(j) == Some(f) && FilterPrintable(f) && !f.StaticMetadata? && !f.Undefined?
    requires f != Range([RangeValue("", "")])
    ensures |Bare(j)| >= |Bare(FilterJson(f))| + (if Kept(f) then 0 else 1)
    ensures Kept(f) && Raw(j) ==> Raw(ParameterJson(f))
  {
    KindAndParameter(f, j);
    ParameterWeight(f, j);
    KindsDiffer();
    hide Lookup, Bare, ReadFilter, ParameterJson, FilterType;
    var kind, p := Str(FilterType(f)), Lookup(j.members, "parameter").value;
    PairWeight(j.members, "type", kind, "parameter", p);
    WeightsTwo(Member("type", kind), Member("parameter", p));
    WeightsTwo(Member("type", kind), Member("parameter", ParameterJson(f)));
    ObjectWeight([Member("type", kind), Member("parameter", p)]);
    ObjectWeight([Member("type", kind), Member("parameter", ParameterJson(f))]);
    hide Weights;
    if Raw(j) {
      LookupRaw(j.members, "parameter");
    }
  }

  /** What is read as one or two filters. */
  lemma FiltersAre(j: Json, fs: seq<Filter>)
    requires ReadFilters(Some(j)) == Some(Some(fs))
    ensures (j.Obj? && |fs| == 1 && ReadFilter(j) == Some(fs[0]))
            || (j.Arr? && |j.items| == |fs| == 2 && ReadFilter(j.items[0]) == Some(fs[0])
                && ReadFilter(j.items[1]) == Some(fs[1]))
  {
    hide ReadFilter;
  }

  predicate Weighable(f: Filter) {
    !f.StaticMetadata? && !f.Undefined? && f != Range([RangeValue("", "")])
  }

  lemma FiltersWeight(j: Json, fs: seq<Filter>)
    requires ReadFilters(Some(j)) == Some(Some(fs)) && FiltersPrintable(fs)
    requires forall i :: 0 <= i < |fs| ==> Weighable(fs[i])
    ensures |Bare(j)| >= |Bare(FiltersJson(fs))|
    ensures (exists i :: 0 <= i < |fs| && !Kept(fs[i])) ==> |Bare(j)| > |Bare(FiltersJson(fs))|
    ensures (forall i :: 0 <= i < |fs| ==> Kept(fs[i])) && Raw(j) ==>
              forall i :: 0 <= i < |fs| ==> Raw(ParameterJson(fs[i]))
  {
    FiltersAre(j, fs);
    hide Bare, ReadFilter, ReadFilters, FilterPrintable, Kept, ParameterJson, FilterJson;
    if |fs| == 1 {
      FilterWeight(fs[0], j);
      assert FiltersJson(fs) == FilterJson(fs[0]);
    } else {
      FilterWeight(fs[0], j.items[0]);
      FilterWeight(fs[1], j.items[1]);
      TwoSizes(j.items);
      TwoSizes(FilterItems(fs));
      assert FiltersJson(fs) == Arr(FilterItems(fs)) && j == Arr(j.items);
    }
  }

  lemma TwoSizes(items: seq<Json>)
    requires |items| == 2
    ensures |Bare(Arr(items))| == |Bare(items[0])| + |Bare(items[1])| + 3
  {
    hide Bare;
    ArrayWeight(items);
    SizesHead(items);
    SizesHead(items[1..]);
    assert items[1..][1..] == [];
    SizesNothing();
  }

  // ---------------------------------------------------------------- the whole request

  function PrintedFilter(m: Request): Option<Json>
    requires m.filter.Some? ==> FiltersPrintable(m.filter.value)
  {
    if m.filter.Some? then Some(FiltersJson(m.filter.value)) else None
  }

  lemma PrintedMembers(m: Request)
    requires RequestJson(m).Some?
    ensures m.filter.Some? ==> FiltersPrintable(m.filter.value)
    ensures RequestJson(m).value == Obj(MembersWith(m, PrintedFilter(m)))
  {
    hide FiltersPrintable, FiltersJson, OptField;
  }

  /** The members behind the action. */
  function Others(m: Request, filter: Option<Json>): seq<Member> {
    [Field("path", m.path)] + (match filter case None => [] case Some(j) => [Member("filter", j)]) + OptMembers(m)
  }

  lemma ActionAndOthers(m: Request, filter: Option<Json>)
    ensures MembersWith(m, filter) == [Field("action", m.action)] + Others(m, filter)
  {
    hide OptField;
  }

  /** However the text is parsed, its action comes first. */
  lemma ActionFirst(action: string, others: seq<Member>, ms: seq<Member>)
    requires RawText(action) && others != []
    requires Unmarshal(Bare(Obj([Field("action", action)] + others))) == Some(ms)
    ensures ms != [] && ms[0] == Field("action", action)
  {
    var a, rest := Field("action", action), PrintMembers(others, UNESCAPED);
    MoreMembers(a, others);
    BareObject([a] + others);
    ObjectUnmarshalled(Bare(Obj([a] + others)), ms);
    KeysRaw();
    QuoteIsNoSpace();
    hide *;
    MemberBareLine("action", Str(action), rest);
    Headed(",", rest);
    RawString(action, "," + rest);
    RawMember("action", Str(action), Bare(Str(action)), "," + rest);
    var line := MemberLine("action", Bare(Str(action)), "," + rest);
    LineStarts("action", Bare(Str(action)), "," + rest);
    BraceParsed(line);
    ActionText(a, rest, line);
    ConsFirst(a, ParseMembers(rest), ms);
  }

  lemma ActionText(a: Member, rest: string, line: string)
    requires MemberBare(a) + ("," + rest) == line
    ensures "{" + (MemberBare(a) + "," + rest) == "{" + line
  {
    hide MemberBare;
  }

  lemma ConsFirst(a: Member, o: Option<(seq<Member>, string)>, ms: seq<Member>)
    requires match Cons(a, o) case None => false case Some((xs, _)) => xs == ms
    ensures ms != [] && ms[0] == a
  {
  }

  lemma ObjectUnmarshalled(text: string, ms: seq<Member>)
    requires Unmarshal(text) == Some(ms)
    ensures match ParseValue(text) case None => false case Some((j, _)) => j == Obj(ms)
    ensures Parse(text) == Some(Obj(ms))
  {
    hide ParseValue;
  }

  const KEYS := ["path", "filter", "authorization", "requestId"]

  lemma KeysDistinct()
    ensures Distinct(KEYS) && "action" !in KEYS
  {
    assert "path"[0] == 'p' && "filter"[0] == 'f' && "authorization"[0] == 'a' && "requestId"[0] == 'r';
    assert "action"[1] == 'c' && "authorization"[1] == 'u';
  }

  lemma FourCosts(ms: seq<Member>)
    ensures Costs(ms, KEYS)
         == Cost(ms, "path") + (Cost(ms, "filter") + (Cost(ms, "authorization") + Cost(ms, "requestId")))
  {
    hide Cost;
    var k1, k2, k3 := KEYS[1..], KEYS[2..], KEYS[3..];
    assert k1[1..] == k2 && k2[1..] == k3 && k3[1..] == [];
    assert KEYS[0] == "path" && k1[0] == "filter" && k2[0] == "authorization" && k3[0] == "requestId";
    assert Costs(ms, k3) == Cost(ms, "requestId") + Costs(ms, []);
    assert Costs(ms, k2) == Cost(ms, "authorization") + Costs(ms, k3);
    assert Costs(ms, k1) == Cost(ms, "filter") + Costs(ms, k2);
  }

  /** The entries besides the action. */
  lemma CostsBehind(ms: seq<Member>, keys: seq<string>)
    requires ms != [] && ms[0].key == "action" && Distinct(keys) && "action" !in keys
    ensures Weights(ms) >= Weight(ms[0]) + Costs(ms, keys)
  {
    CostsFit(ms[1..], keys);
    SameCosts(ms, keys);
    hide Weight;
  }

  lemma {:induction false} SameCosts(ms: seq<Member>, keys: seq<string>)
    requires ms != [] && ms[0].key !in keys
    ensures Costs(ms, keys) == Costs(ms[1..], keys)
  {
    hide Weight;
    if keys != [] {
      assert keys[0] in keys && forall k :: k in keys[1..] ==> k in keys;
      assert ms == [ms[0]] + ms[1..];
      LookupAppend([ms[0]], ms[1..], keys[0]);
      LookupOne(ms[0], keys[0]);
      hide Lookup;
      SameCosts(ms, keys[1..]);
    }
  }

  /** A text that starts with an action leaves just the room of its other members for what is read from it. If that is
      all taken, no string needs an escape. */
  lemma RoomBehind(action: string, others: seq<Member>, ms: seq<Member>, keys: seq<string>)
    requires RawText(action) && others != [] && Distinct(keys) && "action" !in keys
    requires Unmarshal(Bare(Obj([Field("action", action)] + others))) == Some(ms)
    ensures Costs(ms, keys) <= Weights(others)
    ensures Costs(ms, keys) == Weights(others) ==> Raw(Obj(ms))
  {
    var a := Field("action", action);
    var text := Bare(Obj([a] + others));
    ActionFirst(action, others, ms);
    ObjectUnmarshalled(text, ms);
    hide Unmarshal, Parse, Bare, Weight, Raw;
    ParsedFits(text);
    CostsBehind(ms, keys);
    ObjectWeight(ms);
    ObjectWeight([a] + others);
    WeightsAppend([a], others);
    WeightsOne(a);
    hide Weights, Costs;
  }

  function OptCost(key: string, value: string): nat {
    if value == "" then 0 else Weight(Field(key, value))
  }

  lemma OptWeights(key: string, value: string)
    ensures Weights(OptField(key, value)) == OptCost(key, value)
  {
    if value != "" {
      WeightsOne(Field(key, value));
    }
    hide Weight;
  }

  lemma OthersWeight(m: Request, filter: Option<Json>)
    ensures Weights(Others(m, filter))
         == Weight(Field("path", m.path)) + (match filter case None => 0 case Some(j) => Weight(Member("filter", j)))
            + OptCost("authorization", Get(m.authorization, "")) + OptCost("requestId", Get(m.requestId, ""))
  {
    hide Weight, OptCost, OptField;
    var p := Field("path", m.path);
    var middle := match filter case None => [] case Some(j) => [Member("filter", j)];
    var o1 := OptField("authorization", Get(m.authorization, ""));
    var o2 := OptField("requestId", Get(m.requestId, ""));
    WeightsAppend([p] + middle, o1 + o2);
    WeightsAppend(o1, o2);
    WeightsAppend([p], middle);
    WeightsOne(p);
    OptWeights("authorization", Get(m.authorization, ""));
    OptWeights("requestId", Get(m.requestId, ""));
    if filter.Some? {
      WeightsOne(Member("filter", filter.value));
    }
    hide Weights;
  }

  /** What the reader has found in a text that is read back as the request. */
  lemma ReadParts(m: Request, ms: seq<Member>)
    requires ReadRequest(m.action, ms) == Some(NormRequest(m))
    ensures Lookup(ms, "path") == Some(Str(m.path))
    ensures ReadFilters(Entry(ms, "filter")) == Some(m.filter)
    ensures Get(m.authorization, "") != "" ==> Lookup(ms, "authorization") == Some(Str(Get(m.authorization, "")))
    ensures Get(m.requestId, "") != "" ==> Lookup(ms, "requestId") == Some(Str(Get(m.requestId, "")))
  {
    hide ReadFilters, Lookup;
  }

  lemma OptFound(ms: seq<Member>, key: string, value: string)
    requires value != "" ==> Lookup(ms, key) == Some(Str(value))
    ensures Cost(ms, key) >= OptCost(key, value)
  {
    hide Lookup, Weight;
  }

  lemma FilterFound(m: Request, ms: seq<Member>)
    requires m.filter.Some? && ReadFilters(Entry(ms, "filter")) == Some(m.filter)
    ensures Lookup(ms, "filter").Some?
    ensures ReadFilters(Some(Lookup(ms, "filter").value)) == Some(m.filter)
    ensures |m.filter.value| <= 2
  {
    hide Lookup, ReadFilter;
  }

  /** A text that is read back as the request it was printed from has no character to spare. */
  lemma NoneToSpare(m: Request, ms: seq<Member>)
    requires RequestJson(m).Some? && RawText(m.action)
    requires Unmarshal(Bare(RequestJson(m).value)) == Some(ms) && ReadRequest(m.action, ms) == Some(NormRequest(m))
    requires m.filter.Some? ==> forall i :: 0 <= i < |m.filter.value| ==> Weighable(m.filter.value[i])
    ensures Raw(Obj(ms)) && (m.filter.Some? ==> forall i :: 0 <= i < |m.filter.value| ==> Kept(m.filter.value[i]))
  {
    PrintedMembers(m);
    ActionAndOthers(m, PrintedFilter(m));
    KeysDistinct();
    ReadParts(m, ms);
    hide RequestJson, ReadRequest, MembersWith, Bare, ReadFilters, Kept, FiltersJson, FiltersPrintable, Weighable;
    RoomBehind(m.action, Others(m, PrintedFilter(m)), ms, KEYS);
    hide Unmarshal, KEYS, Others;
    FourCosts(ms);
    OthersWeight(m, PrintedFilter(m));
    OptFound(ms, "authorization", Get(m.authorization, ""));
    OptFound(ms, "requestId", Get(m.requestId, ""));
    PathFound(ms, m.path);
    hide OptCost, Weights;
    if m.filter.Some? {
      FilterFound(m, ms);
      var j := Lookup(ms, "filter").value;
      FiltersWeight(j, m.filter.value);
      FilterCosts(ms, j, FiltersJson(m.filter.value));
    }
    hide Weight, Cost, Raw;
  }

  lemma PathFound(ms: seq<Member>, path: string)
    requires Lookup(ms, "path") == Some(Str(path))
    ensures Cost(ms, "path") == Weight(Field("path", path))
  {
    hide Lookup, Weight;
  }

  lemma FilterCosts(ms: seq<Member>, j: Json, printed: Json)
    requires Lookup(ms, "filter") == Some(j)
    ensures Cost(ms, "filter") == Weight(Member("filter", printed)) + |Bare(j)| - |Bare(printed)|
  {
    hide Lookup, Bare;
  }

  // ---------------------------------------------------------------- the exact condition

  predicate AllKept(fs: seq<Filter>) {
    forall i :: 0 <= i < |fs| ==> Kept(fs[i])
  }

  lemma RawMembers(m: Request, filter: Option<Json>)
    ensures Raw(Obj(MembersWith(m, filter)))
            <==> TextsRaw(m) && (filter.Some? ==> Raw(filter.value))
  {
    KeysRaw();
    var a, p := Field("action", m.action), Field("path", m.path);
    var middle := match filter case None => [] case Some(j) => [Member("filter", j)];
    var o1 := OptField("authorization", Get(m.authorization, ""));
    var o2 := OptField("requestId", Get(m.requestId, ""));
    RawAppend([a, p] + middle + o1, o2);
    RawAppend([a, p] + middle, o1);
    RawAppend([a, p], middle);
    OptRaw("authorization", Get(m.authorization, ""));
    OptRaw("requestId", Get(m.requestId, ""));
    PairRaw(a, p);
    if filter.Some? {
      SingleRaw(middle[0]);
    }
    hide ReadableText, OptField;
  }

  lemma RawAppend(a: seq<Member>, b: seq<Member>)
    ensures Raw(Obj(a + b)) <==> Raw(Obj(a)) && Raw(Obj(b))
  {
    hide ReadableText;
    assert forall i :: 0 <= i < |a| ==> (a + b)[i] == a[i];
    assert forall i :: 0 <= i < |b| ==> (a + b)[|a| + i] == b[i];
    forall i | Raw(Obj(a)) && Raw(Obj(b)) && 0 <= i < |a + b|
      ensures ReadableText((a + b)[i].key, AsIs) && Readable((a + b)[i].value, AsIs)
    {
      assert i >= |a| ==> (a + b)[i] == b[i - |a|];
    }
    if Raw(Obj(a + b)) {
      forall i | 0 <= i < |b| ensures ReadableText(b[i].key, AsIs) && Readable(b[i].value, AsIs) {
        assert (a + b)[|a| + i] == b[i];
      }
    }
  }

  lemma SingleRaw(m: Member)
    ensures Raw(Obj([m])) <==> RawText(m.key) && Raw(m.value)
  {
    hide ReadableText;
    if Raw(Obj([m])) {
      assert [m][0] == m;
    }
  }

  lemma PairRaw(m: Member, n: Member)
    ensures Raw(Obj([m, n])) <==> RawText(m.key) && Raw(m.value) && RawText(n.key) && Raw(n.value)
  {
    assert [m, n] == [m] + [n];
    RawAppend([m], [n]);
    SingleRaw(m);
    SingleRaw(n);
    hide RawText, Readable;
  }

  lemma OptRaw(key: string, value: string)
    requires RawText(key)
    ensures Raw(Obj(OptField(key, value))) <==> RawText(value)
  {
    if value != "" {
      SingleRaw(Field(key, value));
    }
  }

  /** All texts of a filter list need no escape if its parameters do not. */
  lemma FiltersRaw(fs: seq<Filter>)
    requires FiltersPrintable(fs)
    ensures Raw(FiltersJson(fs)) <==> forall i :: 0 <= i < |fs| ==> Raw(ParameterJson(fs[i]))
  {
    hide ParameterJson, FilterType, ReadableText;
    forall i | 0 <= i < |fs| ensures Raw(FilterJson(fs[i])) <==> Raw(ParameterJson(fs[i])) {
      FilterRaw(fs[i]);
    }
    hide FilterJson, FilterPrintable;
    if |fs| == 1 {
      assert FiltersJson(fs) == FilterJson(fs[0]);
    } else {
      var items := FilterItems(fs);
      assert FiltersJson(fs) == Arr(items);
      assert forall i :: 0 <= i < |fs| ==> items[i] == FilterJson(fs[i]);
      assert Raw(Arr(items)) <==> forall i :: 0 <= i < |items| ==> Readable(items[i], AsIs);
    }
  }

  lemma FilterRaw(f: Filter)
    requires FilterPrintable(f)
    ensures Raw(FilterJson(f)) <==> Raw(ParameterJson(f))
  {
    TypeRaw(f);
    PairRaw(Field("type", FilterType(f)), Member("parameter", ParameterJson(f)));
    hide ParameterJson, FilterType, RawText;
  }

  /** Whatever comes back has at most two filters, none of them undefined or static metadata. */
  lemma BackIsWeighable(m: Request, ms: seq<Member>)
    requires m.filter.Some? && FiltersPrintable(m.filter.value)
    requires Range([RangeValue("", "")]) !in m.filter.value
    requires RequestOverWire(m).Some? && ReadFilters(Entry(ms, "filter")) == Some(m.filter)
    ensures |m.filter.value| <= 2 && forall i :: 0 <= i < |m.filter.value| ==> Weighable(m.filter.value[i])
  {
    var fs := m.filter.value;
    FilterFound(m, ms);
    FiltersAre(Lookup(ms, "filter").value, fs);
    hide RequestOverWire, ReadFilter, ReadFilters, FilterPrintable, Lookup;
    forall i | 0 <= i < |fs| ensures Weighable(fs[i]) {
      assert fs[i] in fs;
      if fs[i].StaticMetadata? || fs[i].Undefined? {
        var j := Lookup(ms, "filter").value;
        KindAndParameter(fs[i], if j.Obj? then j else j.items[i]);
        WordFails(m, i);
      }
    }
  }

  /** With nothing to escape, a range filter makes the reader fail, and more than two filters are dropped. */
  lemma RawReads(m: Request)
    requires m.filter.Some? && FiltersPrintable(m.filter.value) && TextsRaw(m)
    requires forall i :: 0 <= i < |m.filter.value| ==> Raw(ParameterJson(m.filter.value[i]))
    ensures (exists i :: 0 <= i < |m.filter.value| && m.filter.value[i].Range?) ==>
              RequestOverWire(m) != Some(NormRequest(m))
    ensures |m.filter.value| <= 2 && AllKept(m.filter.value) ==> RequestOverWire(m) == Some(NormRequest(m))
  {
    var fs := m.filter.value;
    hide RequestOverWire, FilterPrintable, TextsRaw, Taken, ParameterJson, Readable, After, NormRequest, FiltersBack;
    var js := seq(|fs|, i requires 0 <= i < |fs| => ParameterJson(fs[i]));
    forall i | 0 <= i < |fs| ensures Taken(fs, i, After(m), js[i]) {
      TakenItself(fs, i, After(m));
    }
    RequestReads(m, js);
    FiltersBackAre(fs, js);
    SameFilter(m, FiltersBack(fs, js));
  }

  lemma SameFilter(m: Request, back: Option<Option<seq<Filter>>>)
    requires m.filter.Some?
    ensures (match back case None => None case Some(fs) => Some(NormRequest(m).(filter := fs))) == Some(NormRequest(m))
            <==> back == Some(m.filter)
  {
  }

  lemma FiltersBackAre(fs: seq<Filter>, js: seq<Json>)
    requires |fs| == |js| > 0
    ensures (exists i :: 0 <= i < |fs| && fs[i].Range?) ==> FiltersBack(fs, js) != Some(Some(fs))
    ensures |fs| <= 2 && AllKept(fs) ==> FiltersBack(fs, js) == Some(Some(fs))
  {
    if |fs| <= 2 && AllKept(fs) {
      assert Kept(fs[0]) && Kept(fs[|fs| - 1]);
      assert |fs| == 1 ==> fs == [fs[0]];
      assert |fs| == 2 ==> fs == [fs[0], fs[1]];
    }
  }

  lemma Restored(m: Request)
    requires RawText(m.action) && RequestOverWire(m) == Some(NormRequest(m))
    requires m.filter.Some? ==> Range([RangeValue("", "")]) !in m.filter.value
    ensures RequestJson(m).Some? && Raw(RequestJson(m).value)
    ensures m.filter.Some? ==> |m.filter.value| <= 2 && AllKept(m.filter.value)
  {
    var ms := Unmarshal(Bare(RequestJson(m).value)).value;
    ReadParts(m, ms);
    PrintedMembers(m);
    hide RequestJson, ReadRequest, Bare, Unmarshal, Kept, FiltersPrintable, FiltersJson, Lookup, MembersWith, Readable;
    if m.filter.Some? {
      BackIsWeighable(m, ms);
      FilterFound(m, ms);
    }
    NoneToSpare(m, ms);
    PartsRaw(m, ms);
    RawMembers(m, PrintedFilter(m));
    if m.filter.Some? {
      LookupRaw(ms, "filter");
      FiltersWeight(Lookup(ms, "filter").value, m.filter.value);
      FiltersRaw(m.filter.value);
    }
    hide Weighable, ReadFilters;
  }

  lemma PartsRaw(m: Request, ms: seq<Member>)
    requires RawText(m.action) && Raw(Obj(ms)) && ReadRequest(m.action, ms) == Some(NormRequest(m))
    ensures TextsRaw(m)
  {
    ReadParts(m, ms);
    hide Lookup, ReadRequest;
    LookupRaw(ms, "path");
    if Get(m.authorization, "") != "" {
      LookupRaw(ms, "authorization");
    }
    if Get(m.requestId, "") != "" {
      LookupRaw(ms, "requestId");
    }
    hide ReadFilters;
  }

  /** For every request: converting it to text and back is the identity up to normal form exactly when no text needs an
      escape, and there are at most two filters, none of them for a range, for metadata or undefined. (The premise about
      ranges is for a bound with two empty texts, which the reader also makes of a parameter of the wrong type.) */
  lemma RequestRoundTripIff(m: Request)
    requires RawText(m.action)
    requires m.filter.Some? && Range([RangeValue("", "")]) in m.filter.value && RequestJson(m).Some? ==>
               Raw(RequestJson(m).value)
    ensures RequestOverWire(m) == Some(NormRequest(m))
            <==> RequestJson(m).Some? && Raw(RequestJson(m).value)
                 && (m.filter.Some? ==> |m.filter.value| <= 2 && AllKept(m.filter.value))
  {
    hide RequestOverWire, FiltersPrintable, FiltersJson, MembersWith, Readable, Kept, NormRequest, TextsRaw;
    if RequestJson(m).Some? {
      PrintedMembers(m);
      RawMembers(m, PrintedFilter(m));
    } else {
      NotOverWire(m);
    }
    if RequestJson(m).Some? && Raw(RequestJson(m).value) {
      if m.filter.None? {
        RequestReads(m, []);
      } else {
        FiltersRaw(m.filter.value);
        RawReads(m);
      }
    }
    hide RequestJson;
    if RequestOverWire(m) == Some(NormRequest(m))
        && (m.filter.Some? ==> Range([RangeValue("", "")]) !in m.filter.value) {
      Restored(m);
    }
  }

  lemma NotOverWire(m: Request)
    requires RequestJson(m) == None
    ensures RequestOverWire(m) == None
  {
  }
}
