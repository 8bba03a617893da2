/** The question that the server core puts to the access token server, and what becomes of it. */
module TokenServer {
  import opened Text
  import opened Json
  import opened AccessLevel
  import opened Dispatcher
  import opened DispatcherFilters
  import opened DispatcherRuns
  import opened DispatcherGuards
  import opened DispatcherForwards
  import opened DispatcherTexts

  /** What the token server does with what it can read: its answer to a question, and to a text that holds the word
      context, which it takes for another kind of request. */
  datatype Validator = Validator(validate: seq<Member> -> string, noScope: string -> string)

  /** json.Unmarshal into a map; None for its error, null leaves the map empty. */
  function ReadMap(text: string): Option<seq<Member>> {
    match Parse(text)
    case Some(Obj(ms)) => Some(ms)
    case Some(Lit(token)) => if token == "null" then Some([]) else None
    case _ => None
  }

  /** generateParentResponse. */
  function ParentResponse(text: string, v: Validator): string {
    if Contains(text, "context") then
      if Parse(text) == None then "{\"no_access\":\"\"}" else v.noScope(text)
    else
      match ReadMap(text) case None => "{\"validation\":\"1\"}" case Some(ms) => v.validate(ms)
  }

  /** The question: the paths stand between quotes, whatever they are. */
  function Question(token: string, action: string, paths: string, level: int): string {
    "{\"token\":\"" + token + "\",\"paths\":\"" + paths + "\",\"action\":\"" + action + "\",\"validation\":\""
    + Itoa(level) + "\"}"
  }

  /** A member that may be missing or null, and is a string otherwise; None for the panic. */
  function OptText(ms: seq<Member>, key: string): Option<string> {
    match Lookup(ms, key)
    case None => Some("")
    case Some(Str(text)) => Some(text)
    case Some(j) => if j == NULL then Some("") else None
  }

  /** What the core makes of the answer; None for a panic. */
  function ReadVerdict(body: string): Option<Verdict> {
    match ReadMap(body)
    case None => Some(Verdict(41, "", ""))
    case Some(ms) =>
      match Lookup(ms, "validation")
      case None => Some(Verdict(42, "", ""))
      case Some(Str(text)) =>
        (match Atoi(text)
         case None => Some(Verdict(42, "", ""))
         case Some(n) =>
           if n != 0 then Some(Verdict(n, "", ""))
           else
             var handle :- OptText(ms, "handle");
             var gatingId :- OptText(ms, "gatingId");
             Some(Verdict(0, handle, gatingId)))
      case Some(j) => if j == NULL then Some(Verdict(42, "", "")) else None
  }

  /** verifyToken, with the token server behind its channel. */
  function VerifyToken(token: string, action: string, paths: string, level: int, v: Validator): Option<Verdict> {
    ReadVerdict(ParentResponse(Question(token, action, paths, level), v))
  }

  // ---------------------------------------------------------------- questions that can be read

  lemma Grouped(o: string, q: string, k1: string, c: string, t1: string, e: string, comma: string, k2: string,
                t2: string, k3: string, t3: string, k4: string, t4: string, z: string)
    ensures (o + (q + (k1 + c))) + t1 + (e + (comma + (q + (k2 + c)))) + t2 + (e + (comma + (q + (k3 + c)))) + t3
            + (e + (comma + (q + (k4 + c)))) + t4 + (e + z)
         == o + (q + (k1 + (c + (t1 + (e + (comma + (q + (k2 + (c + (t2 + (e + (comma + (q + (k3 + (c + (t3
            + (e + (comma + (q + (k4 + (c + (t4 + (e + z)))))))))))))))))))))))
  {
  }

  /** A string member, and what follows it. */
  function MemberText(key: string, text: string, after: string): string {
    "\"" + (key + ("\":\"" + (text + ("\"" + after))))
  }

  lemma MemberReads(key: string, text: string, after: string)
    requires RawText(key) && RawText(text) && after != "" && !IsSpace(after[0])
    ensures after[0] == ',' ==>
              ParseMembers(MemberText(key, text, after)) == Cons(Member(key, Json.Str(text)), ParseMembers(after[1..]))
    ensures after[0] == '}' ==>
              ParseMembers(MemberText(key, text, after)) == Some(([Member(key, Json.Str(text))], after[1..]))
  {
    hide IsSpace, RawText, ParseMembers, ParseValue, Print;
    RawReads(key, text, after);
    MemberStep(key, UNESCAPED, Json.Str(text), Print(Json.Str(text), UNESCAPED), after);
    OpenRaw(key, text, after);
  }

  /** With anything else behind the string there is no member. */
  lemma MemberFails(key: string, text: string, after: string)
    requires RawText(key) && RawText(text) && after != "" && !IsSpace(after[0]) && after[0] != ',' && after[0] != '}'
    ensures ParseMembers(MemberText(key, text, after)) == None
  {
    RawReads(key, text, after);
    QuoteIsNoSpace();
    OpenRaw(key, text, after);
    var colon := ":" + (Print(Json.Str(text), UNESCAPED) + after);
    var s := "\"" + (key + "\"" + colon);
    ShownRoundTrip(key, UNESCAPED, colon);
    hide Shown, ParseValue, ParseChars, Print, RawText;
    assert Skip(s) == s && Skip(colon) == colon && Skip(after) == after;
    assert s[1..] == key + "\"" + colon && colon[1..] == Print(Json.Str(text), UNESCAPED) + after;
    hide Skip;
  }

  lemma QuestionKeys()
    ensures RawText("token") && RawText("paths") && RawText("action") && RawText("validation") && RawText("[")
    ensures !IsSpace(',') && !IsSpace('}') && !IsSpace(QUOTE)
  {
    LettersRaw("token");
    LettersRaw("paths");
    LettersRaw("action");
    LettersRaw("validation");
  }

  lemma DigitsRaw(n: int)
    ensures RawText(Itoa(n))
  {
    var s := Itoa(n);
    forall i | 0 <= i < |s| ensures IsDigit(s[i]) || s[i] == '-' {
      if n < 0 {
        assert s == "-" + Digits(-n);
      }
    }
  }

  lemma QuestionIs(token: string, action: string, paths: string, level: int)
    ensures Question(token, action, paths, level)
         == "{" + MemberText("token", token, "," + MemberText("paths", paths, "," +
                  MemberText("action", action, "," + MemberText("validation", Itoa(level), "}"))))
  {
    hide Itoa;
    assert "{" + ("\"" + ("token" + "\":\"")) == "{\"token\":\"";
    assert "\"" + ("," + ("\"" + ("paths" + "\":\""))) == "\",\"paths\":\"";
    assert "\"" + ("," + ("\"" + ("action" + "\":\""))) == "\",\"action\":\"";
    assert "\"" + ("," + ("\"" + ("validation" + "\":\""))) == "\",\"validation\":\"";
    assert "\"" + "}" == "\"}";
    Grouped("{", "\"", "token", "\":\"", token, "\"", ",", "paths", paths, "action", action, "validation", Itoa(level),
            "}");
  }

  /** With one plain path the question is a JSON object of the four texts. */
  lemma QuestionReads(token: string, action: string, path: string, level: int)
    requires RawText(token) && RawText(action) && RawText(path)
    ensures ReadMap(Question(token, action, path, level))
         == Some([Member("token", Json.Str(token)), Member("paths", Json.Str(path)), Member("action", Json.Str(action)),
                  Member("validation", Json.Str(Itoa(level)))])
  {
    QuestionKeys();
    DigitsRaw(level);
    QuestionIs(token, action, path, level);
    hide Question, Itoa, RawText, MemberText, ParseMembers, IsSpace;
    var last := MemberText("validation", Itoa(level), "}");
    var third := MemberText("action", action, "," + last);
    var second := MemberText("paths", path, "," + third);
    var body := MemberText("token", token, "," + second);
    MemberReads("validation", Itoa(level), "}");
    MemberReads("action", action, "," + last);
    MemberReads("paths", path, "," + third);
    MemberReads("token", token, "," + second);
    assert ("," + last)[1..] == last && ("," + third)[1..] == third && ("," + second)[1..] == second && "}"[1..] == "";
    MemberStarts("token", token, "," + second);
    BraceParsed(body);
    FourMembers(token, path, action, Itoa(level));
    hide ParseValue;
  }

  lemma MemberStarts(key: string, text: string, after: string)
    ensures MemberText(key, text, after) != "" && MemberText(key, text, after)[0] == QUOTE
  {
  }

  lemma FourMembers(token: string, path: string, action: string, level: string)
    ensures var m1, m2, m3, m4 := Member("token", Json.Str(token)), Member("paths", Json.Str(path)),
                                  Member("action", Json.Str(action)), Member("validation", Json.Str(level));
            Cons(m1, Cons(m2, Cons(m3, Some(([m4], ""))))) == Some(([m1, m2, m3, m4], "")) && Skip("") == ""
  {
    var m1, m2, m3, m4 := Member("token", Json.Str(token)), Member("paths", Json.Str(path)),
                          Member("action", Json.Str(action)), Member("validation", Json.Str(level));
    assert [m3] + [m4] == [m3, m4];
    assert [m2] + [m3, m4] == [m2, m3, m4];
    assert [m1] + [m2, m3, m4] == [m1, m2, m3, m4];
  }

  // ---------------------------------------------------------------- questions that cannot be read

  /** A path starts with no space, comma or brace. */
  predicate PathText(path: string) {
    path != "" && !IsSpace(path[0]) && path[0] != ',' && path[0] != '}'
  }

  lemma SeveralStart(found: seq<Node>)
    requires |found| > 1
    ensures exists rest :: PathsText(found) == "[" + ("\"" + (found[0].path + rest))
  {
    PathItemsPrinted(found);
    hide Print, PrintItems;
    var rest := "\"" + ("," + " " + PrintItems(PathItems(found[1..]), SPACED));
    assert PathsText(found) == "[" + "" + PrintItems(PathItems(found), SPACED);
    assert PathsText(found) == "[" + ("\"" + (found[0].path + rest));
  }

  /** With several paths the question is no JSON: their array stands between quotes. */
  lemma QuestionFails(token: string, action: string, found: seq<Node>, level: int)
    requires RawText(token) && |found| > 1 && PathText(found[0].path)
    ensures Parse(Question(token, action, PathsText(found), level)) == None
  {
    QuestionKeys();
    SeveralStart(found);
    var rest :| PathsText(found) == "[" + ("\"" + (found[0].path + rest));
    QuestionIs(token, action, PathsText(found), level);
    hide Question, Itoa, RawText, PathsText, ParseMembers, IsSpace;
    var third := "," + MemberText("action", action, "," + MemberText("validation", Itoa(level), "}"));
    var after := found[0].path + (rest + ("\"" + third));
    Opened(found[0].path, rest, third);
    var second := MemberText("paths", "[", after);
    assert MemberText("paths", PathsText(found), third) == second;
    hide MemberText;
    MemberFails("paths", "[", after);
    MemberReads("token", token, "," + second);
    assert ("," + second)[1..] == second;
    var body := MemberText("token", token, "," + second);
    MemberStarts("token", token, "," + second);
    BraceParsed(body);
    hide ParseValue;
  }

  lemma Opened(path: string, rest: string, third: string)
    ensures MemberText("paths", "[" + ("\"" + (path + rest)), third)
         == MemberText("paths", "[", path + (rest + ("\"" + third)))
  {
    assert "[" + ("\"" + (path + rest)) + ("\"" + third) == "[" + ("\"" + (path + (rest + ("\"" + third))));
  }

  /** The two answers to a question that is no JSON. */
  lemma AnswersRead()
    ensures ReadVerdict("{\"validation\":\"1\"}") == Some(Verdict(1, "", ""))
    ensures ReadVerdict("{\"no_access\":\"\"}") == Some(Verdict(42, "", ""))
  {
    AnswersParsed();
    assert "no_access"[0] != "validation"[0];
    assert Atoi("1") == Some(1) by {
      assert DigitsValue("1") == 1;
    }
    assert Lookup([Member("validation", Json.Str("1"))], "validation") == Some(Json.Str("1"));
    assert Lookup([Member("no_access", Json.Str(""))], "validation") == None;
    hide Parse, Atoi, Lookup;
  }

  lemma AnswersParsed()
    ensures Parse("{\"validation\":\"1\"}") == Some(Obj([Member("validation", Json.Str("1"))]))
    ensures Parse("{\"no_access\":\"\"}") == Some(Obj([Member("no_access", Json.Str(""))]))
  {
    QuestionKeys();
    assert RawText("1") && RawText("") && RawText("no_access");
    hide RawText, Parse;
    OneMember("validation", "1");
    OneMember("no_access", "");
    AnswerTexts();
    hide MemberText;
  }

  lemma AnswerTexts()
    ensures "{" + MemberText("validation", "1", "}") == "{\"validation\":\"1\"}"
    ensures "{" + MemberText("no_access", "", "}") == "{\"no_access\":\"\"}"
  {
    MemberTextIs("validation", "1", "}");
    MemberTextIs("no_access", "", "}");
    hide MemberText;
  }

  lemma MemberTextIs(key: string, text: string, after: string)
    ensures MemberText(key, text, after) == "\"" + key + "\":\"" + text + "\"" + after
  {
  }

  lemma OneMember(key: string, text: string)
    requires RawText(key) && RawText(text)
    ensures Parse("{" + MemberText(key, text, "}")) == Some(Obj([Member(key, Json.Str(text))]))
  {
    QuestionKeys();
    hide MemberText, ParseMembers, RawText, IsSpace;
    MemberReads(key, text, "}");
    MemberStarts(key, text, "}");
    BraceParsed(MemberText(key, text, "}"));
    assert "}"[1..] == "" && Skip("") == "";
    hide ParseValue;
  }

  /** The core asks this token server. */
  ghost predicate IsAsked(w: World, v: Validator) {
    forall token, action, paths, level :: var r := VerifyToken(token, action, paths, level, v);
      r.Some? ==> w.verify(token, action, paths, level) == r.value
  }

  /** A request that finds several paths is refused whenever its token is looked at, whatever the token is: the token
      server cannot read the question. */
  lemma SeveralPathsRefused(w: World, v: Validator, text: string, m: Map, root: string, paths: seq<string>)
    requires IsAsked(w, v)
    requires Is(m, "action", "get") || Is(m, "action", "subscribe") || Is(m, "action", "set")
    requires ValidRequest(text, m["action"].text)
    requires HasPath(m) && '*' !in m["path"].text && IsPathOf(m["path"].text, root)
    requires if Is(m, "action", "set") then !Has(m, "filter") && paths == [root]
             else Asked(root, FiltersOf(w, m), paths)
    requires |FoundAll(w, paths)| > 1 && PathText(FoundAll(w, paths)[0].path)
    requires Is(m, "action", "set") ==> FoundAll(w, paths)[0].actuator
    requires Questioned(m, Folded(Levels(w, paths)))
    requires Has(m, "authorization") && m["authorization"].Str? && RawText(m["authorization"].text)
    ensures Served(w, Request(text, Some(m)))
         == Some(Refused(3, if AsksForContext(w, m, paths) then "Internal error. " else "Invalid Access Token. "))
  {
    hide Served, ValidRequest, IsPathOf, Asked, FiltersOf, FoundAll, Folded, Levels, Access;
    hide PathsText, Question, RawText, PathText;
    DispatchedWith(w, text, m, root, paths);
    AlwaysRefused(w, v, m["authorization"].text, m["action"].text, FoundAll(w, paths), Folded(Levels(w, paths)));
    hide Carries, Contains;
  }

  lemma AlwaysRefused(w: World, v: Validator, token: string, action: string, found: seq<Node>, level: int)
    requires IsAsked(w, v) && RawText(token) && |found| > 1 && PathText(found[0].path)
    ensures w.verify(token, action, PathsText(found), level)
         == Verdict(if Contains(Question(token, action, PathsText(found), level), "context") then 42 else 1, "", "")
  {
    QuestionFails(token, action, found, level);
    AnswersRead();
    hide ReadVerdict, Question, RawText, PathText, Parse, Contains, PathsText;
    var r := VerifyToken(token, action, PathsText(found), level, v);
    assert r.Some?;
  }

  /** The word stands in the token, or in a path. */
  predicate AsksForContext(w: World, m: Map, paths: seq<string>)
    requires HasAction(m) && Has(m, "authorization") && m["authorization"].Str?
  {
    var found, level := FoundAll(w, paths), Folded(Levels(w, paths));
    Contains(Question(m["authorization"].text, m["action"].text, PathsText(found), level), "context")
  }
}
