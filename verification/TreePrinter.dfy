/** The server's answer to a metadata request: a part of the signal tree as a JSON object. */
module TreePrinter {
  import opened Text
  import opened Json

  datatype Node = Node(name: string, kind: int, descr: string, datatype_: string, children: seq<Node>)

  function KindText(kind: int): string {
    match kind
    case 1 => "sensor"
    case 2 => "actuator"
    case 3 => "attribute"
    case 4 => "branch"
    case _ => ""
  }

  predicate ValidKind(n: Node) {
    1 <= n.kind <= 4
  }

  // ---------------------------------------------------------------- the printer

  /** `"key":"text",` */
  function Field(key: string, text: string): string {
    "\"" + key + "\":" + ("\"" + text + "\"") + ","
  }

  function FieldsText(n: Node): string {
    Field("type", KindText(n.kind)) + Field("description", n.descr)
    + if n.kind == 4 then "" else Field("datatype", n.datatype_)
  }

  /** What jsonifyTreeNode returns with this many levels left, after the text that is handed to it. */
  function NodeText(n: Node, before: string, levels: int): string
    decreases n, 0
  {
    if levels <= 0 then before
    else if !ValidKind(n) then ""
    else before + ("\"" + n.name + "\":{" + Contents(n, before, levels) + "},")
  }

  function Contents(n: Node, before: string, levels: int): string
    requires levels > 0
    decreases n, 0, 0
  {
    var fields := FieldsText(n);
    if levels > 1 && n.children != [] then
      var open := fields + "\"children\":{" + ChildrenText(n.children, before, levels - 1);
      Cut(open) + "}"
    else
      Cut(fields)
  }

  function ChildrenText(children: seq<Node>, before: string, levels: int): string
    decreases children, 0
  {
    if children == [] then ""
    else NodeText(children[0], before, levels) + ChildrenText(children[1..], before, levels)
  }

  function Head(n: Node): string {
    "\"" + n.name + "\":{"
  }

  method JsonifyTreeNode(n: Node, jsonBuffer: string, depth0: int, maxDepth: int) returns (text: string)
    ensures text == NodeText(n, jsonBuffer, maxDepth - depth0)
    decreases n
  {
    hide FieldsText, ChildrenText, Contents;
    var depth := depth0;
    if depth >= maxDepth {
      return jsonBuffer;
    }
    depth := depth + 1;
    var known, fields := JsonifyFields(n);
    if !known {
      return "";
    }
    var body := JsonifyBelow(n, fields, jsonBuffer, depth, maxDepth);
    return jsonBuffer + (body + "},");
  }

  /** The part up to and including the switch. */
  method JsonifyFields(n: Node) returns (known: bool, text: string)
    ensures known == ValidKind(n)
    ensures known ==> text == Head(n) + FieldsText(n)
  {
    hide Field, Head;
    text := Head(n);
    text := text + Field("type", KindText(n.kind));
    text := text + Field("description", n.descr);
    if n.kind == 4 {
      return true, text;
    }
    if n.kind == 1 || n.kind == 2 || n.kind == 3 {
      text := text + Field("datatype", n.datatype_);
      return true, text;
    }
    return false, "";
  }

  /** The children, and the commas that are cut off. */
  method JsonifyBelow(n: Node, fields: string, jsonBuffer: string, depth: int, maxDepth: int) returns (text: string)
    requires fields == Head(n) + FieldsText(n) && depth <= maxDepth
    ensures text == Head(n) + Contents(n, jsonBuffer, maxDepth - depth + 1)
    decreases n, 1
  {
    FieldsEnd(n);
    Trim(Head(n), FieldsText(n));
    hide FieldsText, ChildrenText, Contents, Head, Cut;
    text := fields;
    if depth < maxDepth && |n.children| > 0 {
      text := text + ("\"children\":" + "{");
      text := AppendChildren(n, text, jsonBuffer, depth, maxDepth);
      WithChildren(n, Head(n), jsonBuffer, maxDepth - depth);
      text := Cut(text);
      text := text + "}";
    } else {
      WithoutChildren(n, jsonBuffer, maxDepth - depth + 1);
    }
    if text[|text| - 1] == ',' && text[|text| - 2] != '}' {
      text := Cut(text);
    }
  }

  lemma WithChildren(n: Node, head: string, before: string, levels: int)
    requires levels > 0 && n.children != []
    ensures var s := head + FieldsText(n) + ("\"children\":" + "{") + ChildrenText(n.children, before, levels);
            |s| > 1 && Cut(s) + "}" == head + Contents(n, before, levels + 1)
  {
    hide FieldsText, ChildrenText;
    Ends(head, FieldsText(n) + "\"children\":{", ChildrenText(n.children, before, levels));
    assert head + FieldsText(n) + ("\"children\":" + "{") == head + (FieldsText(n) + "\"children\":{");
  }

  lemma WithoutChildren(n: Node, before: string, levels: int)
    requires levels > 0 && !(levels > 1 && n.children != [])
    ensures FieldsText(n) != "" && Contents(n, before, levels) == Cut(FieldsText(n))
  {
  }

  lemma Trim(head: string, fields: string)
    requires fields != ""
    ensures Cut(head + fields) == head + Cut(fields)
    ensures (head + fields)[|head + fields| - 1] == fields[|fields| - 1]
    ensures |fields| >= 2 ==> (head + fields)[|head + fields| - 2] == fields[|fields| - 2]
  {
  }

  lemma Ends(head: string, open: string, children: string)
    requires open != ""
    ensures var s := head + open + children;
            Cut(s) + "}" == head + (Cut(open + children) + "}")
  {
    assert head + open + children == head + (open + children);
    Trim(head, open + children);
  }

  lemma FieldEnds(key: string, text: string)
    ensures var s := Field(key, text); |s| >= 2 && s[|s| - 1] == ',' && s[|s| - 2] == QUOTE
  {
  }

  lemma FieldsEnd(n: Node)
    ensures var s := FieldsText(n); |s| >= 2 && s[|s| - 1] == ',' && s[|s| - 2] == QUOTE
  {
    FieldEnds("description", n.descr);
    FieldEnds("datatype", n.datatype_);
    hide Field;
  }

  /** The loop over the children. */
  method AppendChildren(n: Node, buffer: string, jsonBuffer: string, depth: int, maxDepth: int) returns (text: string)
    ensures text == buffer + ChildrenText(n.children, jsonBuffer, maxDepth - depth)
    decreases n, 0
  {
    text := buffer;
    assert n.children[0..] == n.children;
    for i := 0 to |n.children|
      invariant text + ChildrenText(n.children[i..], jsonBuffer, maxDepth - depth)
             == buffer + ChildrenText(n.children, jsonBuffer, maxDepth - depth)
    {
      hide NodeText;
      assert n.children[i..][1..] == n.children[i + 1..];
      var child := JsonifyTreeNode(n.children[i], jsonBuffer, depth, maxDepth);
      text := text + child;
    }
  }

  function Levels(depth: int): int {
    if depth == 0 then 100 else depth
  }

  /** synthesizeJsonTree, on the node that the search ends at. */
  function TreeText(found: Option<Node>, depth: int): string {
    if found == None then ""
    else
      var text := NodeText(found.value, "", Levels(depth));
      if text == "" then "" else "{" + Cut(text) + "}"
  }

  method SynthesizeJsonTree(found: Option<Node>, depth: int) returns (text: string)
    ensures text == TreeText(found, depth)
  {
    hide NodeText;
    if found == None {
      return "";
    }
    var jsonBuffer := JsonifyTreeNode(found.value, "", 0, if depth == 0 then 100 else depth);
    if |jsonBuffer| > 0 {
      return "{" + jsonBuffer[..|jsonBuffer| - 1] + "}";
    }
    return "";
  }

  // ---------------------------------------------------------------- the tree as a JSON value

  function Fields(n: Node): (ms: seq<Member>)
    ensures |ms| >= 2
  {
    [Member("type", Str(KindText(n.kind))), Member("description", Str(n.descr))]
    + if n.kind == 4 then [] else [Member("datatype", Str(n.datatype_))]
  }

  /** The node, and what is below it down to the given number of levels, without the nodes of unknown type. */
  function Tree(n: Node, levels: int): Member
    decreases n, 0
  {
    Member(n.name, Obj(Fields(n) + Below(n, levels)))
  }

  function Below(n: Node, levels: int): seq<Member>
    decreases n, 0, 0
  {
    if levels > 1 && n.children != [] then [Member("children", Obj(Trees(n.children, levels - 1)))] else []
  }

  function Trees(children: seq<Node>, levels: int): seq<Member>
    decreases children, 0
  {
    if children == [] then []
    else (if ValidKind(children[0]) then [Tree(children[0], levels)] else []) + Trees(children[1..], levels)
  }

  /** No printed node has only children of unknown type. */
  predicate Healthy(n: Node, levels: int)
    decreases n
  {
    levels > 1 && n.children != [] ==>
      && (exists i :: 0 <= i < |n.children| && ValidKind(n.children[i]))
      && (forall i :: 0 <= i < |n.children| && ValidKind(n.children[i]) ==> Healthy(n.children[i], levels - 1))
  }

  lemma FieldIsMember(key: string, text: string)
    ensures Field(key, text) == MemberText(Member(key, Str(text))) + ","
  {
  }

  lemma FieldsAreMembers(n: Node)
    ensures FieldsText(n) == CommaEachMember(Fields(n))
  {
    FieldIsMember("type", KindText(n.kind));
    FieldIsMember("description", n.descr);
    FieldIsMember("datatype", n.datatype_);
    hide Field, MemberText;
    var ms := Fields(n);
    assert ms[1..][0] == ms[1] && (n.kind != 4 ==> ms[1..][1..][0] == ms[2]);
    assert CommaEachMember(ms[1..][1..]) == if n.kind
        == 4 then "" else MemberText(ms[2]) + "," + CommaEachMember(ms[1..][1..][1..]);
  }

  /** On a healthy node the appended and trimmed text is the printed value, with the comma that the caller cuts off. */
  lemma HealthyNode(n: Node, levels: int)
    requires ValidKind(n) && levels > 0 && Healthy(n, levels)
    ensures NodeText(n, "", levels) == MemberText(Tree(n, levels)) + ","
    decreases n, 0
  {
    hide FieldsText, Fields, ChildrenText, Trees, PrintMembers, CommaEachMember, Healthy;
    var fields := Fields(n);
    FieldsAreMembers(n);
    if levels > 1 && n.children != [] {
      HealthyBelow(n, levels);
      CommaEachAppend(fields, Below(n, levels)[0]);
    } else {
      assert fields + Below(n, levels) == fields;
    }
    var all := fields + Below(n, levels);
    TrimmedMembers(all);
    assert Contents(n, "", levels) + "}" == PrintMembers(all, UNESCAPED);
    hide Contents, Below;
    Braces(n.name, Contents(n, "", levels), PrintMembers(all, UNESCAPED));
  }

  lemma Braces(name: string, contents: string, printed: string)
    requires contents + "}" == printed
    ensures "" + ("\"" + name + "\":{" + contents + "},") == "\"" + name + "\":" + ("{" + "" + printed) + ","
  {
  }

  lemma HealthyBelow(n: Node, levels: int)
    requires levels > 1 && n.children != [] && Healthy(n, levels)
    ensures Contents(n, "", levels) == FieldsText(n) + MemberText(Below(n, levels)[0])
    decreases n, 0, 0
  {
    var ms, children := Trees(n.children, levels - 1), ChildrenText(n.children, "", levels - 1);
    HealthyChildren(n.children, levels - 1);
    TreesNonempty(n.children, levels - 1);
    hide FieldsText, Healthy, ChildrenText, CommaEachMember, Trees, PrintMembers;
    TrimmedMembers(ms);
    ChildrenTrim(FieldsText(n), children);
    BelowPrinted(n, levels);
    hide Below, MemberText;
  }

  lemma BelowPrinted(n: Node, levels: int)
    requires levels > 1 && n.children != [] && Trees(n.children, levels - 1) != []
    ensures MemberText(Below(n, levels)[0])
         == "\"" + "children" + "\":" + ("{" + "" + PrintMembers(Trees(n.children, levels - 1), UNESCAPED))
  {
    hide Trees, PrintMembers;
  }

  lemma ChildrenTrim(fields: string, children: string)
    requires children != ""
    ensures var open := fields + "\"children\":{" + children;
            (Cut(open) + "}"
             == fields + ("\"" + "children" + "\":" + ("{" + "" + (Cut(children) + "}"))))
  {
    var open := fields + "\"children\":{" + children;
    assert Cut(open) == fields + "\"children\":{" + Cut(children);
  }

  lemma {:induction false} TreesNonempty(children: seq<Node>, levels: int)
    ensures Trees(children, levels) != [] <==> exists i :: 0 <= i < |children| && ValidKind(children[i])
  {
    if children != [] {
      TreesNonempty(children[1..], levels);
      if i :| 0 <= i < |children| && ValidKind(children[i]) && i > 0 {
        assert children[1..][i - 1] == children[i];
      }
      if i :| 0 <= i < |children[1..]| && ValidKind(children[1..][i]) {
        assert children[i + 1] == children[1..][i];
      }
    }
  }

  lemma CommaEachHead(m: Member, rest: seq<Member>)
    ensures CommaEachMember([m] + rest) == MemberText(m) + "," + CommaEachMember(rest)
  {
    hide MemberText;
    assert ([m] + rest)[1..] == rest;
  }

  lemma HealthyChildren(children: seq<Node>, levels: int)
    requires levels > 0
    requires forall i :: 0 <= i < |children| && ValidKind(children[i]) ==> Healthy(children[i], levels)
    ensures ChildrenText(children, "", levels) == CommaEachMember(Trees(children, levels))
    decreases children, 0
  {
    if children != [] {
      hide MemberText, Healthy, Tree;
      HealthyChildren(children[1..], levels);
      var rest := Trees(children[1..], levels);
      if ValidKind(children[0]) {
        HealthyNode(children[0], levels);
        hide NodeText;
        CommaEachHead(Tree(children[0], levels), rest);
      } else {
        InvalidText(children[0], levels);
        hide NodeText;
        assert [] + rest == rest && "" + CommaEachMember(rest) == CommaEachMember(rest);
      }
    }
  }

  // ---------------------------------------------------------------- reading it back

  predicate RawMembers(ms: seq<Member>) {
    forall i :: 0 <= i < |ms| ==> RawText(ms[i].key) && Raw(ms[i].value)
  }

  /** No name, description or datatype needs an escape. */
  predicate RawTree(n: Node)
    decreases n
  {
    RawText(n.name) && RawText(n.descr) && RawText(n.datatype_)
    && forall i :: 0 <= i < |n.children| ==> RawTree(n.children[i])
  }

  lemma FieldsRaw(n: Node)
    requires RawText(n.descr) && RawText(n.datatype_)
    ensures RawMembers(Fields(n))
  {
    KindRaw(n.kind);
    FieldNamesRaw();
    TextRaw(KindText(n.kind));
    TextRaw(n.descr);
    TextRaw(n.datatype_);
    hide RawText, Raw, KindText;
  }

  lemma TextRaw(text: string)
    ensures Raw(Str(text)) <==> RawText(text)
  {
  }

  lemma KindRaw(kind: int)
    ensures RawText(KindText(kind))
  {
  }

  lemma FieldNamesRaw()
    ensures RawText("type") && RawText("description") && RawText("datatype") && RawText("children")
  {
    LettersRaw("type");
    LettersRaw("description");
    LettersRaw("datatype");
    LettersRaw("children");
    hide RawText;
  }

  lemma TreeRaw(n: Node, levels: int)
    requires RawTree(n)
    ensures RawText(Tree(n, levels).key) && Raw(Tree(n, levels).value)
    decreases n, 0
  {
    FieldsRaw(n);
    FieldNamesRaw();
    hide Fields, RawText;
    if levels > 1 && n.children != [] {
      TreesRaw(n.children, levels - 1);
      assert Raw(Obj(Trees(n.children, levels - 1)));
    }
    hide RawTree, Trees;
    assert RawMembers(Fields(n) + Below(n, levels));
  }

  lemma TreesRaw(children: seq<Node>, levels: int)
    requires forall i :: 0 <= i < |children| ==> RawTree(children[i])
    ensures RawMembers(Trees(children, levels))
    decreases children, 0
  {
    if children != [] {
      hide RawTree, RawText, Raw, Tree;
      TreesRaw(children[1..], levels);
      TreeRaw(children[0], levels);
    }
  }

  /** Reading one member and what stands behind it. */
  lemma MemberRead(m: Member, after: string)
    requires RawText(m.key) && Raw(m.value) && after != "" && !IsSpace(after[0])
    ensures after[0] == '}' ==> ParseMembers(MemberText(m) + after) == Some(([m], after[1..]))
    ensures after[0] == ',' ==> ParseMembers(MemberText(m) + after) == Cons(m, ParseMembers(after[1..]))
  {
    hide *;
    QuoteIsNoSpace();
    UnescapedIsBlank();
    ParseSame(m.key, m.value);
    if after[0] == '}' || after[0] == ',' {
      ValueRoundTrip(m.value, UNESCAPED, after);
      MemberStep(m.key, UNESCAPED, m.value, Print(m.value, UNESCAPED), after);
      MemberTextIs(m, after);
    }
  }

  lemma UnescapedIsBlank()
    ensures Blank(UNESCAPED)
  {
  }

  /** What the general lemmas on printing call these conditions. */
  lemma ParseSame(key: string, j: Json)
    ensures RawText(key) <==> ReadableText(key, UNESCAPED.escape)
    ensures Raw(j) <==> Readable(j, UNESCAPED.escape)
    ensures forall tail :: (tail != "" ==> !IsLiteralChar(tail[0])) ==> EndsLiteral(j, tail)
  {
  }

  lemma MemberTextIs(m: Member, after: string)
    ensures MemberText(m) + after
         == "\"" + (Shown(m.key, UNESCAPED) + "\"" + (":" + (Print(m.value, UNESCAPED) + after)))
  {
    hide Print;
  }

  /** A member that cannot be read makes what stands before it unreadable. */
  lemma {:induction false} MembersFail(ms: seq<Member>, rest: string)
    requires RawMembers(ms) && ParseMembers(rest) == None
    ensures ParseMembers(CommaEachMember(ms) + rest) == None
  {
    hide RawText, Raw, MemberText, ParseMembers;
    if ms == [] {
      assert "" + rest == rest;
    } else {
      MembersFail(ms[1..], rest);
      var after := "," + (CommaEachMember(ms[1..]) + rest);
      QuoteIsNoSpace();
      MemberRead(ms[0], after);
      assert CommaEachMember(ms) + rest == MemberText(ms[0]) + after;
      assert after[1..] == CommaEachMember(ms[1..]) + rest;
    }
  }

  /** A value that cannot be read, behind its key. */
  lemma ValueFails(key: string, value: string)
    requires RawText(key) && ParseValue(value) == None
    ensures ParseMembers("\"" + (key + ("\":" + value))) == None
  {
    hide ParseValue, RawText;
    var s := "\"" + (key + ("\":" + value));
    KeyRead(key, value);
    assert s[1..] == key + ("\":" + value) && Skip(s) == s;
    assert Skip(":" + value) == ":" + value && (":" + value)[1..] == value;
    hide ParseChars, Skip;
  }

  lemma KeyRead(key: string, value: string)
    requires RawText(key)
    ensures ParseChars(key + ("\":" + value)) == Some((key, ":" + value))
  {
    ShownRoundTrip(key, UNESCAPED, ":" + value);
    assert key + ("\":" + value) == key + "\"" + (":" + value);
  }

  /** An object whose members cannot be read. */
  lemma ObjectFails(members: string)
    requires members != "" && members[0] == QUOTE && ParseMembers(members) == None
    ensures ParseValue("{" + members) == None
  {
    hide ParseMembers;
    QuoteIsNoSpace();
    var s := "{" + members;
    assert s[1..] == members && Skip(s) == s && Skip(members) == members;
    hide Skip;
  }

  /** The text of a node without its comma. */
  function Bare(n: Node, levels: int): string
    requires levels > 0
  {
    "\"" + n.name + "\":{" + Contents(n, "", levels) + "}"
  }

  lemma BareText(n: Node, levels: int)
    requires ValidKind(n) && levels > 0
    ensures NodeText(n, "", levels) == Bare(n, levels) + ","
  {
    hide Contents;
  }

  /** An unhealthy node cannot be read, whatever follows. */
  lemma UnhealthyNode(n: Node, levels: int, tail: string)
    requires ValidKind(n) && levels > 0 && RawTree(n) && !Healthy(n, levels)
    ensures ParseMembers(Bare(n, levels) + tail) == None
    decreases n, 0
  {
    UnhealthyChildren(n, levels, tail);
    FieldNamesRaw();
    hide ParseMembers, ParseValue, Fields, CommaEachMember, FieldsText, ChildrenText, RawText, RawMembers, Bare;
    FieldsAreMembers(n);
    FieldsRaw(n);
    FieldsStart(n);
    var children := ChildrenText(n.children, "", levels - 1);
    var value := Cut("{" + children) + "}" + ("}" + tail);
    var rest := "\"" + ("children" + ("\":" + value));
    ValueFails("children", value);
    MembersFail(Fields(n), rest);
    var members := FieldsText(n) + rest;
    ObjectFails(members);
    ValueFails(n.name, "{" + members);
    UnhealthyText(n, levels, tail, children);
  }

  lemma FieldsStart(n: Node)
    ensures FieldsText(n) != "" && FieldsText(n)[0] == QUOTE
  {
  }

  lemma UnhealthyText(n: Node, levels: int, tail: string, children: string)
    requires levels > 1 && n.children != [] && children == ChildrenText(n.children, "", levels - 1)
    ensures var value := Cut("{" + children) + "}" + ("}" + tail);
            var rest := "\"" + ("children" + ("\":" + value));
            Bare(n, levels) + tail == "\"" + (n.name + ("\":" + ("{" + (FieldsText(n) + rest))))
  {
    hide FieldsText, ChildrenText;
    var fields := FieldsText(n);
    var open := fields + "\"children\":{" + children;
    var cut := Cut("{" + children);
    assert open == fields + ("\"children\":" + ("{" + children));
    assert Cut(open) == fields + ("\"children\":" + cut);
    assert Contents(n, "", levels) == fields + ("\"children\":" + cut) + "}";
    hide Contents;
    UnhealthyRegroup(n.name, fields, cut, tail);
  }

  lemma UnhealthyRegroup(name: string, fields: string, cut: string, tail: string)
    ensures "\"" + name + "\":{" + (fields + ("\"children\":" + cut) + "}") + "}" + tail
         == "\"" + (name + ("\":" + ("{" + (fields + ("\"" + ("children" + ("\":" + (cut + "}" + ("}" + tail)))))))))
  {
  }

  lemma UnhealthyChildren(n: Node, levels: int, tail: string)
    requires levels > 0 && RawTree(n) && !Healthy(n, levels)
    ensures levels > 1 && n.children != []
    ensures var children := ChildrenText(n.children, "", levels - 1);
            ParseValue(Cut("{" + children) + "}" + ("}" + tail)) == None
    decreases n, 0, 0
  {
    var children := ChildrenText(n.children, "", levels - 1);
    if exists i :: 0 <= i < |n.children| && ValidKind(n.children[i]) {
      hide ParseValue, ParseMembers, ChildrenText, Cut, IsSpace;
      ChildrenFail(n.children, levels - 1, "}" + ("}" + tail));
      CutStarts(children);
      ObjectFails(Cut(children) + ("}" + ("}" + tail)));
      BraceCut(children, tail);
    } else {
      NoChildren(n.children, levels - 1);
      hide ParseValue, ChildrenText;
      NoValue("}" + tail);
    }
  }

  lemma CutStarts(s: string)
    requires |s| > 1 && s[0] == QUOTE
    ensures Cut(s) != "" && Cut(s)[0] == QUOTE
  {
  }

  lemma BraceCut(children: string, tail: string)
    requires children != ""
    ensures Cut("{" + children) + "}" + ("}" + tail) == "{" + (Cut(children) + ("}" + ("}" + tail)))
  {
  }

  lemma NoValue(tail: string)
    ensures Cut("{" + "") + "}" + tail == "}" + tail && ParseValue("}" + tail) == None
  {
    hide ParseItems, ParseMembers, ParseChars;
  }

  lemma {:induction false} NoChildren(children: seq<Node>, levels: int)
    requires levels > 0 && forall i :: 0 <= i < |children| ==> !ValidKind(children[i])
    ensures ChildrenText(children, "", levels) == ""
  {
    if children != [] {
      NoChildren(children[1..], levels);
    }
  }

  /** Some child is unhealthy: the children up to it are read, then reading fails. */
  lemma ChildrenFail(children: seq<Node>, levels: int, tail: string)
    requires levels > 0 && forall i :: 0 <= i < |children| ==> RawTree(children[i])
    requires exists i :: 0 <= i < |children| && ValidKind(children[i]) && !Healthy(children[i], levels)
    ensures var s := ChildrenText(children, "", levels);
            s != "" && s[0] == QUOTE && |s| > 1 && ParseMembers(Cut(s) + tail) == None
    decreases children, 0
  {
    hide ParseMembers, Healthy, Contents, NodeText, Bare;
    var first, rest := children[0], children[1..];
    var restText := ChildrenText(rest, "", levels);
    if !ValidKind(first) {
      var i :| 0 <= i < |children| && ValidKind(children[i]) && !Healthy(children[i], levels);
      assert rest[i - 1] == children[i];
      ChildrenFail(rest, levels, tail);
      InvalidText(first, levels);
      assert "" + restText == restText;
    } else {
      BareText(first, levels);
      BareStarts(first, levels);
      var bare := Bare(first, levels);
      assert ChildrenText(children, "", levels) == bare + "," + restText;
      if !Healthy(first, levels) {
        UnhealthyNode(first, levels, Cut("," + restText) + tail);
        CutBehind(bare, restText, tail);
      } else {
        var i :| 0 <= i < |children| && ValidKind(children[i]) && !Healthy(children[i], levels);
        assert rest[i - 1] == children[i];
        ChildrenFail(rest, levels, tail);
        HealthyNode(first, levels);
        TreeRaw(first, levels);
        AfterFirst(first, levels, restText, tail);
      }
    }
  }

  lemma InvalidText(n: Node, levels: int)
    requires levels > 0 && !ValidKind(n)
    ensures NodeText(n, "", levels) == ""
  {
  }

  lemma BareStarts(n: Node, levels: int)
    requires levels > 0
    ensures Bare(n, levels) != "" && Bare(n, levels)[0] == QUOTE
  {
    hide Contents;
  }

  lemma CutBehind(bare: string, rest: string, tail: string)
    ensures var s := bare + "," + rest; Cut(s) + tail == bare + (Cut("," + rest) + tail)
  {
  }

  lemma AfterFirst(first: Node, levels: int, restText: string, tail: string)
    requires ValidKind(first) && levels > 0 && restText != "" && ParseMembers(Cut(restText) + tail) == None
    requires NodeText(first, "", levels) == MemberText(Tree(first, levels)) + ","
    requires RawText(Tree(first, levels).key) && Raw(Tree(first, levels).value)
    ensures var s := Bare(first, levels) + "," + restText; ParseMembers(Cut(s) + tail) == None
  {
    BareText(first, levels);
    hide ParseMembers, Contents, NodeText, Raw, RawText, Tree, MemberText, Bare, Cut;
    QuoteIsNoSpace();
    var m, cut := Tree(first, levels), Cut(restText) + tail;
    SameBare(Bare(first, levels), MemberText(m));
    MemberRead(m, "," + cut);
    assert ("," + cut)[1..] == cut;
    CutRest(MemberText(m), restText, tail);
  }

  lemma SameBare(a: string, b: string)
    requires a + "," == b + ","
    ensures a == b
  {
    assert (a + ",")[..|a|] == a && (b + ",")[..|b|] == b;
  }

  lemma TextIs(n: Node, depth: int)
    requires TreeText(Some(n), depth) != ""
    ensures Levels(depth) > 0 && ValidKind(n) && TreeText(Some(n), depth) == "{" + (Bare(n, Levels(depth)) + "}")
  {
    var levels := Levels(depth);
    if levels > 0 && ValidKind(n) {
      BareText(n, levels);
      var bare := Bare(n, levels);
      assert (bare + ",")[..|bare|] == bare;
    }
    hide Contents;
  }

  /** The answer in front of any text: a JSON object of the tree down to that depth, children in order, if no printed
      node has only children of unknown type; if one has, nothing that can be read. */
  lemma TextInPlace(n: Node, depth: int, tail: string)
    requires RawTree(n) && TreeText(Some(n), depth) != ""
    ensures var levels := Levels(depth);
            && levels > 0 && TreeText(Some(n), depth)[0] == '{'
            && ParseValue(TreeText(Some(n), depth) + tail)
               == if Healthy(n, levels) then Some((Obj([Tree(n, levels)]), tail)) else None
  {
    TextIs(n, depth);
    var levels := Levels(depth);
    BareText(n, levels);
    BareStarts(n, levels);
    hide *;
    var bare := Bare(n, levels);
    TailBehind(bare, tail);
    if Healthy(n, levels) {
      HealthyNode(n, levels);
      TreeRaw(n, levels);
      SameBare(bare, MemberText(Tree(n, levels)));
      MemberInPlace(Tree(n, levels), tail);
    } else {
      UnhealthyNode(n, levels, "}" + tail);
      ObjectFails(bare + ("}" + tail));
    }
  }

  lemma TailBehind(bare: string, tail: string)
    requires bare != "" && bare[0] == QUOTE
    ensures "{" + (bare + "}") + tail == "{" + (bare + ("}" + tail)) && ("{" + (bare + "}"))[0] == '{'
    ensures bare + ("}" + tail) != "" && (bare + ("}" + tail))[0] == QUOTE
  {
  }

  lemma MemberInPlace(m: Member, tail: string)
    requires RawText(m.key) && Raw(m.value)
    ensures ParseValue("{" + (MemberText(m) + ("}" + tail))) == Some((Obj([m]), tail))
  {
    QuoteIsNoSpace();
    MemberRead(m, "}" + tail);
    var members := MemberText(m) + ("}" + tail);
    assert members[0] == QUOTE && ("}" + tail)[1..] == tail;
    BraceParsed(members);
    hide ParseMembers, ParseValue, MemberText, Raw;
  }

  /** The answer is empty exactly when nothing is found, the depth is negative or the node has an unknown type. It is
      else a JSON object of the tree down to that depth, children in order, if no printed node has only children of
      unknown type; and if one has, the answer is not JSON at all. */
  lemma TreeReadBack(found: Option<Node>, depth: int)
    requires found.Some? ==> RawTree(found.value)
    ensures TreeText(found, depth) == "" <==> found == None || depth < 0 || !(1 <= found.value.kind <= 4)
    ensures Levels(depth) == if depth == 0 then 100 else depth
    ensures TreeText(found, depth) != "" ==>
              (var n, levels := found.value, Levels(depth);
               Parse(TreeText(found, depth)) == if Healthy(n, levels) then Some(Obj([Tree(n, levels)])) else None)
  {
    if TreeText(found, depth) != "" {
      hide Healthy, RawTree, Contents, Tree, ParseValue, NodeText;
      TextInPlace(found.value, depth, "");
      hide TreeText;
      assert TreeText(found, depth) + "" == TreeText(found, depth) && Skip("") == "";
    }
  }

  // ---------------------------------------------------------------- answers written out

  /** The text of a sensor, actuator or attribute, in front of what follows its name. */
  function LeafLine(kind: string, descr: string, datatype_: string): string {
    "{\"type\":\"" + kind + "\",\"description\":\"" + descr + "\",\"datatype\":\"" + datatype_ + "\"}"
  }

  /** The text of a branch. */
  function BranchLine(descr: string, children: string): string {
    "{\"type\":\"branch\",\"description\":\"" + descr + "\"" + children + "}"
  }

  predicate IsSignal(n: Node, kind: string) {
    || (n.kind == 1 && kind == "sensor") || (n.kind == 2 && kind == "actuator")
    || (n.kind == 3 && kind == "attribute")
  }

  lemma LeafFields(n: Node, kind: string)
    requires IsSignal(n, kind)
    ensures "{" + Cut(FieldsText(n)) + "}" == LeafLine(kind, n.descr, n.datatype_)
  {
    LastFieldCut(Field("type", kind) + Field("description", n.descr), "datatype", n.datatype_);
    TwoFields(kind, n.descr);
    hide Field;
    Join5("{", Field("type", kind) + Field("description", n.descr), "\"datatype\":\"", n.datatype_, "\"", "}");
  }

  lemma TwoFields(kind: string, descr: string)
    ensures "{" + (Field("type", kind) + Field("description", descr)) + "\"datatype\":\""
         == "{\"type\":\"" + kind + "\",\"description\":\"" + descr + "\",\"datatype\":\""
  {
    TypeField(kind);
    DescriptionField(descr);
    Joints();
    hide Field;
    SixJoined("{", "\"type\":\"", kind, "\",", "\"description\":\"", descr, "\"datatype\":\"");
  }

  lemma TypeField(kind: string)
    ensures Field("type", kind) == "\"type\":\"" + kind + "\","
  {
    assert "\"" + "type" + "\":" + "\"" == "\"type\":\"";
  }

  lemma DescriptionField(descr: string)
    ensures Field("description", descr) == "\"description\":\"" + descr + "\","
  {
    assert "\"" + "description" + "\":" + "\"" == "\"description\":\"";
  }

  lemma Joints()
    ensures "{" + "\"type\":\"" == "{\"type\":\"" && "\"," + "\"description\":\"" == "\",\"description\":\""
    ensures "\"," + "\"datatype\":\"" == "\",\"datatype\":\""
  {
  }

  lemma SixJoined(open: string, t: string, kind: string, end: string, d: string, descr: string, last: string)
    ensures open + ((t + kind + end) + (d + descr + end)) + last
         == (open + t) + kind + (end + d) + descr + (end + last)
  {
  }

  lemma Join5(a: string, b: string, c: string, d: string, e: string, f: string)
    ensures a + (b + (c + d + e)) + f == a + b + c + d + (e + f)
  {
  }

  lemma LastFieldCut(front: string, key: string, text: string)
    ensures Cut(front + Field(key, text)) == front + ("\"" + key + "\":\"" + text + "\"")
  {
    var field := "\"" + key + "\":" + ("\"" + text + "\"");
    assert field == "\"" + key + "\":\"" + text + "\"";
    Trim(front, field + ",");
    assert Cut(field + ",") == field;
  }

  predicate IsLeaf(n: Node, kind: string) {
    n.children == [] && IsSignal(n, kind)
  }

  lemma NodeIs(n: Node, levels: int)
    requires levels > 0 && 1 <= n.kind <= 4
    ensures NodeText(n, "", levels) == "\"" + n.name + "\":" + ("{" + Contents(n, "", levels) + "}") + ","
  {
    Wrapped(n.name, Contents(n, "", levels));
    hide Contents;
  }

  lemma Wrapped(name: string, contents: string)
    ensures "" + ("\"" + name + "\":{" + contents + "},") == "\"" + name + "\":" + ("{" + contents + "}") + ","
  {
  }

  lemma LeafContents(n: Node, levels: int)
    requires n.children == [] && levels > 0
    ensures Contents(n, "", levels) == Cut(FieldsText(n))
  {
    hide FieldsText;
  }

  lemma LeafText(n: Node, kind: string, levels: int)
    requires IsLeaf(n, kind) && levels > 0
    ensures NodeText(n, "", levels) == "\"" + n.name + "\":" + LeafLine(kind, n.descr, n.datatype_) + ","
  {
    LeafFields(n, kind);
    hide FieldsText, LeafLine, Contents, NodeText;
    LeafContents(n, levels);
    NodeIs(n, levels);
  }

  /** The answer for a signal. */
  lemma LeafAnswer(n: Node, kind: string, depth: int)
    requires IsLeaf(n, kind) && depth >= 0
    ensures TreeText(Some(n), depth) == "{\"" + n.name + "\":" + LeafLine(kind, n.descr, n.datatype_) + "}"
  {
    LeafText(n, kind, Levels(depth));
    hide LeafLine, NodeText;
    AnswerIs(n.name, LeafLine(kind, n.descr, n.datatype_));
  }

  lemma AnswerIs(name: string, line: string)
    ensures var text := "\"" + name + "\":" + line + ","; "{" + Cut(text) + "}" == "{\"" + name + "\":" + line + "}"
  {
    Trim("\"" + name + "\":" + line, ",");
  }

  lemma BranchFields(n: Node)
    requires n.kind == 4
    ensures "{" + Cut(FieldsText(n)) + "}" == BranchLine(n.descr, "")
  {
    var type_ := Field("type", "branch");
    BranchIs(n);
    LastFieldCut(type_, "description", n.descr);
    hide Field, FieldsText;
    BranchSpelled(type_, n.descr);
  }

  lemma BranchFieldsOn(n: Node, more: string)
    requires n.kind == 4
    ensures "{" + (FieldsText(n) + more) + "}" == BranchLine(n.descr, "," + more)
  {
    BranchIs(n);
    hide Field, FieldsText, BranchLine;
    BranchSpelledOn(Field("type", "branch"), n.descr, more);
  }

  lemma BranchIs(n: Node)
    requires n.kind == 4
    ensures FieldsText(n) == Field("type", "branch") + Field("description", n.descr)
    ensures "{" + Field("type", "branch") + "\"description\":\"" == "{\"type\":\"branch\",\"description\":\""
    ensures Field("description", n.descr) == "\"description\":\"" + n.descr + "\"" + ","
  {
    DescriptionField(n.descr);
    TypeField("branch");
    Joints();
    assert "\"type\":\"" + "branch" + "\"," + "\"description\":\"" == "\"type\":\"branch\",\"description\":\"";
    hide Field;
    assert Field("type", "branch") + Field("description", n.descr) + ""
        == Field("type", "branch") + Field("description", n.descr);
  }

  lemma BranchSpelled(type_: string, descr: string)
    requires "{" + type_ + "\"description\":\"" == "{\"type\":\"branch\",\"description\":\""
    ensures "{" + (type_ + ("\"description\":\"" + descr + "\"")) + "}" == BranchLine(descr, "")
  {
    Join5("{", type_, "\"description\":\"", descr, "\"", "}");
    assert "\"" + "" + "}" == "\"" + "}";
    hide *;
    NothingMore("{\"type\":\"branch\",\"description\":\"" + descr);
  }

  lemma NothingMore(s: string)
    ensures s + "\"" + "" + "}" == s + ("\"" + "}")
  {
  }

  lemma BranchSpelledOn(type_: string, descr: string, more: string)
    requires "{" + type_ + "\"description\":\"" == "{\"type\":\"branch\",\"description\":\""
    ensures "{" + (type_ + ("\"description\":\"" + descr + "\"" + ",") + more) + "}" == BranchLine(descr, "," + more)
  {
    var d := "\"description\":\"";
    assert "{" + (type_ + (d + descr + "\"" + ",") + more) + "}"
        == ("{" + type_ + d) + descr + "\"" + ("," + more) + "}";
  }

  /** The answer for a branch with one signal: with its child, or at depth 1 without. */
  lemma BranchAnswer(n: Node, child: Node, kind: string, depth: int)
    requires n.kind == 4 && n.children == [child] && IsLeaf(child, kind) && depth >= 0
    ensures TreeText(Some(n), depth)
         == "{\"" + n.name + "\":"
            + BranchLine(n.descr,
                         if depth == 1 then ""
                         else ",\"children\":{\"" + child.name + "\":"
                              + LeafLine(kind, child.descr, child.datatype_) + "}")
            + "}"
  {
    var line := BranchLine(n.descr,
                           if depth == 1 then ""
                           else ",\"children\":{\"" + child.name + "\":"
                                + LeafLine(kind, child.descr, child.datatype_) + "}");
    var levels := Levels(depth);
    assert levels == 1 <==> depth == 1;
    if depth == 1 {
      BranchFields(n);
      hide FieldsText, LeafLine, BranchLine;
      assert Contents(n, "", levels) == Cut(FieldsText(n));
    } else {
      BranchContents(n, child, kind, levels);
    }
    hide BranchLine, LeafLine, Contents, NodeText, Levels;
    NodeIs(n, levels);
    NodeAnswer(n, depth);
    AnswerIs(n.name, line);
  }

  lemma NodeAnswer(n: Node, depth: int)
    ensures var text := NodeText(n, "", Levels(depth));
            TreeText(Some(n), depth) == if text == "" then "" else "{" + Cut(text) + "}"
  {
    hide NodeText;
  }

  lemma BranchContents(n: Node, child: Node, kind: string, levels: int)
    requires n.kind == 4 && n.children == [child] && IsLeaf(child, kind) && levels > 1
    ensures "{" + Contents(n, "", levels) + "}"
         == BranchLine(n.descr, ",\"children\":{\"" + child.name + "\":"
                                + LeafLine(kind, child.descr, child.datatype_) + "}")
  {
    var fields, leaf := FieldsText(n), LeafLine(kind, child.descr, child.datatype_);
    hide FieldsText, LeafLine, BranchLine, Contents, Cut;
    var more := "\"children\":{\"" + child.name + "\":" + leaf + "}";
    BranchFieldsOn(n, more);
    BranchCut(n, child, kind, levels);
    WithChild(fields, child.name, leaf);
    CommaInFront(child.name, leaf);
  }

  lemma BranchCut(n: Node, child: Node, kind: string, levels: int)
    requires n.kind == 4 && n.children == [child] && IsLeaf(child, kind) && levels > 1
    ensures Contents(n, "", levels)
         == Cut(FieldsText(n) + "\"children\":{"
                + ("\"" + child.name + "\":" + LeafLine(kind, child.descr, child.datatype_) + ",")) + "}"
  {
    LeafText(child, kind, levels - 1);
    OneChild(child, levels - 1);
    hide FieldsText, LeafLine, ChildrenText, NodeText, Cut;
  }

  lemma CommaInFront(name: string, leaf: string)
    ensures "," + ("\"children\":{\"" + name + "\":" + leaf + "}") == ",\"children\":{\"" + name + "\":" + leaf + "}"
  {
    assert "," + "\"children\":{\"" == ",\"children\":{\"";
  }

  lemma OneChild(child: Node, levels: int)
    ensures ChildrenText([child], "", levels) == NodeText(child, "", levels)
  {
    assert [child][1..] == [] && ChildrenText([], "", levels) == "";
    assert NodeText(child, "", levels) + "" == NodeText(child, "", levels);
  }

  lemma WithChild(fields: string, name: string, leaf: string)
    ensures Cut(fields + "\"children\":{" + ("\"" + name + "\":" + leaf + ",")) + "}"
         == fields + ("\"children\":{\"" + name + "\":" + leaf + "}")
  {
    Trim(fields + "\"children\":{" + ("\"" + name + "\":" + leaf), ",");
    assert fields + "\"children\":{" + ("\"" + name + "\":" + leaf + ",")
        == fields + "\"children\":{" + ("\"" + name + "\":" + leaf) + ",";
    assert "\"children\":{" + "\"" == "\"children\":{\"";
  }
}
