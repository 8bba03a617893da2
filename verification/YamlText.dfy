/** The text of the YAML file, read by its indentation. */
module YamlText {
  import opened Text
  import opened YamlWriter

  /** The line that is kept if it is a key of the outermost level: not empty, and not indented. */
  function Kept(line: string): seq<string> {
    if line == "" || line[0] == ' ' then [] else [line]
  }

  /** The lines that are keys of the outermost level. */
  function TopLines(text: string): seq<string>
    decreases |text|
  {
    if text == "" then []
    else
      var n := IndexOf(text, '\n');
      if n < 0 then Kept(text) else Kept(text[..n]) + TopLines(text[n + 1..])
  }

  predicate WholeLines(text: string) {
    text == "" || text[|text| - 1] == '\n'
  }

  lemma FirstLine(line: string, rest: string)
    requires '\n' !in line
    ensures TopLines(line + ("\n" + rest)) == Kept(line) + TopLines(rest)
  {
    var s := line + ("\n" + rest);
    assert s[|line|] == '\n' && s[..|line|] == line && s[|line| + 1..] == rest;
    IndexOfUnique(s, '\n', |line|);
    hide Kept;
  }

  lemma LineSplit(a: string, b: string, n: nat)
    requires n < |a| && a[n] == '\n'
    ensures a == a[..n] + ("\n" + a[n + 1..]) && a + b == a[..n] + ("\n" + (a[n + 1..] + b))
    ensures WholeLines(a) ==> WholeLines(a[n + 1..])
  {
  }

  lemma {:induction false} TopLinesAppend(a: string, b: string)
    requires WholeLines(a)
    ensures TopLines(a + b) == TopLines(a) + TopLines(b)
    decreases |a|
  {
    if a == "" {
      assert a + b == b;
    } else {
      assert a[|a| - 1] in a;
      var n := IndexOf(a, '\n');
      var line, rest := a[..n], a[n + 1..];
      LineSplit(a, b, n);
      hide TopLines, WholeLines, Kept;
      FirstLine(line, rest);
      FirstLine(line, rest + b);
      TopLinesAppend(rest, b);
      Associative(Kept(line), TopLines(rest), TopLines(b));
    }
  }

  lemma Associative(a: seq<string>, b: seq<string>, c: seq<string>)
    ensures (a + b) + c == a + (b + c)
  {
  }

  predicate KeyText(path: string) {
    path != "" && path[0] != ' ' && '\n' !in path
  }

  /** The properties of a signal are whole lines, all of them indented or empty. */
  predicate Nested(item: Item) {
    && KeyText(PathOf(item))
    && (item.Leaf? ==> WholeLines(item.signal.properties) && TopLines(item.signal.properties) == [])
  }

  lemma BranchLines(p: string)
    requires '\n' !in p
    ensures var type_, description := "  type: branch", "  description: " + p;
            && ItemText(Branch(p))
               == (p + ":") + ("\n" + (type_ + ("\n" + (description + ("\n" + ("" + ("\n" + "")))))))
            && '\n' !in type_ && '\n' !in description && '\n' !in p + ":"
            && Kept(type_) == [] && Kept(description) == []
  {
    assert "  type: branch"[0] == ' ' && ("  description: " + p)[0] == ' ';
  }

  lemma LeafLines(s: Signal)
    requires '\n' !in s.path
    ensures ItemText(Leaf(s)) == (s.path + ":") + ("\n" + s.properties) && '\n' !in s.path + ":"
  {
  }

  lemma KeyKept(p: string)
    requires KeyText(p)
    ensures Kept(p + ":") == [p + ":"] && Kept("") == [] && TopLines("") == []
  {
    assert (p + ":")[0] == p[0];
  }

  lemma ItemKey(item: Item)
    requires Nested(item)
    ensures TopLines(ItemText(item)) == [PathOf(item) + ":"]
  {
    var p := PathOf(item);
    KeyKept(p);
    match item
    case Branch(_) =>
      BranchLines(p);
      var type_, description := "  type: branch", "  description: " + p;
      hide TopLines, ItemText, Kept;
      var last := "" + ("\n" + "");
      FirstLine("", "");
      FirstLine(description, last);
      FirstLine(type_, description + ("\n" + last));
      FirstLine(p + ":", type_ + ("\n" + (description + ("\n" + last))));
    case Leaf(s) =>
      LeafLines(s);
      hide TopLines, ItemText, Kept;
      FirstLine(p + ":", s.properties);
  }

  lemma ItemIsLines(item: Item)
    requires item.Leaf? ==> WholeLines(item.signal.properties)
    ensures WholeLines(ItemText(item))
  {
  }

  function Keys(items: seq<Item>): (keys: seq<string>)
    ensures |keys| == |items|
  {
    seq(|items|, i requires 0 <= i < |items| => PathOf(items[i]) + ":")
  }

  lemma KeysLast(items: seq<Item>)
    requires items != []
    ensures Keys(items) == Keys(items[..|items| - 1]) + [PathOf(items[|items| - 1]) + ":"]
  {
  }

  lemma LinesJoin(a: string, b: string)
    requires WholeLines(a) && WholeLines(b)
    ensures WholeLines(a + b)
  {
  }

  /** The outermost keys of a file are the paths of its items, in order. */
  lemma {:induction false} TextKeys(items: seq<Item>)
    requires forall i :: 0 <= i < |items| ==> Nested(items[i])
    ensures TopLines(TreeText(items)) == Keys(items) && WholeLines(TreeText(items))
  {
    hide ItemText, Nested, TopLines, Kept, WholeLines, Keys;
    if items == [] {
      NothingRead();
    } else {
      var n := |items| - 1;
      TextKeys(items[..n]);
      NestedLines(items[n]);
      KeysLast(items);
      TopLinesAppend(TreeText(items[..n]), ItemText(items[n]));
      LinesJoin(TreeText(items[..n]), ItemText(items[n]));
    }
  }

  lemma NestedLines(item: Item)
    requires Nested(item)
    ensures TopLines(ItemText(item)) == [PathOf(item) + ":"] && WholeLines(ItemText(item))
  {
    ItemKey(item);
    ItemIsLines(item);
  }

  lemma NothingRead()
    ensures TopLines(TreeText([])) == Keys([]) && WholeLines(TreeText([]))
  {
  }
}
