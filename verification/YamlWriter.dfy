/** The tool's YAML tree file: branches are written before the first signal below them. */
module YamlWriter {
  import opened Text
  import opened Files

  /** A signal, with the text of its properties and the empty line behind them. */
  datatype Signal = Signal(path: string, properties: string)

  /** What is written, in order. */
  datatype Item = Branch(path: string) | Leaf(signal: Signal)

  function PathOf(item: Item): string {
    match item case Branch(p) => p case Leaf(s) => s.path
  }

  /** A path up to one of its dots. */
  predicate IsParent(p: string, path: string) {
    |p| < |path| && path[|p|] == '.' && path[..|p|] == p
  }

  // ---------------------------------------------------------------- decomposePath

  /** The parents of a path that end before position k, the shortest first. */
  function ParentsTo(path: string, k: nat): (r: seq<string>)
    requires k <= |path|
    ensures |r| <= k
  {
    if k == 0 then []
    else ParentsTo(path, k - 1) + if path[k - 1] == '.' then [path[..k - 1]] else []
  }

  function Parents(path: string): seq<string> {
    ParentsTo(path, |path|)
  }

  /** decomposePath: the parents, the longest of them twice; None for the panic on a path without dots. */
  function Decomposed(path: string): Option<seq<string>> {
    var ps := Parents(path);
    if ps == [] then None else Some(ps + [ps[|ps| - 1]])
  }

  /** strings.Count(path, "."). */
  method CountDots(path: string) returns (n: nat)
    ensures n == |Parents(path)|
  {
    n := 0;
    for k := 0 to |path|
      invariant n == |ParentsTo(path, k)|
    {
      if path[k] == '.' {
        n := n + 1;
      }
    }
  }

  lemma {:induction false} ParentsGrow(path: string, i: nat, k: nat)
    requires i <= k <= |path|
    ensures |ParentsTo(path, i)| <= |ParentsTo(path, k)|
    ensures '.' !in path[i..k] ==> ParentsTo(path, k) == ParentsTo(path, i)
    ensures '.' in path[i..k] ==> |ParentsTo(path, k)| > |ParentsTo(path, i)|
  {
    if i < k {
      ParentsGrow(path, i, k - 1);
      assert path[i..k] == path[i..k - 1] + [path[k - 1]];
    }
  }

  lemma NextParent(path: string, lead: nat, trail: int)
    requires lead <= |path| && trail == IndexOf(path[lead..], '.') + lead
    ensures |ParentsTo(path, lead)| < |Parents(path)| ==>
              lead <= trail < |path| && path[trail] == '.'
              && ParentsTo(path, trail + 1) == ParentsTo(path, lead) + [path[..trail]]
    ensures |ParentsTo(path, lead)| == |Parents(path)| ==> trail == lead - 1
  {
    ParentsGrow(path, lead, |path|);
    assert path[lead..|path|] == path[lead..];
    if '.' in path[lead..] {
      assert path[lead..][..trail - lead] == path[lead..trail];
      ParentsGrow(path, lead, trail);
    }
  }

  method DecomposePath(path: string) returns (branchPaths: Option<seq<string>>)
    ensures branchPaths == Decomposed(path)
  {
    var segments := CountDots(path);
    var paths: seq<string> := [];
    var lead := 0;
    for i := 0 to segments + 1
      invariant lead <= |path|
      invariant i <= segments ==> paths == ParentsTo(path, lead) && |paths| == i
      invariant i <= segments ==> if i == 0 then lead == 0 else lead > 0 && paths[i - 1] == path[..lead - 1]
      invariant i == segments + 1 ==> Some(paths) == Decomposed(path)
    {
      var trail := IndexOf(path[lead..], '.') + lead;
      NextParent(path, lead, trail);
      if i == segments {
        ParentsGrow(path, lead, |path|);
        assert paths == Parents(path);
      }
      if trail < 0 {
        return None;
      }
      paths := paths + [path[..trail]];
      lead := trail + 1;
    }
    return Some(paths);
  }

  lemma {:induction false} ParentsAre(path: string, k: nat, p: string)
    requires k <= |path|
    ensures p in ParentsTo(path, k) <==> |p| < k && IsParent(p, path)
  {
    if k > 0 {
      ParentsAre(path, k - 1, p);
    }
  }

  /** What stands at position i of the parents has all shorter parents in front of it. */
  lemma {:induction false} ParentsInOrder(path: string, k: nat, i: nat, q: string)
    requires k <= |path| && i < |ParentsTo(path, k)| && IsParent(q, ParentsTo(path, k)[i])
    ensures q in ParentsTo(path, k)[..i]
  {
    var ps := ParentsTo(path, k - 1);
    if i < |ps| {
      ParentsInOrder(path, k - 1, i, q);
      assert ParentsTo(path, k)[..i] == ps[..i];
    } else {
      ParentsAre(path, k - 1, q);
      assert ParentsTo(path, k)[..i] == ps;
    }
  }

  // ---------------------------------------------------------------- writeBranches

  /** The list of branches, with those that are new put behind it. */
  function AddNew(list: seq<string>, paths: seq<string>): (r: seq<string>)
    ensures |list| <= |r| && r[..|list|] == list
  {
    if paths == [] then list
    else
      var n := |paths| - 1;
      var l := AddNew(list, paths[..n]);
      if paths[n] in l then l else l + [paths[n]]
  }

  function Branches(paths: seq<string>): (r: seq<Item>)
    ensures |r| == |paths| && forall i :: 0 <= i < |r| ==> r[i] == Branch(paths[i])
  {
    seq(|paths|, i requires 0 <= i < |paths| => Branch(paths[i]))
  }

  /** What is written, and the list of branches afterwards. */
  function Tree(signals: seq<Signal>, list: seq<string>): Option<(seq<Item>, seq<string>)> {
    if signals == [] then Some(([], list))
    else
      var n := |signals| - 1;
      var (items, before) :- Tree(signals[..n], list);
      var paths :- Decomposed(signals[n].path);
      var after := AddNew(before, paths);
      Some((items + Branches(after[|before|..]) + [Leaf(signals[n])], after))
  }

  function Leaves(signals: seq<Signal>): (r: seq<Item>)
    ensures |r| == |signals| && forall i :: 0 <= i < |r| ==> r[i] == Leaf(signals[i])
  {
    seq(|signals|, i requires 0 <= i < |signals| => Leaf(signals[i]))
  }

  /** The same for either kind of file: without branches the list of branches is not looked at. */
  function Written(signals: seq<Signal>, content: string, list: seq<string>): Option<(seq<Item>, seq<string>)> {
    if content == "complete" then Tree(signals, list) else Some((Leaves(signals), list))
  }

  // ---------------------------------------------------------------- the text

  function ItemText(item: Item): string {
    match item
    case Branch(p) => p + ":\n" + "  type: branch\n" + ("  description: " + p + "\n") + "\n"
    case Leaf(s) => s.path + ":\n" + s.properties
  }

  function TreeText(items: seq<Item>): string {
    if items == [] then "" else TreeText(items[..|items| - 1]) + ItemText(items[|items| - 1])
  }

  lemma TreeTextOne(items: seq<Item>, item: Item)
    ensures TreeText(items + [item]) == TreeText(items) + ItemText(item)
  {
    hide ItemText;
    assert (items + [item])[..|items|] == items;
  }

  lemma {:induction false} TreeTextAppend(a: seq<Item>, b: seq<Item>)
    ensures TreeText(a + b) == TreeText(a) + TreeText(b)
  {
    hide ItemText;
    if b == [] {
      assert a + b == a && TreeText(a) + "" == TreeText(a);
    } else {
      var n := |b| - 1;
      assert (a + b)[..|a + b| - 1] == a + b[..n] && (a + b)[|a + b| - 1] == b[n];
      TreeTextAppend(a, b[..n]);
    }
  }

  method WriteBranch(f: File, branchPath: string)
    requires f.Valid()
    modifies f
    ensures f.Valid() && f.pos == old(f.pos) + |ItemText(Branch(branchPath))|
    ensures f.content == Overwritten(old(f.content), old(f.pos), ItemText(Branch(branchPath)))
  {
    hide Overwritten;
    ghost var was, at, done := f.content, f.pos, branchPath + ":\n";
    f.Write(branchPath + ":\n");
    f.Write("  type: branch\n");
    OverwrittenTwice(was, at, done, "  type: branch\n");
    done := done + "  type: branch\n";
    f.Write("  description: " + branchPath + "\n");
    OverwrittenTwice(was, at, done, "  description: " + branchPath + "\n");
    done := done + ("  description: " + branchPath + "\n");
    f.Write("\n");
    OverwrittenTwice(was, at, done, "\n");
  }

  method WriteYamlNode(f: File, node: Signal)
    requires f.Valid()
    modifies f
    ensures f.Valid() && f.pos == old(f.pos) + |ItemText(Leaf(node))|
    ensures f.content == Overwritten(old(f.content), old(f.pos), ItemText(Leaf(node)))
  {
    hide Overwritten;
    ghost var was, at := f.content, f.pos;
    f.Write(node.path + ":\n");
    f.Write(node.properties);
    OverwrittenTwice(was, at, node.path + ":\n", node.properties);
  }

  /** The tool's list of the branches it has written. */
  class Writer {
    var branchPathList: seq<string>

    constructor ()
      ensures branchPathList == []
    {
      branchPathList := [];
    }

    method InBranchList(branchPath: string) returns (found: bool)
      ensures found == (branchPath in branchPathList)
    {
      for i := 0 to |branchPathList|
        invariant branchPath !in branchPathList[..i]
      {
        if branchPath == branchPathList[i] {
          return true;
        }
      }
      assert branchPathList[..|branchPathList|] == branchPathList;
      return false;
    }

    /** What this adds to the file is the text of the branches that it adds to the list. */
    method WriteBranches(f: File, path: string) returns (ok: bool)
      requires f.Valid()
      modifies this, f
      ensures f.Valid() && ok == Decomposed(path).Some?
      ensures ok ==> branchPathList == AddNew(old(branchPathList), Decomposed(path).value)
      ensures ok ==> var text := TreeText(Branches(branchPathList[|old(branchPathList)|..]));
                     f.content == Overwritten(old(f.content), old(f.pos), text) && f.pos == old(f.pos) + |text|
    {
      hide Decomposed, Overwritten, ItemText, TreeText, AddNew;
      var branchPaths := DecomposePath(path);
      if branchPaths == None {
        return false;
      }
      ghost var n, was, at := |branchPathList|, f.content, f.pos;
      AddNothing(branchPathList, branchPaths.value, was, at);
      for i := 0 to |branchPaths.value|
        invariant f.Valid() && n == |old(branchPathList)| <= |branchPathList|
        invariant branchPathList == AddNew(old(branchPathList), branchPaths.value[..i])
        invariant f.content == Overwritten(was, at, TreeText(Branches(branchPathList[n..])))
        invariant f.pos == at + |TreeText(Branches(branchPathList[n..]))|
      {
        AddStep(old(branchPathList), branchPaths.value, i);
        var found := InBranchList(branchPaths.value[i]);
        if !found {
          ghost var before := branchPathList;
          WriteBranch(f, branchPaths.value[i]);
          branchPathList := branchPathList + [branchPaths.value[i]];
          assert branchPathList[n..] == before[n..] + [branchPaths.value[i]];
          assert Branches(branchPathList[n..]) == Branches(before[n..]) + [Branch(branchPaths.value[i])];
          TreeTextOne(Branches(before[n..]), Branch(branchPaths.value[i]));
          OverwrittenTwice(was, at, TreeText(Branches(before[n..])), ItemText(Branch(branchPaths.value[i])));
        }
      }
      assert branchPaths.value[..|branchPaths.value|] == branchPaths.value;
      return true;
    }

    /** createYamlFile on a file that is opened but not truncated; not ok stands for the panic. */
    method CreateYamlFile(f: File, nodeArray: seq<Signal>, treeContent: string) returns (ok: bool)
      requires f.pos == 0
      modifies this, f
      ensures match Written(nodeArray, treeContent, old(branchPathList))
              case None => !ok
              case Some((items, list)) =>
                ok && branchPathList == list && f.content == Overwritten(old(f.content), 0, TreeText(items))
    {
      hide Decomposed, AddNew, Overwritten, ItemText, TreeText, Branches;
      var includeNodes := false;
      if treeContent == "complete" {
        includeNodes := true;
      }
      ghost var was, items := f.content, [];
      TreeTextNothing();
      OverwrittenNothing(was);
      for i := 0 to |nodeArray|
        invariant f.Valid()
        invariant Written(nodeArray[..i], treeContent, old(branchPathList)) == Some((items, branchPathList))
        invariant f.content == Overwritten(was, 0, TreeText(items)) && f.pos == |TreeText(items)|
      {
        assert nodeArray[..i + 1][..i] == nodeArray[..i];
        if includeNodes {
          ghost var n := |branchPathList|;
          var written := WriteBranches(f, nodeArray[i].path);
          if !written {
            TreeFails(nodeArray, i, old(branchPathList));
            return false;
          }
          ghost var fresh_ := Branches(branchPathList[n..]);
          OverwrittenTwice(was, 0, TreeText(items), TreeText(fresh_));
          TreeTextAppend(items, fresh_);
          items := items + fresh_;
        }
        WriteYamlNode(f, nodeArray[i]);
        OverwrittenTwice(was, 0, TreeText(items), ItemText(Leaf(nodeArray[i])));
        TreeTextOne(items, Leaf(nodeArray[i]));
        items := items + [Leaf(nodeArray[i])];
        assert !includeNodes ==> Leaves(nodeArray[..i + 1]) == Leaves(nodeArray[..i]) + [Leaf(nodeArray[i])];
      }
      assert nodeArray[..|nodeArray|] == nodeArray;
      return true;
    }
  }

  lemma TreeTextNothing()
    ensures TreeText([]) == ""
  {
  }

  lemma AddNothing(list: seq<string>, paths: seq<string>, was: string, at: nat)
    requires at <= |was|
    ensures AddNew(list, paths[..0]) == list && Branches(list[|list|..]) == [] && TreeText([]) == ""
    ensures Overwritten(was, at, "") == was
  {
  }

  lemma AddStep(list: seq<string>, paths: seq<string>, i: nat)
    requires i < |paths|
    ensures var l := AddNew(list, paths[..i]);
            AddNew(list, paths[..i + 1]) == if paths[i] in l then l else l + [paths[i]]
  {
    assert paths[..i + 1][..i] == paths[..i];
  }

  lemma {:induction false} TreeFails(signals: seq<Signal>, i: nat, list: seq<string>)
    requires i < |signals| && Tree(signals[..i + 1], list) == None
    ensures Tree(signals, list) == None
  {
    hide Decomposed, AddNew;
    if i + 1 == |signals| {
      assert signals[..i + 1] == signals;
    } else {
      assert signals[..|signals| - 1][..i + 1] == signals[..i + 1];
      TreeFails(signals[..|signals| - 1], i, list);
    }
  }

  // ---------------------------------------------------------------- what the file holds

  /** The paths of the branches, in the order of the file. */
  function BranchPaths(items: seq<Item>): seq<string> {
    if items == [] then []
    else BranchPaths(items[..|items| - 1]) + match items[|items| - 1] case Branch(p) => [p] case Leaf(_) => []
  }

  function Signals(items: seq<Item>): seq<Signal> {
    if items == [] then []
    else Signals(items[..|items| - 1]) + match items[|items| - 1] case Branch(_) => [] case Leaf(s) => [s]
  }

  /** Every parent of the item at position j is a branch in front of it, or in the given list. */
  predicate ParentsBefore(items: seq<Item>, list: seq<string>, j: nat)
    requires j < |items|
  {
    forall p :: p in Parents(PathOf(items[j])) ==> p in list || p in BranchPaths(items[..j])
  }

  /** The branch at position i is a parent of some signal behind it. */
  predicate LeadsToLeaf(items: seq<Item>, i: nat)
    requires i < |items|
  {
    exists j :: i < j < |items| && items[j].Leaf? && IsParent(PathOf(items[i]), items[j].signal.path)
  }

  predicate WellFormed(items: seq<Item>, list: seq<string>) {
    forall j :: 0 <= j < |items| ==> ParentsBefore(items, list, j) && (items[j].Branch? ==> LeadsToLeaf(items, j))
  }

  lemma {:induction false} BranchPathsAppend(a: seq<Item>, b: seq<Item>)
    ensures BranchPaths(a + b) == BranchPaths(a) + BranchPaths(b) && Signals(a + b) == Signals(a) + Signals(b)
  {
    if b == [] {
      assert a + b == a;
    } else {
      var n := |b| - 1;
      assert (a + b)[..|a + b| - 1] == a + b[..n] && (a + b)[|a + b| - 1] == b[n];
      BranchPathsAppend(a, b[..n]);
    }
  }

  lemma {:induction false} BranchPathsOfBranches(paths: seq<string>)
    ensures BranchPaths(Branches(paths)) == paths && Signals(Branches(paths)) == []
  {
    if paths != [] {
      var n := |paths| - 1;
      assert Branches(paths)[..n] == Branches(paths[..n]);
      BranchPathsOfBranches(paths[..n]);
      assert paths == paths[..n] + [paths[n]];
    }
  }

  lemma {:induction false} AddNewHolds(list: seq<string>, paths: seq<string>)
    requires Distinct(list)
    ensures Distinct(AddNew(list, paths)) && forall p :: p in paths ==> p in AddNew(list, paths)
  {
    if paths != [] {
      var n := |paths| - 1;
      AddNewHolds(list, paths[..n]);
      assert paths == paths[..n] + [paths[n]];
    }
  }

  /** A path that is put into the list comes behind all paths that stand in front of it. */
  lemma {:induction false} AddNewInOrder(list: seq<string>, paths: seq<string>, t: nat) returns (m: nat)
    requires |list| <= t < |AddNew(list, paths)| && Distinct(list)
    ensures m < |paths| && AddNew(list, paths)[t] == paths[m]
    ensures forall p :: p in paths[..m] ==> p in AddNew(list, paths)[..t]
  {
    var n := |paths| - 1;
    var l, r := AddNew(list, paths[..n]), AddNew(list, paths);
    if t < |l| {
      m := AddNewInOrder(list, paths[..n], t);
      assert paths[..n][..m] == paths[..m] && r[..t] == l[..t];
    } else {
      m := n;
      AddNewHolds(list, paths[..n]);
      assert r[..t] == l;
    }
  }

  /** The branches in front of position j of the file, with signal s added to it. */
  lemma AddedBranch(s: Signal, before: seq<string>, t: nat, q: string)
    requires Distinct(before) && Decomposed(s.path).Some?
    requires |before| <= t < |AddNew(before, Decomposed(s.path).value)|
    ensures var after := AddNew(before, Decomposed(s.path).value);
            IsParent(after[t], s.path) && (q in Parents(after[t]) ==> q in after[..t])
  {
    var ps, paths := Parents(s.path), Decomposed(s.path).value;
    var m := AddNewInOrder(before, paths, t);
    var i := if m < |ps| then m else |ps| - 1;
    assert paths[m] == ps[i];
    ParentsAre(s.path, |s.path|, ps[i]);
    ParentsAre(ps[i], |ps[i]|, q);
    if q in Parents(ps[i]) {
      ParentsInOrder(s.path, |s.path|, i, q);
      assert q in paths[..m] by {
        var k :| 0 <= k < i && ps[..i][k] == q;
        assert paths[..m][k] == q;
      }
    }
  }

  /** The branches that a signal adds to what has been written. */
  function Fresh(items: seq<Item>, list: seq<string>, s: Signal): seq<string>
    requires Decomposed(s.path).Some?
  {
    var before := list + BranchPaths(items);
    AddNew(before, Decomposed(s.path).value)[|before|..]
  }

  /** The items with those that are written for one signal. */
  function Added(items: seq<Item>, list: seq<string>, s: Signal): seq<Item>
    requires Decomposed(s.path).Some?
  {
    items + Branches(Fresh(items, list, s)) + [Leaf(s)]
  }

  lemma AddedPaths(items: seq<Item>, list: seq<string>, s: Signal, t: nat)
    requires Decomposed(s.path).Some? && t <= |Fresh(items, list, s)|
    ensures var all := Added(items, list, s);
            && |items| + t < |all|
            && BranchPaths(all[..|items| + t]) == BranchPaths(items) + Fresh(items, list, s)[..t]
            && BranchPaths(all) == BranchPaths(items) + Fresh(items, list, s)
            && Signals(all) == Signals(items) + [s]
  {
    var fresh_ := Fresh(items, list, s);
    hide Fresh;
    var all := Added(items, list, s);
    assert all[..|items| + t] == items + Branches(fresh_[..t]);
    BranchPathsAppend(items, Branches(fresh_[..t]));
    BranchPathsOfBranches(fresh_[..t]);
    assert all[..|all| - 1] == items + Branches(fresh_);
    BranchPathsAppend(items, Branches(fresh_));
    BranchPathsOfBranches(fresh_);
  }

  lemma AddedAt(items: seq<Item>, list: seq<string>, s: Signal)
    requires Decomposed(s.path).Some?
    ensures var fresh_, all := Fresh(items, list, s), Added(items, list, s);
            && |all| == |items| + |fresh_| + 1
            && all[..|items|] == items
            && all[|all| - 1] == Leaf(s)
            && forall t :: 0 <= t < |fresh_| ==> all[|items| + t] == Branch(fresh_[t])
  {
    hide Fresh, Decomposed;
  }

  lemma FreshIs(items: seq<Item>, list: seq<string>, s: Signal)
    requires Decomposed(s.path).Some?
    ensures AddNew(list + BranchPaths(items), Decomposed(s.path).value)
            == list + BranchPaths(items) + Fresh(items, list, s)
  {
    hide Decomposed, BranchPaths;
  }

  /** The items written for one signal. */
  lemma SignalHolds(items: seq<Item>, list: seq<string>, s: Signal)
    requires Distinct(list + BranchPaths(items)) && WellFormed(items, list) && Decomposed(s.path).Some?
    ensures var all := Added(items, list, s);
            AddNew(list + BranchPaths(items), Decomposed(s.path).value) == list + BranchPaths(all)
            && Distinct(list + BranchPaths(all)) && WellFormed(all, list) && Signals(all) == Signals(items) + [s]
  {
    hide AddNew, Decomposed, Distinct, Fresh, BranchPaths, Signals, ParentsBefore, LeadsToLeaf, Added;
    var before, fresh_ := list + BranchPaths(items), Fresh(items, list, s);
    AddNewHolds(before, Decomposed(s.path).value);
    AddedPaths(items, list, s, |fresh_|);
    FreshIs(items, list, s);
    assert before + fresh_ == list + (BranchPaths(items) + fresh_);
    var all := Added(items, list, s);
    AddedAt(items, list, s);
    forall j | 0 <= j < |all| ensures ParentsBefore(all, list, j) && (all[j].Branch? ==> LeadsToLeaf(all, j)) {
      if j < |items| {
        assert all == items + all[|items|..];
        OldItemHolds(items, all[|items|..], list, j);
        assert all[j] == items[j];
      } else if j < |all| - 1 {
        NewBranchHolds(items, list, s, j - |items|);
      } else {
        LeafHolds(items, list, s);
      }
    }
  }

  lemma OldItemHolds(items: seq<Item>, more: seq<Item>, list: seq<string>, j: nat)
    requires WellFormed(items, list) && j < |items|
    ensures ParentsBefore(items + more, list, j) && (items[j].Branch? ==> LeadsToLeaf(items + more, j))
  {
    hide IsParent, Parents, BranchPaths;
    var all := items + more;
    assert all[j] == items[j] && all[..j] == items[..j] && ParentsBefore(items, list, j);
    if items[j].Branch? {
      assert LeadsToLeaf(items, j);
      var k :| j < k < |items| && items[k].Leaf? && IsParent(PathOf(items[j]), items[k].signal.path);
      assert all[k] == items[k];
    }
  }

  lemma NewBranchHolds(items: seq<Item>, list: seq<string>, s: Signal, t: nat)
    requires Distinct(list + BranchPaths(items)) && Decomposed(s.path).Some? && t < |Fresh(items, list, s)|
    ensures |items| + t < |Added(items, list, s)|
    ensures ParentsBefore(Added(items, list, s), list, |items| + t) && LeadsToLeaf(Added(items, list, s), |items| + t)
  {
    hide AddNew, Decomposed, Distinct, Parents, BranchPaths, Branches, Fresh, Added, IsParent;
    var before, fresh_, all := list + BranchPaths(items), Fresh(items, list, s), Added(items, list, s);
    var after, j := AddNew(before, Decomposed(s.path).value), |items| + t;
    AddedAt(items, list, s);
    FreshIs(items, list, s);
    AddedPaths(items, list, s, t);
    assert after[|before| + t] == fresh_[t] && after[..|before| + t] == before + fresh_[..t];
    AddedBranch(s, before, |before| + t, "");
    assert LeadsToLeaf(all, j);
    forall q | q in Parents(fresh_[t]) ensures q in list || q in BranchPaths(all[..j]) {
      AddedBranch(s, before, |before| + t, q);
    }
  }

  lemma LeafHolds(items: seq<Item>, list: seq<string>, s: Signal)
    requires Distinct(list + BranchPaths(items)) && Decomposed(s.path).Some?
    ensures ParentsBefore(Added(items, list, s), list, |Added(items, list, s)| - 1)
  {
    var before, fresh_, all := list + BranchPaths(items), Fresh(items, list, s), Added(items, list, s);
    AddNewHolds(before, Decomposed(s.path).value);
    AddedPaths(items, list, s, |fresh_|);
    assert AddNew(before, Decomposed(s.path).value) == before + fresh_;
    assert all[..|all| - 1] == all[..|items| + |fresh_|] && fresh_[..|fresh_|] == fresh_;
    assert forall p :: p in Parents(s.path) ==> p in Decomposed(s.path).value;
  }

  /** Each branch is written once and never again; each item comes behind its parents; each branch leads to a signal
      behind it, so that nothing but parents of signals is written as a branch; and the signals keep their order. */
  lemma {:induction false} TreeHolds(signals: seq<Signal>, list: seq<string>)
    requires Distinct(list) && Tree(signals, list).Some?
    ensures var (items, after) := Tree(signals, list).value;
            && after == list + BranchPaths(items)
            && Distinct(after)
            && WellFormed(items, list)
            && Signals(items) == signals
  {
    hide AddNew, Decomposed, WellFormed, Distinct;
    if signals == [] {
      assert list + [] == list;
      NothingWellFormed(list);
    } else {
      var n := |signals| - 1;
      TreeHolds(signals[..n], list);
      hide BranchPaths, Signals;
      SignalHolds(Tree(signals[..n], list).value.0, list, signals[n]);
      assert signals == signals[..n] + [signals[n]];
    }
  }

  lemma NothingWellFormed(list: seq<string>)
    ensures WellFormed([], list)
  {
  }

  /** Every file that a run of the tool can write, the list of branches being empty before it, is a tree: each branch
      once, each item behind all its parents, nothing but parents of signals as branches, and the signals in order. */
  lemma OwnTree(signals: seq<Signal>)
    requires Tree(signals, []).Some?
    ensures var (items, list) := Tree(signals, []).value;
            WellFormed(items, []) && Distinct(BranchPaths(items)) && list == BranchPaths(items)
                && Signals(items) == signals
  {
    TreeHolds(signals, []);
    assert [] + BranchPaths(Tree(signals, []).value.0) == BranchPaths(Tree(signals, []).value.0);
    hide WellFormed, Tree;
  }

  /** The tree fails only on a path without a dot, which has no parent. */
  lemma {:induction false} TreeFailsIff(signals: seq<Signal>, list: seq<string>)
    ensures Tree(signals, list) == None <==> exists i :: 0 <= i < |signals| && '.' !in signals[i].path
  {
    hide AddNew, Parents;
    if signals != [] {
      var n := |signals| - 1;
      TreeFailsIff(signals[..n], list);
      NoParentsIff(signals[n].path);
      if i :| 0 <= i < |signals| && '.' !in signals[i].path && i < n {
        assert signals[..n][i] == signals[i];
      }
    }
  }

  lemma NoParentsIff(path: string)
    ensures Decomposed(path) == None <==> '.' !in path
  {
    ParentsGrow(path, 0, |path|);
    assert path[0..|path|] == path && ParentsTo(path, 0) == [];
  }

  // ---------------------------------------------------------------- either kind of file

  /** Every parent of an item is a branch in front of it. */
  ghost predicate BehindParents(items: seq<Item>) {
    forall j, p :: 0 <= j < |items| && IsParent(p, PathOf(items[j])) ==> p in BranchPaths(items[..j])
  }

  lemma {:induction false} LeavesAlone(signals: seq<Signal>)
    ensures BranchPaths(Leaves(signals)) == [] && Signals(Leaves(signals)) == signals
  {
    if signals != [] {
      var n := |signals| - 1;
      assert Leaves(signals)[..n] == Leaves(signals[..n]);
      LeavesAlone(signals[..n]);
      assert signals == signals[..n] + [signals[n]];
    }
  }

  /** What a run of the tool writes: the complete file has each branch once, every item behind all its parents, and all
      signals in order, or the tool panics on a path without a dot; any other file has the signals alone. */
  lemma FileHolds(signals: seq<Signal>, content: string)
    ensures Written(signals, content, []) == None
            <==> content == "complete" && exists i :: 0 <= i < |signals| && '.' !in signals[i].path
    ensures Written(signals, content, []).Some? ==>
              var (items, list) := Written(signals, content, []).value;
              && Signals(items) == signals && list == BranchPaths(items)
              && if content == "complete" then
                   && BehindParents(items) && Distinct(list)
                   && forall i :: 0 <= i < |items| && items[i].Branch? ==> LeadsToLeaf(items, i)
                 else forall i :: 0 <= i < |items| ==> items[i].Leaf?
  {
    TreeFailsIff(signals, []);
    LeavesAlone(signals);
    if content == "complete" && Tree(signals, []).Some? {
      OwnTree(signals);
      var items := Tree(signals, []).value.0;
      hide Tree, LeadsToLeaf;
      forall j, p | 0 <= j < |items| && IsParent(p, PathOf(items[j])) ensures p in BranchPaths(items[..j]) {
        ParentsAre(PathOf(items[j]), |PathOf(items[j])|, p);
        assert ParentsBefore(items, [], j);
      }
    }
  }
}
