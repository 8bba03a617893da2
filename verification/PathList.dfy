/** The sorted list of leaf paths and the binary search over it. */
module PathList {
  import opened Text

  /** The result of Go's sort.Search(len(list), i => key <= list[i]), searching between i and j. */
  function SearchBetween(list: seq<string>, key: string, i: nat, j: nat): (r: nat)
    requires i <= j <= |list|
    ensures i <= r <= j
    decreases j - i
  {
    if i == j then i
    else
      var h := (i + j) / 2;
      if Leq(key, list[h]) then SearchBetween(list, key, i, h) else SearchBetween(list, key, h + 1, j)
  }

  function SearchIndex(list: seq<string>, key: string): nat {
    SearchBetween(list, key, 0, |list|)
  }

  method Search(list: seq<string>, key: string) returns (index: nat)
    ensures index == SearchIndex(list, key)
  {
    var i, j := 0, |list|;
    while i < j
      invariant i <= j <= |list|
      invariant SearchBetween(list, key, i, j) == SearchIndex(list, key)
    {
      var h := (i + j) / 2;
      if !Leq(key, list[h]) {
        i := h + 1;
      } else {
        j := h;
      }
    }
    return i;
  }

  lemma {:induction false} SearchSplits(list: seq<string>, key: string, i: nat, j: nat)
    requires Sorted(list) && i <= j <= |list|
    ensures var r := SearchBetween(list, key, i, j);
            (forall k :: i <= k < r ==> !Leq(key, list[k]))
            && (forall k :: r <= k < j ==> Leq(key, list[k]))
    decreases j - i
  {
    if i < j {
      var h := (i + j) / 2;
      if Leq(key, list[h]) {
        SearchSplits(list, key, i, h);
        forall k | h <= k < j ensures Leq(key, list[k]) {
          LeqTrans(key, list[h], list[k]);
        }
      } else {
        SearchSplits(list, key, h + 1, j);
        forall k | i <= k <= h ensures !Leq(key, list[k]) {
          if Leq(key, list[k]) {
            LeqTrans(key, list[k], list[h]);
          }
        }
      }
    }
  }

  /** The place where the search of a sorted list must land for `key` to be found. */
  predicate Found(list: seq<string>, key: string) {
    var i := SearchIndex(list, key);
    i < |list| && list[i] == key
  }

  /** Soundness and completeness of the search: it lands on the first occurrence exactly when there is one. */
  lemma SearchFinds(list: seq<string>, key: string)
    requires Sorted(list)
    ensures Found(list, key) <==> key in list
    ensures Found(list, key) ==> key !in list[..SearchIndex(list, key)]
  {
    var r := SearchIndex(list, key);
    SearchSplits(list, key, 0, |list|);
    LeqRefl(key);
    if key in list {
      var k :| 0 <= k < |list| && list[k] == key;
      assert r <= k;
      LeqAntisym(list[r], list[k]);
    }
  }

  /** In a list without repetitions every path is found at its own index. */
  lemma SearchFindsIndex(list: seq<string>, i: nat)
    requires Sorted(list) && i < |list|
    requires forall j, k :: 0 <= j < k < |list| ==> list[j] != list[k]
    ensures SearchIndex(list, list[i]) == i
  {
    SearchFinds(list, list[i]);
    assert list[i] in list;
  }

  // ---------------------------------------------------------------- CompressPath / DecompressPath

  function Dotted(path: string): string {
    ReplaceAll(path, '/', '.')
  }

  /** The int32 index of a path, or -1. */
  function PathToIndex(list: seq<string>, path: string): int {
    if Found(list, Dotted(path)) then SearchIndex(list, Dotted(path)) else -1
  }

  /** None stands for the index panic. */
  function IndexToPath(list: seq<string>, index: int): Option<string> {
    if index < 0 then Some("") else if index < |list| then Some(list[index]) else None
  }

  method CompressPath(list: seq<string>, path: string) returns (index: int)
    ensures index == PathToIndex(list, path)
  {
    var comparePath := Dotted(path);
    index := Search(list, comparePath);
    if index < |list| && list[index] == comparePath {
    } else {
      index := -1;
    }
  }

  /** A listed path, written with dots or slashes, comes back in dot form; any other comes back empty. */
  lemma PathIndexRoundTrip(list: seq<string>, path: string)
    requires Sorted(list)
    ensures IndexToPath(list, PathToIndex(list, path)) == Some(if Dotted(path) in list then Dotted(path) else "")
  {
    SearchFinds(list, Dotted(path));
  }
}
