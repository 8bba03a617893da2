/** The access level that a request inherits from the nodes it touches. */
module AccessLevel {

  /** Rows and columns stand for the levels 0, 1, 2, 11 and 12: none, write-only, read-write, and with consent. */
  const MATRIX: seq<seq<int>> := [[0, 1, 2, 11, 12], [1, 1, 2, 11, 12], [2, 2, 2, 12, 12], [11, 11, 12, 11, 12],
                                  [12, 12, 12, 12, 12]]

  function ToMatrixIndex(level: int): (i: nat)
    ensures i < 5
  {
    match level
    case 0 => 0
    case 1 => 1
    case 2 => 2
    case 11 => 3
    case 12 => 4
    case _ => 0
  }

  function GetMaxValidation(level: int, current: int): int {
    MATRIX[ToMatrixIndex(level)][ToMatrixIndex(current)]
  }

  /** The dispatcher's loop: it starts from -1. */
  function Folded(levels: seq<int>): int {
    if levels == [] then -1 else GetMaxValidation(levels[|levels| - 1], Folded(levels[..|levels| - 1]))
  }

  /** Which access a level protects: none, writing, or reading and writing. A level that is none of the five counts as
      none. */
  function Access(level: int): nat {
    if level == 1 || level == 11 then 1 else if level == 2 || level == 12 then 2 else 0
  }

  predicate NeedsConsent(level: int) {
    level == 11 || level == 12
  }

  /** The highest of the digits, and consent if any level needs it. */
  ghost predicate IsHighest(levels: seq<int>, level: int) {
    && level in {0, 1, 2, 11, 12}
    && (forall i :: 0 <= i < |levels| ==>
        Access(levels[i]) <= Access(level) && (NeedsConsent(levels[i]) ==> NeedsConsent(level)))
    && (Access(level) > 0 ==> exists i :: 0 <= i < |levels| && Access(levels[i]) == Access(level))
    && (NeedsConsent(level) ==> exists i :: 0 <= i < |levels| && NeedsConsent(levels[i]))
  }

  lemma MaxOfTwo(a: int, b: int)
    ensures var m := GetMaxValidation(a, b);
            && m in {0, 1, 2, 11, 12}
            && Access(m) == (if Access(a) >= Access(b) then Access(a) else Access(b))
            && (NeedsConsent(m) <==> NeedsConsent(a) || NeedsConsent(b))
  {
  }

  lemma {:induction false} FoldedIsHighest(levels: seq<int>)
    requires levels != []
    ensures IsHighest(levels, Folded(levels))
  {
    hide GetMaxValidation, Access, NeedsConsent;
    var n := |levels| - 1;
    MaxOfTwo(levels[n], Folded(levels[..n]));
    if n > 0 {
      FoldedIsHighest(levels[..n]);
      assert forall i :: 0 <= i < n ==> levels[..n][i] == levels[i];
    } else {
      assert Access(-1) == 0 && !NeedsConsent(-1) by {
        NoLevel();
      }
    }
  }

  lemma NoLevel()
    ensures Access(-1) == 0 && !NeedsConsent(-1)
  {
  }

  lemma HighestIsUnique(levels: seq<int>, a: int, b: int)
    requires IsHighest(levels, a) && IsHighest(levels, b)
    ensures a == b
  {
  }

  /** The folded level is the highest, and it depends on nothing but which levels occur. */
  lemma FoldedIff(levels: seq<int>, level: int)
    requires levels != []
    ensures Folded(levels) == level <==> IsHighest(levels, level)
  {
    FoldedIsHighest(levels);
    if IsHighest(levels, level) {
      HighestIsUnique(levels, Folded(levels), level);
    }
  }

  predicate Among(a: seq<int>, b: seq<int>) {
    forall i :: 0 <= i < |a| ==> a[i] in b
  }

  lemma OrderAndRepetition(a: seq<int>, b: seq<int>)
    requires a != [] && Among(a, b) && Among(b, a)
    ensures Folded(a) == Folded(b)
  {
    hide Access, NeedsConsent;
    assert a[0] in b;
    FoldedIsHighest(a);
    var m := Folded(a);
    forall i | 0 <= i < |b| ensures Access(b[i]) <= Access(m) && (NeedsConsent(b[i]) ==> NeedsConsent(m)) {
      assert b[i] in a;
    }
    if i :| 0 <= i < |a| && Access(a[i]) == Access(m) {
      assert a[i] in b;
    }
    if i :| 0 <= i < |a| && NeedsConsent(a[i]) {
      assert a[i] in b;
    }
    FoldedIff(b, m);
  }

  /** The dispatcher's switch on the last digit has no other cases. */
  lemma OneOfThree(levels: seq<int>)
    requires levels != []
    ensures 0 <= Folded(levels) % 10 <= 2 && Folded(levels) >= 0 && Folded(levels) % 10 == Access(Folded(levels))
  {
    FoldedIsHighest(levels);
  }
}
