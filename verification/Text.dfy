/** Strings as the Go sources use them: sequences of bytes, each byte held in a `char` below 256. */
module Text {

  /** None stands for an absent value, and in results for a Go panic; `:-` passes it on. */
  datatype Option<+T> = None | Some(value: T) {
    predicate IsFailure() {
      None?
    }

    function PropagateFailure<U>(): Option<U>
      requires None?
    {
      None
    }

    function Extract(): T
      requires Some?
    {
      value
    }
  }

  /** Go's conversion `byte(n)`: keeps the low eight bits. */
  function B(n: nat): (c: char)
    ensures N(c) == n % 256
  {
    (n % 256) as char
  }

  function N(c: char): nat {
    c as int
  }

  const QUOTE: char := '"'

  function Quoted(s: string): string {
    "\"" + s + "\""
  }

  /** The index of the first `c` in `s`, or -1 (Go's strings.Index for a one-byte pattern). */
  function IndexOf(s: string, c: char): (i: int)
    ensures -1 <= i < |s|
    ensures i >= 0 ==> s[i] == c && c !in s[..i]
    ensures i == -1 <==> c !in s
  {
    if s == "" then -1
    else if s[0] == c then 0
    else
      var j := IndexOf(s[1..], c);
      assert s[1..][..if j < 0 then 0 else j] == s[1..if j < 0 then 1 else j + 1];
      if j == -1 then -1 else j + 1
  }

  lemma IndexOfUnique(s: string, c: char, i: nat)
    requires i < |s| && s[i] == c && c !in s[..i]
    ensures IndexOf(s, c) == i
  {
    assert c in s;
  }

  /** strings.Replace(s, a, b, -1) for one-byte patterns. */
  function ReplaceAll(s: string, a: char, b: char): (r: string)
    ensures |r| == |s|
    ensures forall i :: 0 <= i < |s| ==> r[i] == if s[i] == a then b else s[i]
  {
    seq(|s|, i requires 0 <= i < |s| => if s[i] == a then b else s[i])
  }

  function QuoteFrom(message: string, i: nat): (r: Option<nat>)
    requires i <= |message|
    ensures r.Some? ==> i <= r.value < |message|
    decreases |message| - i
  {
    if i == |message| then None else if message[i] == QUOTE then Some(i) else QuoteFrom(message, i + 1)
  }

  /** NextQuoteMark: the first quote at or behind `offset`, or `offset` itself. */
  function NextQuote(message: string, offset: nat): nat
    requires offset <= |message|
  {
    match QuoteFrom(message, offset) case None => offset case Some(i) => i
  }

  /** Go's string(b) for a byte b: its code point in UTF-8 (section 3 of RFC 3629), one byte below 128, else two. */
  function Utf8(c: char): (s: string)
    ensures 1 <= |s| <= 2
  {
    if N(c) < 0x80 then [c] else [B(0xC0 + N(c) / 64 % 4), B(0x80 + N(c) % 64)]
  }

  predicate OccursAt(s: string, pat: string, i: nat) {
    i + |pat| <= |s| && s[i..i + |pat|] == pat
  }

  /** The first position of a pattern at or behind i. */
  function FindFrom(s: string, pat: string, i: nat): (r: Option<nat>)
    requires i <= |s|
    ensures r.Some? ==> OccursAt(s, pat, r.value)
    decreases |s| - i
  {
    if OccursAt(s, pat, i) then Some(i)
    else if i == |s| then None
    else FindFrom(s, pat, i + 1)
  }

  /** strings.Index. */
  function Find(s: string, pat: string): int {
    match FindFrom(s, pat, 0) case None => -1 case Some(i) => i
  }

  lemma {:induction false} FindNone(s: string, pat: string, i: nat)
    requires i <= |s| && FindFrom(s, pat, i) == None
    ensures forall k: nat :: i <= k <= |s| ==> !OccursAt(s, pat, k)
    decreases |s| - i
  {
    hide OccursAt;
    if i < |s| {
      FindNone(s, pat, i + 1);
    }
  }

  lemma {:induction false} FindFirst(s: string, pat: string, i: nat, k: nat)
    requires i <= k <= |s| && OccursAt(s, pat, k) && forall j: nat :: i <= j < k ==> !OccursAt(s, pat, j)
    ensures FindFrom(s, pat, i) == Some(k)
    decreases k - i
  {
    hide OccursAt;
    if i < k {
      FindFirst(s, pat, i + 1, k);
    }
  }

  // ---------------------------------------------------------------- decimal numbers

  const MIN_INT64 := -0x8000_0000_0000_0000
  const MAX_INT64 := 0x7FFF_FFFF_FFFF_FFFF

  predicate IsDigit(c: char) {
    '0' <= c <= '9'
  }

  function Digit(d: nat): (c: char)
    requires d < 10
    ensures IsDigit(c) && N(c) == 48 + d
  {
    (48 + d) as char
  }

  function Digits(n: nat): (s: string)
    ensures |s| >= 1
    ensures forall i :: 0 <= i < |s| ==> IsDigit(s[i])
  {
    if n < 10 then [Digit(n)] else Digits(n / 10) + [Digit(n % 10)]
  }

  /** strconv.Itoa. */
  function Itoa(n: int): (s: string)
    ensures |s| >= 1
  {
    if n < 0 then "-" + Digits(-n) else Digits(n)
  }

  predicate AllDigits(s: string) {
    forall i :: 0 <= i < |s| ==> IsDigit(s[i])
  }

  function DigitsValue(s: string): nat
    requires AllDigits(s)
  {
    if s == "" then 0 else 10 * DigitsValue(s[..|s| - 1]) + (N(s[|s| - 1]) - 48)
  }

  /** strconv.Atoi on a 64-bit platform; None stands for its error result. */
  function Atoi(s: string): Option<int> {
    var signed := s != "" && (s[0] == '-' || s[0] == '+');
    var digits := if signed then s[1..] else s;
    if digits == "" || !AllDigits(digits) then None
    else
      var m: int := DigitsValue(digits);
      var v := if signed && s[0] == '-' then -m else m;
      if MIN_INT64 <= v <= MAX_INT64 then Some(v) else None
  }

  lemma {:induction false} DigitsValueOfDigits(n: nat)
    ensures DigitsValue(Digits(n)) == n
  {
    if n >= 10 {
      DigitsValueOfDigits(n / 10);
      assert Digits(n)[..|Digits(n)| - 1] == Digits(n / 10);
    } else {
      assert Digits(n)[..0] == "";
    }
  }

  /** Atoi reads back what Itoa prints, over the whole int64 range. */
  lemma AtoiOfItoa(n: int)
    requires MIN_INT64 <= n <= MAX_INT64
    ensures Atoi(Itoa(n)) == Some(n)
  {
    var s, k := Itoa(n), if n < 0 then -n else n;
    DigitsValueOfDigits(k);
    assert n < 0 ==> s[1..] == Digits(k);
    assert n >= 0 ==> IsDigit(s[0]);
  }

  // ---------------------------------------------------------------- byte-wise order

  /** Go's `a <= b` on strings: lexicographic by bytes. */
  predicate Leq(a: string, b: string) {
    a == "" || (b != "" && (a[0] < b[0] || (a[0] == b[0] && Leq(a[1..], b[1..]))))
  }

  lemma LeqRefl(a: string)
    ensures Leq(a, a)
  {
  }

  lemma {:induction false} LeqAntisym(a: string, b: string)
    requires Leq(a, b) && Leq(b, a)
    ensures a == b
  {
    if a != "" && b != "" {
      LeqAntisym(a[1..], b[1..]);
      assert a == [a[0]] + a[1..] && b == [b[0]] + b[1..];
    }
  }

  lemma {:induction false} LeqTrans(a: string, b: string, c: string)
    requires Leq(a, b) && Leq(b, c)
    ensures Leq(a, c)
  {
    if a != "" && a[0] == b[0] == c[0] {
      LeqTrans(a[1..], b[1..], c[1..]);
    }
  }

  ghost predicate Sorted(list: seq<string>) {
    forall i, j :: 0 <= i <= j < |list| ==> Leq(list[i], list[j])
  }

  predicate Distinct(list: seq<string>) {
    forall i, j :: 0 <= i < j < |list| ==> list[i] != list[j]
  }
}
