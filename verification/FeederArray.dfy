/** The array that links each signal to its partner: reordered in place by the tool, written to a file, read by the
    feeder. */
module FeederArray {
  import opened Text
  import opened ConversionTool
  import opened Files

  // ---------------------------------------------------------------- partner indices

  function PartnerFrom(s: seq<Element>, i: nat, id: UInt16, k: nat): UInt16
    requires k <= |s|
    decreases |s| - k
  {
    if k == |s| then MAXUINT16
    else if s[k].mapIndex == id && k != i then k % 0x1_0000
    else PartnerFrom(s, i, id, k + 1)
  }

  /** getCorrespondingIndex: the first other element with the same pair id, as a uint16, or MAXUINT16. */
  function Partner(s: seq<Element>, i: nat): UInt16
    requires i < |s|
  {
    PartnerFrom(s, i, s[i].mapIndex, 0)
  }

  predicate AllPartnered(s: seq<Element>) {
    forall i :: 0 <= i < |s| ==> Partner(s, i) != MAXUINT16
  }

  /** reorderMapIndex: all pair ids are replaced by partner indices, or none. */
  function Reordered(s: seq<Element>): (r: seq<Element>)
    ensures |r| == |s|
  {
    if AllPartnered(s) then seq(|s|, i requires 0 <= i < |s| => s[i].(mapIndex := Partner(s, i))) else s
  }

  method GetCorrespondingIndex(thisIndex: nat, thisMapIndex: UInt16, feederMap: array<Element>) returns (r: UInt16)
    ensures r == PartnerFrom(feederMap[..], thisIndex, thisMapIndex, 0)
  {
    var i := 0;
    while i < feederMap.Length
      invariant i <= feederMap.Length
      invariant PartnerFrom(feederMap[..], thisIndex, thisMapIndex, i)
             == PartnerFrom(feederMap[..], thisIndex, thisMapIndex, 0)
    {
      if feederMap[i].mapIndex == thisMapIndex && i != thisIndex {
        return i % 0x1_0000;
      }
      i := i + 1;
    }
    return MAXUINT16;
  }

  method ReorderMapIndex(feederMap: array<Element>)
    modifies feederMap
    ensures feederMap[..] == Reordered(old(feederMap[..]))
  {
    ghost var s := feederMap[..];
    var reorderMap := new UInt16[feederMap.Length];
    var i := 0;
    while i < feederMap.Length
      invariant i <= feederMap.Length && feederMap[..] == s
      invariant forall k :: 0 <= k < i ==> reorderMap[k] == Partner(s, k) && Partner(s, k) != MAXUINT16
    {
      reorderMap[i] := GetCorrespondingIndex(i, feederMap[i].mapIndex, feederMap);
      if reorderMap[i] == MAXUINT16 {
        assert Partner(s, i) == MAXUINT16;
        return;
      }
      i := i + 1;
    }
    i := 0;
    while i < feederMap.Length
      invariant i <= feederMap.Length
      invariant forall k :: 0 <= k < feederMap.Length ==> reorderMap[k] == Partner(s, k)
      invariant forall k :: 0 <= k < i ==> feederMap[k] == s[k].(mapIndex := Partner(s, k))
      invariant forall k :: i <= k < feederMap.Length ==> feederMap[k] == s[k]
    {
      feederMap[i] := feederMap[i].(mapIndex := reorderMap[i]);
      i := i + 1;
    }
  }

  lemma {:induction false} PartnerFinds(s: seq<Element>, i: nat, id: UInt16, k: nat)
    requires k <= |s| <= 0xFFFF
    ensures var p := PartnerFrom(s, i, id, k);
            if p == MAXUINT16 then forall j :: k <= j < |s| && j != i ==> s[j].mapIndex != id
            else k <= p < |s| && p != i && s[p].mapIndex == id
                 && forall j :: k <= j < p && j != i ==> s[j].mapIndex != id
    decreases |s| - k
  {
    if k < |s| && !(s[k].mapIndex == id && k != i) {
      PartnerFinds(s, i, id, k + 1);
    }
  }

  /** Some other element has the same pair id. */
  predicate HasPartner(s: seq<Element>, i: nat)
    requires i < |s|
  {
    exists j :: 0 <= j < |s| && j != i && s[j].mapIndex == s[i].mapIndex
  }

  /** No pair id occurs three times. */
  predicate AtMostTwice(s: seq<Element>) {
    forall i, j, k :: 0 <= i < j < k < |s| ==> !(s[i].mapIndex == s[j].mapIndex && s[j].mapIndex == s[k].mapIndex)
  }

  /** Every index points to another element that points back. */
  predicate Linked(s: seq<Element>) {
    forall i :: 0 <= i < |s| ==> s[i].mapIndex < |s| && s[i].mapIndex != i && s[s[i].mapIndex].mapIndex == i
  }

  lemma {:induction false} PartnerMissing(s: seq<Element>, i: nat, id: UInt16, k: nat)
    requires k <= |s| && forall j :: k <= j < |s| && j != i ==> s[j].mapIndex != id
    ensures PartnerFrom(s, i, id, k) == MAXUINT16
    decreases |s| - k
  {
    if k < |s| {
      PartnerMissing(s, i, id, k + 1);
    }
  }

  /** An array of any length with an unpaired id stays as it is. */
  lemma UnpartneredUnchanged(s: seq<Element>, i: nat)
    requires i < |s| && !HasPartner(s, i)
    ensures Reordered(s) == s
  {
    PartnerMissing(s, i, s[i].mapIndex, 0);
  }

  lemma {:induction false} PartnerSkips(s: seq<Element>, i: nat, id: UInt16, k: nat, p: nat)
    requires k <= p < |s| && p != i && s[p].mapIndex == id && forall j :: k <= j < p && j != i ==> s[j].mapIndex != id
    ensures PartnerFrom(s, i, id, k) == p % 0x1_0000
    decreases p - k
  {
    if k < p {
      PartnerSkips(s, i, id, k + 1, p);
    }
  }

  /** With 65536 elements or more, a pair that ends at index 65535 passes for an unpaired id: nothing is linked. */
  lemma TooLongUnchanged(s: seq<Element>, i: nat)
    requires |s| > 0xFFFF && i < 0xFFFF && s[i].mapIndex == s[0xFFFF].mapIndex
    requires forall j :: 0 <= j < 0xFFFF && j != i ==> s[j].mapIndex != s[i].mapIndex
    ensures Reordered(s) == s
  {
    PartnerSkips(s, i, s[i].mapIndex, 0, 0xFFFF);
  }

  lemma PartneredReordered(s: seq<Element>)
    requires |s| <= 0xFFFF && forall i :: 0 <= i < |s| ==> HasPartner(s, i)
    ensures AllPartnered(s)
    ensures forall i :: 0 <= i < |s| ==> Partner(s, i) < |s| && Partner(s, i) != i
                                         && s[Partner(s, i)].mapIndex == s[i].mapIndex
  {
    forall i | 0 <= i < |s|
      ensures Partner(s, i) != MAXUINT16 && Partner(s, i) < |s| && Partner(s, i) != i
              && s[Partner(s, i)].mapIndex == s[i].mapIndex
    {
      PartnerFinds(s, i, s[i].mapIndex, 0);
      assert HasPartner(s, i);
    }
  }

  /** Where every id has a partner, the reordered array is a matching of its elements exactly when no id occurs three
      times. */
  lemma LinkedIff(s: seq<Element>)
    requires |s| <= 0xFFFF && forall i :: 0 <= i < |s| ==> HasPartner(s, i)
    ensures Linked(Reordered(s)) <==> AtMostTwice(s)
  {
    hide PartnerFrom, HasPartner;
    PartneredReordered(s);
    if AtMostTwice(s) {
      TwiceIsLinked(s);
    } else {
      var i, j, k :| 0 <= i < j < k < |s| && s[i].mapIndex == s[j].mapIndex && s[j].mapIndex == s[k].mapIndex;
      FirstIsShared(s, i, j, k);
      var r, p := Reordered(s), Partner(s, j);
      assert r[j].mapIndex == p && r[k].mapIndex == p;
      hide Linked;
      LinkedInjective(r, j, k);
    }
  }

  lemma LinkedInjective(s: seq<Element>, j: nat, k: nat)
    requires j < |s| && k < |s| && s[j].mapIndex == s[k].mapIndex
    ensures Linked(s) ==> j == k
  {
    var p := s[j].mapIndex;
    assert Linked(s) ==> p < |s| && s[p].mapIndex == j;
  }

  lemma TwiceIsLinked(s: seq<Element>)
    requires |s| <= 0xFFFF && AllPartnered(s) && AtMostTwice(s)
    requires forall i :: 0 <= i < |s| ==> Partner(s, i) < |s| && Partner(s, i) != i
                                          && s[Partner(s, i)].mapIndex == s[i].mapIndex
    ensures Linked(Reordered(s))
  {
    hide Partner, AtMostTwice;
    var r := Reordered(s);
    forall i | 0 <= i < |r| ensures r[i].mapIndex < |r| && r[i].mapIndex != i && r[r[i].mapIndex].mapIndex == i {
      TwoOfThree(s, i, Partner(s, i), Partner(s, Partner(s, i)));
    }
  }

  lemma TwoOfThree(s: seq<Element>, i: nat, j: nat, k: nat)
    requires AtMostTwice(s) && i < |s| && j < |s| && k < |s| && i != j && j != k
    requires s[i].mapIndex == s[j].mapIndex && s[j].mapIndex == s[k].mapIndex
    ensures i == k
  {
    hide AtMostTwice;
    var a, b := if i < j then i else j, if i < j then j else i;
    if k < a {
      NoThree(s, k, a, b);
    } else if a < k < b {
      NoThree(s, a, k, b);
    } else if b < k {
      NoThree(s, a, b, k);
    }
  }

  lemma NoThree(s: seq<Element>, i: nat, j: nat, k: nat)
    requires AtMostTwice(s) && i < j < k < |s|
    ensures !(s[i].mapIndex == s[j].mapIndex && s[j].mapIndex == s[k].mapIndex)
  {
  }

  /** The two later of three elements with one id share their partner. */
  lemma FirstIsShared(s: seq<Element>, i: nat, j: nat, k: nat)
    requires |s| <= 0xFFFF && i < j < k < |s| && s[i].mapIndex == s[j].mapIndex && s[j].mapIndex == s[k].mapIndex
    ensures Partner(s, j) == Partner(s, k) && Partner(s, j) <= i
  {
    PartnerFinds(s, j, s[j].mapIndex, 0);
    PartnerFinds(s, k, s[k].mapIndex, 0);
  }

  // ---------------------------------------------------------------- the file

  /** serializeUInt for 16 bits: least significant byte first. */
  function Bytes16(n: UInt16): string {
    [B(n % 256), B(n / 256)]
  }

  /** The conversion uint8(x) of a signed byte. */
  function Byte8(n: Int8): char {
    B(n % 256)
  }

  /** writeElement: the length of the name is cut to one byte. */
  function ElementBytes(e: Element): string {
    Bytes16(e.mapIndex) + [B(|e.name|)] + e.name + [Byte8(e.kind)] + [Byte8(e.datatype_)] + Bytes16(e.convertIndex)
  }

  function ArrayBytes(s: seq<Element>): string {
    if s == [] then "" else ElementBytes(s[0]) + ArrayBytes(s[1..])
  }

  /** deSerializeUInt for 16 and for 8 bits. */
  function ToUInt16(b: string): UInt16
    requires |b| == 2
  {
    (N(b[1]) * 256 + N(b[0])) % 0x1_0000
  }

  function ToUInt8(b: string): nat
    requires |b| == 1
  {
    N(b[0]) % 256
  }

  /** The conversion int8(b) of a byte. */
  function ToInt8(b: string): Int8
    requires |b| == 1
  {
    if ToUInt8(b) < 128 then ToUInt8(b) else ToUInt8(b) - 256
  }

  /** readElement: the element at the front, and what remains of the file. */
  function ReadElement(rest: string): (Element, string) {
    var r1 := Drop(rest, 2);
    var len := ToUInt8(Next(r1, 1));
    var r2 := Drop(r1, 1);
    var r3 := Drop(r2, len);
    var r4 := Drop(r3, 1);
    var r5 := Drop(r4, 1);
    (Element(ToUInt16(Next(rest, 2)), Next(r2, len), ToInt8(Next(r3, 1)), ToInt8(Next(r4, 1)), ToUInt16(Next(r5, 2))),
     Drop(r5, 2))
  }

  lemma ReadElementShrinks(rest: string)
    ensures |ReadElement(rest).1| <= |rest|
    ensures ReadElement(rest).0.name != "" ==> |ReadElement(rest).1| < |rest|
  {
  }

  /** readFeederMap: elements up to the first without a name. */
  function ReadArray(rest: string): seq<Element>
    decreases |rest|
  {
    ReadElementShrinks(rest);
    var (e, after) := ReadElement(rest);
    if e.name == "" then [] else [e] + ReadArray(after)
  }

  method WriteElement(f: File, e: Element)
    requires f.Valid()
    modifies f
    ensures f.Valid() && f.pos == old(f.pos) + |ElementBytes(e)|
    ensures f.content == Overwritten(old(f.content), old(f.pos), ElementBytes(e))
  {
    hide Overwritten, Byte8, Bytes16;
    ghost var was, at := f.content, f.pos;
    f.Write(Bytes16(e.mapIndex));
    ghost var done := Bytes16(e.mapIndex);
    f.Write([B(|e.name|)]);
    OverwrittenTwice(was, at, done, [B(|e.name|)]);
    done := done + [B(|e.name|)];
    f.Write(e.name);
    OverwrittenTwice(was, at, done, e.name);
    done := done + e.name;
    f.Write([Byte8(e.kind)]);
    OverwrittenTwice(was, at, done, [Byte8(e.kind)]);
    done := done + [Byte8(e.kind)];
    f.Write([Byte8(e.datatype_)]);
    OverwrittenTwice(was, at, done, [Byte8(e.datatype_)]);
    done := done + [Byte8(e.datatype_)];
    f.Write(Bytes16(e.convertIndex));
    OverwrittenTwice(was, at, done, Bytes16(e.convertIndex));
  }

  method WriteArrayToFile(f: File, feederMap: array<Element>)
    requires f.pos == 0
    modifies f
    ensures f.Valid()
    ensures f.content == Overwritten(old(f.content), 0, ArrayBytes(feederMap[..]))
  {
    hide Overwritten, ElementBytes;
    ghost var was := f.content;
    OverwrittenNothing(f.content);
    for i := 0 to feederMap.Length
      invariant f.Valid() && f.pos == |ArrayBytes(feederMap[..i])|
      invariant f.content == Overwritten(was, 0, ArrayBytes(feederMap[..i]))
    {
      WriteElement(f, feederMap[i]);
      OverwrittenTwice(was, 0, ArrayBytes(feederMap[..i]), ElementBytes(feederMap[i]));
      assert feederMap[..i + 1] == feederMap[..i] + [feederMap[i]];
      ArrayBytesAppend(feederMap[..i], feederMap[i]);
    }
    assert feederMap[..feederMap.Length] == feederMap[..];
  }

  method ReadElementFrom(f: File) returns (e: Element)
    requires f.Valid()
    modifies f`pos
    ensures f.Valid() && (e, f.content[f.pos..]) == ReadElement(old(f.content[f.pos..]))
  {
    hide Next, Drop, ToUInt8, ToInt8, ToUInt16;
    var mapIndex := f.ReadBytes(2);
    var nameLen := f.ReadBytes(1);
    var name := f.ReadBytes(ToUInt8(nameLen));
    var kind := f.ReadBytes(1);
    var datatype_ := f.ReadBytes(1);
    var convertIndex := f.ReadBytes(2);
    return Element(ToUInt16(mapIndex), name, ToInt8(kind), ToInt8(datatype_), ToUInt16(convertIndex));
  }

  method ReadFeederMap(f: File) returns (feederMap: seq<Element>)
    requires f.pos == 0
    modifies f`pos
    ensures feederMap == ReadArray(f.content)
  {
    hide ReadElement;
    feederMap := [];
    assert f.content[0..] == f.content;
    while true
      invariant f.Valid()
      invariant feederMap + ReadArray(f.content[f.pos..]) == ReadArray(f.content)
      decreases |f.content[f.pos..]|
    {
      ghost var rest := f.content[f.pos..];
      ReadElementShrinks(rest);
      var mapElement := ReadElementFrom(f);
      if mapElement.name == "" {
        break;
      }
      assert ReadArray(rest) == [mapElement] + ReadArray(f.content[f.pos..]);
      feederMap := feederMap + [mapElement];
    }
  }

  lemma {:induction false} ArrayBytesAppend(s: seq<Element>, e: Element)
    ensures ArrayBytes(s + [e]) == ArrayBytes(s) + ElementBytes(e)
  {
    hide ElementBytes;
    if s == [] {
      assert s + [e] == [e] && [e][1..] == [];
    } else {
      assert (s + [e])[1..] == s[1..] + [e];
      ArrayBytesAppend(s[1..], e);
    }
  }

  /** createFeederArray, on the rows in the order of the query. */
  method CreateFeederArray(f: File, rows: seq<Row>)
    requires f.pos == 0
    modifies f
    ensures f.content == match ElementsOf(rows)
                         case None => old(f.content)
                         case Some(es) => Overwritten(old(f.content), 0, ArrayBytes(Reordered(es)))
  {
    var elements: seq<Element> := [];
    for i := 0 to |rows|
      invariant ElementsOf(rows[..i]) == Some(elements) && f.content == old(f.content) && f.pos == 0
    {
      hide ElementOf;
      assert rows[..i + 1][..i] == rows[..i];
      var element := ElementOf(rows[i]);
      if element.None? {
        ElementsFail(rows, i);
        return;
      }
      elements := elements + [element.value];
    }
    assert rows[..|rows|] == rows;
    hide ElementsOf, Overwritten, Reordered, ArrayBytes;
    var feederMap := new Element[|elements|](i requires 0 <= i < |elements| => elements[i]);
    assert feederMap[..] == elements;
    ReorderMapIndex(feederMap);
    WriteArrayToFile(f, feederMap);
  }

  lemma {:induction false} ElementsFail(rows: seq<Row>, i: nat)
    requires i < |rows| && ElementsOf(rows[..i + 1]) == None
    ensures ElementsOf(rows) == None
  {
    hide ElementOf;
    if i + 1 == |rows| {
      assert rows[..i + 1] == rows;
    } else {
      assert rows[..|rows| - 1][..i + 1] == rows[..i + 1];
      ElementsFail(rows[..|rows| - 1], i);
    }
  }

  // ---------------------------------------------------------------- round trip of the file

  lemma Bytes16RoundTrip(n: UInt16)
    ensures ToUInt16(Bytes16(n)) == n
  {
    var hi, lo := n / 256, n % 256;
    assert N(B(hi)) == hi && N(B(lo)) == lo;
    hide B, N;
  }

  lemma Byte8RoundTrip(n: Int8)
    ensures ToInt8([Byte8(n)]) == n
  {
  }

  lemma NextAndDrop(bytes: string, rest: string)
    ensures Next(bytes + rest, |bytes|) == bytes && Drop(bytes + rest, |bytes|) == rest
  {
  }

  predicate GoodName(e: Element) {
    1 <= |e.name| <= 255
  }

  /** An element behind its length byte. */
  function NameOn(e: Element, tail: string): string {
    e.name + ([Byte8(e.kind)] + ([Byte8(e.datatype_)] + (Bytes16(e.convertIndex) + tail)))
  }

  lemma ElementBytesSplit(e: Element, tail: string)
    ensures ElementBytes(e) + tail == Bytes16(e.mapIndex) + ([B(|e.name|)] + NameOn(e, tail))
  {
    hide Bytes16, Byte8, B;
  }

  lemma ElementRoundTrip(e: Element, tail: string)
    requires GoodName(e)
    ensures ReadElement(ElementBytes(e) + tail) == (e, tail)
  {
    ElementBytesSplit(e, tail);
    Bytes16RoundTrip(e.mapIndex);
    Byte8RoundTrip(e.kind);
    Byte8RoundTrip(e.datatype_);
    Bytes16RoundTrip(e.convertIndex);
    assert ToUInt8([B(|e.name|)]) == |e.name|;
    hide Next, Drop, ToUInt8, ToInt8, ToUInt16, Byte8, Bytes16, B, ElementBytes;
    var r5 := Bytes16(e.convertIndex) + tail;
    var r4 := [Byte8(e.datatype_)] + r5;
    var r3 := [Byte8(e.kind)] + r4;
    NextAndDrop(Bytes16(e.mapIndex), [B(|e.name|)] + NameOn(e, tail));
    NextAndDrop([B(|e.name|)], NameOn(e, tail));
    NextAndDrop(e.name, r3);
    NextAndDrop([Byte8(e.kind)], r4);
    NextAndDrop([Byte8(e.datatype_)], r5);
    NextAndDrop(Bytes16(e.convertIndex), tail);
    Bytes16Length(e.mapIndex);
    Bytes16Length(e.convertIndex);
  }

  lemma Bytes16Length(n: UInt16)
    ensures |Bytes16(n)| == 2
  {
  }

  /** What a name of another length is read as: its length cut to a byte. */
  lemma BadNameRead(e: Element, tail: string)
    requires !GoodName(e)
    ensures |ReadElement(ElementBytes(e) + tail).0.name| == |e.name| % 256
  {
    ElementBytesSplit(e, tail);
    assert ToUInt8([B(|e.name|)]) == |e.name| % 256;
    NextAndDrop(Bytes16(e.mapIndex), [B(|e.name|)] + NameOn(e, tail));
    NextAndDrop([B(|e.name|)], NameOn(e, tail));
    hide NameOn, Bytes16, B, ElementBytes, ToUInt8, Next, Drop;
    Bytes16Length(e.mapIndex);
    NextLength(NameOn(e, tail), ToUInt8([B(|e.name|)]));
  }

  lemma NextLength(rest: string, n: nat)
    ensures |Next(rest, n)| == n
  {
  }

  lemma ReadNamed(rest: string, e: Element, after: string)
    requires ReadElement(rest) == (e, after) && e.name != ""
    ensures |after| < |rest| && ReadArray(rest) == [e] + ReadArray(after)
  {
    ReadElementShrinks(rest);
    hide ReadElement;
  }

  lemma FirstRead(s: seq<Element>, tail: string)
    requires s != [] && GoodName(s[0])
    ensures var rest := ArrayBytes(s[1..]) + tail;
            ArrayBytes(s) + tail == ElementBytes(s[0]) + rest
            && ReadArray(ArrayBytes(s) + tail) == [s[0]] + ReadArray(rest)
  {
    var rest := ArrayBytes(s[1..]) + tail;
    ArrayBytesHead(s, tail);
    hide ArrayBytes;
    ElementRoundTrip(s[0], rest);
    ReadNamed(ElementBytes(s[0]) + rest, s[0], rest);
  }

  lemma ArrayBytesHead(s: seq<Element>, tail: string)
    requires s != []
    ensures ArrayBytes(s) + tail == ElementBytes(s[0]) + (ArrayBytes(s[1..]) + tail)
  {
    hide ElementBytes;
  }

  /** Reading an array and whatever stands behind it. */
  lemma {:induction false} ArrayReads(s: seq<Element>, tail: string)
    requires forall i :: 0 <= i < |s| ==> GoodName(s[i])
    ensures ReadArray(ArrayBytes(s) + tail) == s + ReadArray(tail)
  {
    hide ReadArray, GoodName, ElementBytes;
    if s == [] {
      assert ArrayBytes(s) + tail == tail && s + ReadArray(tail) == ReadArray(tail);
    } else {
      FirstRead(s, tail);
      ArrayReads(s[1..], tail);
      assert s + ReadArray(tail) == [s[0]] + (s[1..] + ReadArray(tail));
    }
  }

  lemma NameLength(rest: string)
    ensures |ReadElement(rest).0.name| == if |rest| < 3 then 0 else N(rest[2]) % 256
  {
    var len := ToUInt8(Next(Drop(rest, 2), 1));
    assert len == if |rest| < 3 then 0 else N(rest[2]) % 256;
    hide Drop, ToUInt8, ToInt8, ToUInt16;
    NextLength(Drop(Drop(rest, 2), 1), len);
  }

  /** Nothing is read where the first name is empty, or missing. */
  lemma ReadNothingIff(rest: string)
    ensures ReadArray(rest) == [] <==> |rest| < 3 || N(rest[2]) % 256 == 0
  {
    NameLength(rest);
    hide ReadElement;
  }

  /** The file gives back the array it was written from, in a file that held `was` before, exactly when every name has
      1 to 255 bytes and no named element is left over behind the array. */
  lemma FileRoundTripIff(s: seq<Element>, was: string)
    ensures var n := |ArrayBytes(s)|;
            ReadArray(Overwritten(was, 0, ArrayBytes(s))) == s
            <==> && (forall i :: 0 <= i < |s| ==> GoodName(s[i]))
                 && (|was| < n + 3 || N(was[n + 2]) % 256 == 0)
  {
    var stale := Drop(was, |ArrayBytes(s)|);
    assert Overwritten(was, 0, ArrayBytes(s)) == ArrayBytes(s) + stale;
    assert |stale| < 3 || N(stale[2]) % 256 == 0
        <==> |was| < |ArrayBytes(s)| + 3 || N(was[|ArrayBytes(s)| + 2]) % 256 == 0;
    hide ArrayBytes, ReadArray, Overwritten, Drop;
    if i :| 0 <= i < |s| && !GoodName(s[i]) {
      BadArrayReads(s, stale);
    } else {
      ArrayReads(s, stale);
      ReadNothingIff(stale);
      NothingAdded(s, ReadArray(stale));
    }
  }

  lemma NothingAdded(s: seq<Element>, t: seq<Element>)
    ensures s + t == s <==> t == []
  {
    assert |s + t| == |s| + |t|;
    assert s + [] == s;
  }

  lemma {:induction false} BadArrayReads(s: seq<Element>, tail: string)
    requires exists i :: 0 <= i < |s| && !GoodName(s[i])
    ensures ReadArray(ArrayBytes(s) + tail) != s
  {
    hide ElementBytes, ReadElement;
    var rest := ArrayBytes(s[1..]) + tail;
    assert ArrayBytes(s) + tail == ElementBytes(s[0]) + rest;
    if GoodName(s[0]) {
      ElementRoundTrip(s[0], rest);
      var i :| 0 <= i < |s| && !GoodName(s[i]);
      assert !GoodName(s[1..][i - 1]);
      BadArrayReads(s[1..], tail);
      assert s[1..] != ReadArray(rest) && ([s[0]] + ReadArray(rest))[1..] == ReadArray(rest);
    } else {
      BadNameRead(s[0], rest);
    }
  }
}
