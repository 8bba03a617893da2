/** The feeder's array file written out: the bytes of an element, and the numbers of types and datatypes. */
module FeederBytes {
  import opened Text
  import opened ConversionTool
  import opened FeederArray

  /** The partner's index, the length of the name, the name, type and datatype, and the conversion index; numbers of two
      bytes with the lower byte in front, negative ones as 255. */
  lemma ElementLayout(e: Element)
    requires |e.name| < 256 && -1 <= e.kind && -1 <= e.datatype_
    ensures ElementBytes(e)
         == [(e.mapIndex % 256) as char, (e.mapIndex / 256) as char, |e.name| as char] + e.name
            + [(if e.kind == -1 then 255 else e.kind) as char, (if e.datatype_ == -1 then 255 else e.datatype_) as char,
               (e.convertIndex % 256) as char, (e.convertIndex / 256) as char]
  {
    var head, tail := Bytes16(e.mapIndex) + [B(|e.name|)], [Byte8(e.kind)] + [Byte8(e.datatype_)];
    assert head == [(e.mapIndex % 256) as char, (e.mapIndex / 256) as char, |e.name| as char];
    assert Byte8(e.kind) == (if e.kind == -1 then 255 else e.kind) as char;
    assert Byte8(e.datatype_) == (if e.datatype_ == -1 then 255 else e.datatype_) as char;
    var last := Bytes16(e.convertIndex);
    assert last == [(e.convertIndex % 256) as char, (e.convertIndex / 256) as char];
    hide Bytes16, Byte8, B;
    assert head + e.name + [Byte8(e.kind)] + [Byte8(e.datatype_)] + last == head + e.name + (tail + last);
  }

  datatype Numbered = Numbered(name: string, number: int)

  const TYPES: seq<Numbered> := [Numbered("sensor", 0), Numbered("actuator", 1), Numbered("attribute", 2)]

  lemma TypeNumbers(kind: string)
    ensures forall i :: 0 <= i < |TYPES| ==> TypeIndex(TYPES[i].name) == TYPES[i].number
    ensures (forall i :: 0 <= i < |TYPES| ==> TYPES[i].name != kind) ==> TypeIndex(kind) == -1
  {
    if forall i :: 0 <= i < |TYPES| ==> TYPES[i].name != kind {
      assert TYPES[0].name != kind && TYPES[1].name != kind && TYPES[2].name != kind;
    }
  }

  const NUMBERS: seq<Numbered> :=
    [Numbered("uint8", 0), Numbered("uint16", 1), Numbered("uint32", 2), Numbered("uint64", 3), Numbered("int8", 4),
     Numbered("int16", 5), Numbered("int32", 6), Numbered("int64", 7), Numbered("float32", 8), Numbered("float64", 9),
     Numbered("boolean", 10), Numbered("string", 11), Numbered("uint8[]", 12), Numbered("uint16[]", 13),
     Numbered("uint32[]", 14), Numbered("uint64[]", 15), Numbered("int8[]", 16), Numbered("int16[]", 17),
     Numbered("int32[]", 18), Numbered("int64[]", 19), Numbered("float32[]", 20), Numbered("float64[]", 21),
     Numbered("boolean[]", 22), Numbered("string[]", 23)]

  lemma NumbersAre()
    ensures |NUMBERS| == |DATATYPES| == 24
    ensures forall i :: 0 <= i < 24 ==> NUMBERS[i].name == DATATYPES[i] && NUMBERS[i].number == i
  {
  }

  /** Length and three characters tell the datatypes apart. */
  lemma DatatypesDiffer(i: nat, j: nat)
    requires i < j < 24
    ensures DATATYPES[i] != DATATYPES[j]
  {
    var a, b := DATATYPES[i], DATATYPES[j];
    assert |a| >= 4 && |b| >= 4;
    assert |a| != |b| || a[0] != b[0] || a[|a| - 1] != b[|b| - 1] || a[|a| - 3] != b[|b| - 3];
  }

  lemma {:induction false} IndexInFinds(list: seq<string>, text: string, i: nat, k: nat)
    requires k <= i < |list| && list[i] == text && forall j :: k <= j < i ==> list[j] != text
    ensures IndexIn(list, text, k) == i
    decreases i - k
  {
    if k < i {
      IndexInFinds(list, text, i, k + 1);
    }
  }

  lemma {:induction false} IndexInMisses(list: seq<string>, text: string, k: nat)
    requires k <= |list| && text !in list[k..]
    ensures IndexIn(list, text, k) == |list|
    decreases |list| - k
  {
    if k < |list| {
      assert list[k..] == [list[k]] + list[k + 1..];
      IndexInMisses(list, text, k + 1);
    }
  }

  /** The number of each datatype; float and double stand for the two with a width, and any other text for none. */
  lemma DatatypeNumbers(datatype_: string)
    ensures forall i :: 0 <= i < |NUMBERS| ==> DatatypeIndex(NUMBERS[i].name) == NUMBERS[i].number
    ensures DatatypeIndex("float") == 8 && DatatypeIndex("double") == 9
    ensures (datatype_ != "float" && datatype_ != "double"
             && forall i :: 0 <= i < |NUMBERS| ==> NUMBERS[i].name != datatype_) ==> DatatypeIndex(datatype_) == -1
  {
    NumbersAre();
    forall i | 0 <= i < 24 ensures DatatypeIndex(DATATYPES[i]) == i {
      NumberOf(i);
    }
    hide NUMBERS, DATATYPES;
    if forall i :: 0 <= i < |NUMBERS| ==> NUMBERS[i].name != datatype_ {
      assert DATATYPES[0..] == DATATYPES;
      IndexInMisses(DATATYPES, datatype_, 0);
    }
  }

  lemma NumberOf(i: nat)
    requires i < 24
    ensures DatatypeIndex(DATATYPES[i]) == i
  {
    forall j | 0 <= j < i ensures DATATYPES[j] != DATATYPES[i] {
      DatatypesDiffer(j, i);
    }
    IndexInFinds(DATATYPES, DATATYPES[i], i, 0);
    WithWidth(i);
    hide DATATYPES, IndexIn;
  }

  lemma WithWidth(i: nat)
    requires i < 24
    ensures |DATATYPES| == 24 && DATATYPES[i] != "float" && DATATYPES[i] != "double"
  {
    var a := DATATYPES[i];
    assert |a| >= 4;
    assert |a| != 5 || a[0] != 'f';
    assert |a| != 6 || a[0] != 'd';
  }
}
