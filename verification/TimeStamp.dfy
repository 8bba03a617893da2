/** The 30-bit time stamp packing of the proprietary codec. */
module TimeStamp {
  import opened Text

  /** The decimal fields of "202y-mm-ddThh:mm:ssZ"; `year` is its last digit. */
  datatype Stamp = Stamp(year: nat, month: nat, day: nat, hour: nat, minute: nat, second: nat)

  /** The fields fit their bit fields. */
  predicate Packable(s: Stamp) {
    s.year < 64 && s.month < 16 && s.day < 32 && s.hour < 32 && s.minute < 64 && s.second < 64
  }

  function Two(d: nat): (t: string)
    ensures |t| == 2
    ensures d < 100 ==> IsDigit(t[0]) && IsDigit(t[1])
  {
    [B(d / 10 + 48), B(d % 10 + 48)]
  }

  /** The quoted text of a time stamp. */
  function Render(s: Stamp): (t: string)
    ensures |t| == 22
  {
    [QUOTE, '2', '0', '2', B(s.year + 48), '-', Two(s.month)[0], Two(s.month)[1], '-', Two(s.day)[0], Two(s.day)[1],
     'T', Two(s.hour)[0], Two(s.hour)[1], ':', Two(s.minute)[0], Two(s.minute)[1],
     ':', Two(s.second)[0], Two(s.second)[1], 'Z', QUOTE]
  }

  /** Byte arithmetic wraps at 256, so letters in place of digits give some number as well. */
  function TwoToOneByte(hi: char, lo: char): nat {
    ((N(hi) - 48) * 10 + (N(lo) - 48)) % 256
  }

  function ReadStamp(t: string): Stamp
    requires |t| >= 20
  {
    Stamp((N(t[4]) - 48) % 256, TwoToOneByte(t[6], t[7]), TwoToOneByte(t[9], t[10]),
          TwoToOneByte(t[12], t[13]), TwoToOneByte(t[15], t[16]), TwoToOneByte(t[18], t[19]))
  }

  function Pack(s: Stamp): (c: string)
    ensures |c| == 4
  {
    [B(s.year * 4 + s.month / 4),
     B(s.month % 4 * 64 + s.day * 2 + s.hour / 16),
     B(s.hour % 16 * 16 + s.minute / 4),
     B(s.minute % 4 * 64 + s.second)]
  }

  function Unpack(c: string): Stamp
    requires |c| >= 4
  {
    Stamp(N(c[0]) / 4,
          N(c[1]) / 64 + N(c[0]) % 4 * 4,
          N(c[1]) % 64 / 2,
          N(c[2]) / 16 + N(c[1]) % 2 * 16,
          N(c[3]) / 64 + N(c[2]) % 16 * 4,
          N(c[3]) % 64)
  }

  /** compressTS on a quoted token. */
  function Compress(t: string): (c: string)
    requires |t| >= 20
    ensures |c| == 4
  {
    Pack(ReadStamp(t))
  }

  /** decompressTs on the four bytes after the key code. */
  function Decompress(c: string): string
    requires |c| >= 4
  {
    Render(Unpack(c))
  }

  /** What the four packed bytes are, as numbers. */
  lemma PackedBytes(s: Stamp)
    requires Packable(s)
    ensures var c := Pack(s);
            && N(c[0]) == s.year * 4 + s.month / 4
            && N(c[1]) == s.month % 4 * 64 + (s.day * 2 + s.hour / 16)
            && N(c[2]) == s.hour % 16 * 16 + s.minute / 4
            && N(c[3]) == s.minute % 4 * 64 + s.second
  {
    assert s.month / 4 < 4 && s.hour / 16 < 2 && s.minute / 4 < 16;
  }

  lemma UnpackFields(c: string, s: Stamp)
    requires Packable(s) && |c| == 4
    requires N(c[0]) == s.year * 4 + s.month / 4 && N(c[1]) == s.month % 4 * 64 + (s.day * 2 + s.hour / 16)
    requires N(c[2]) == s.hour % 16 * 16 + s.minute / 4 && N(c[3]) == s.minute % 4 * 64 + s.second
    ensures Unpack(c) == s
  {
    var monthHi, monthLo, hourHi, hourLo, minuteHi, minuteLo :=
      s.month / 4, s.month % 4, s.hour / 16, s.hour % 16, s.minute / 4, s.minute % 4;
    assert N(c[0]) / 4 == s.year && N(c[0]) % 4 == monthHi;
    assert N(c[1]) / 64 == monthLo && N(c[1]) % 64 == s.day * 2 + hourHi && N(c[1]) % 2 == hourHi;
    assert N(c[2]) / 16 == hourLo && N(c[2]) % 16 == minuteHi;
    assert N(c[3]) / 64 == minuteLo && N(c[3]) % 64 == s.second;
  }

  lemma UnpackOfPack(s: Stamp)
    requires Packable(s)
    ensures Unpack(Pack(s)) == s
  {
    PackedBytes(s);
    UnpackFields(Pack(s), s);
  }

  lemma UnpackPackable(c: string)
    requires |c| == 4 && forall i :: 0 <= i < 4 ==> N(c[i]) < 256
    ensures Packable(Unpack(c))
  {
  }

  lemma TwoRoundTrip(d: nat, t: string, i: nat)
    requires d < 100 && TwoAt(t, i, d)
    ensures TwoToOneByte(t[i], t[i + 1]) == d
  {
    assert d / 10 < 10 && d == d / 10 * 10 + d % 10;
    assert N(t[i]) == d / 10 + 48 && N(t[i + 1]) == d % 10 + 48;
  }

  /** `d` is printed at position `i`. */
  predicate TwoAt(t: string, i: nat, d: nat) {
    i + 2 <= |t| && t[i] == Two(d)[0] && t[i + 1] == Two(d)[1]
  }

  lemma RenderedFields(s: Stamp)
    ensures Render(s)[4] == B(s.year + 48) && TwoAt(Render(s), 6, s.month) && TwoAt(Render(s), 9, s.day)
    ensures TwoAt(Render(s), 12, s.hour) && TwoAt(Render(s), 15, s.minute) && TwoAt(Render(s), 18, s.second)
  {
  }

  /** Between its quotes a rendered stamp holds no quote, and starts with a digit. */
  lemma RenderedText(s: Stamp)
    requires Packable(s) && s.year < 10
    ensures Render(s) == Quoted(Render(s)[1..21]) && QUOTE !in Render(s)[1..21] && Render(s)[1] == '2'
  {
    hide Two;
    var t := Render(s);
    assert IsDigit(B(s.year + 48));
    forall i | 1 <= i < 21 ensures t[i] != QUOTE {
    }
  }

  lemma ReadFields(t: string, s: Stamp)
    requires Packable(s) && |t| >= 20 && t[4] == B(s.year + 48)
    requires TwoAt(t, 6, s.month) && TwoAt(t, 9, s.day) && TwoAt(t, 12, s.hour)
    requires TwoAt(t, 15, s.minute) && TwoAt(t, 18, s.second)
    ensures ReadStamp(t) == s
  {
    hide TwoAt, TwoToOneByte;
    TwoRoundTrip(s.month, t, 6);
    TwoRoundTrip(s.day, t, 9);
    TwoRoundTrip(s.hour, t, 12);
    TwoRoundTrip(s.minute, t, 15);
    TwoRoundTrip(s.second, t, 18);
  }

  lemma ReadStampOfRender(s: Stamp)
    requires Packable(s)
    ensures ReadStamp(Render(s)) == s
  {
    RenderedFields(s);
    ReadFields(Render(s), s);
  }

  /** The round trip restores a time stamp token exactly when it has the shape 202y-mm-ddThh:mm:ssZ with packable
      fields. */
  lemma RoundTripIff(t: string)
    requires |t| >= 20
    ensures Decompress(Compress(t)) == t <==> exists s :: Packable(s) && t == Render(s)
  {
    if Decompress(Compress(t)) == t {
      UnpackPackable(Compress(t));
      assert t == Render(Unpack(Compress(t)));
    }
    if s :| Packable(s) && t == Render(s) {
      ReadStampOfRender(s);
      UnpackOfPack(s);
    }
  }

  predicate NotAfter(a: Stamp, b: Stamp) {
    || a.year < b.year
    || (a.year == b.year && (a.month < b.month
    || (a.month == b.month && (a.day < b.day
    || (a.day == b.day && (a.hour < b.hour
    || (a.hour == b.hour && (a.minute < b.minute
    || (a.minute == b.minute && a.second <= b.second)))))))))
  }

  /** The packed bytes as one big-endian number. */
  function Number(c: string): nat
    requires |c| == 4
  {
    N(c[0]) * 0x100_0000 + N(c[1]) * 0x1_0000 + N(c[2]) * 0x100 + N(c[3])
  }

  lemma NumberOfPack(s: Stamp)
    requires Packable(s)
    ensures Number(Pack(s)) == s.year * 0x400_0000 + s.month * 0x40_0000 + s.day * 0x2_0000
                               + s.hour * 0x1000 + s.minute * 0x40 + s.second
  {
    PackedBytes(s);
  }

  lemma LeqByNumber(a: string, b: string)
    requires |a| == |b| == 4
    requires forall i :: 0 <= i < 4 ==> N(a[i]) < 256 && N(b[i]) < 256
    ensures Leq(a, b) <==> Number(a) <= Number(b)
  {
    assert Leq(a[4..], b[4..]);
    assert Leq(a[3..], b[3..]) <==> N(a[3]) <= N(b[3]) by {
      assert a[3..][1..] == a[4..] && b[3..][1..] == b[4..];
    }
    assert Leq(a[2..], b[2..]) <==> N(a[2]) * 256 + N(a[3]) <= N(b[2]) * 256 + N(b[3]) by {
      assert a[2..][1..] == a[3..] && b[2..][1..] == b[3..];
    }
    assert a[1..][1..] == a[2..] && b[1..][1..] == b[2..];
  }

  /** Comparing packed stamps byte by byte is comparing them in time. */
  lemma PackedOrderIsTimeOrder(a: Stamp, b: Stamp)
    requires Packable(a) && Packable(b)
    ensures Leq(Pack(a), Pack(b)) <==> NotAfter(a, b)
  {
    LeqByNumber(Pack(a), Pack(b));
    NumberOfPack(a);
    NumberOfPack(b);
  }
}
