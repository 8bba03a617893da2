/** The unit table over a run of the tool: which coefficients each mapping gets from an entry that is inverted in
    place. */
module ConversionUnits {
  import opened Text
  import opened Json
  import opened ConversionTool
  import opened ConversionPipeline

  /** A mapping between two units. */
  predicate Scaled(m: Mapping) {
    && m.north.unit != "" && m.south.unit != "" && m.north.unit != m.south.unit
    && (m.north.enumValues == "" || m.south.enumValues == "")
    && !(m.south.datatype_ == m.north.datatype_ && m.north.datatype_ == "boolean")
  }

  /** The table entry that mapping k uses, as it is after the call. */
  function UnitAt(ms: seq<Mapping>, u: Setup, k: nat): Option<UnitScale>
    requires k < |ms|
  {
    UnitUsed(ms[k].north.unit, ms[k].south.unit, ScaleAt(ms, u, k), u.fl)
  }

  function EntryOf(m: Mapping, units: seq<UnitScale>): (i: nat)
    ensures i <= |units|
  {
    FindUnit(units, m.north.unit, m.south.unit, 0)
  }

  predicate OfUnits(v: UnitScale, a: string, b: string) {
    (v.unit1 == a && v.unit2 == b) || (v.unit1 == b && v.unit2 == a)
  }

  lemma {:induction false} FindsFirst(units: seq<UnitScale>, a: string, b: string, i: nat)
    requires i <= |units|
    ensures var e := FindUnit(units, a, b, i);
            (forall k :: i <= k < e ==> !OfUnits(units[k], a, b)) && (e < |units| ==> OfUnits(units[e], a, b))
    decreases |units| - i
  {
    if i < |units| && !OfUnits(units[i], a, b) {
      FindsFirst(units, a, b, i + 1);
    }
  }

  /** The entry is the first with the two units, in either order. */
  lemma EntryIsFirst(m: Mapping, units: seq<UnitScale>)
    ensures var e := EntryOf(m, units);
            && (forall k :: 0 <= k < e ==> !OfUnits(units[k], m.north.unit, m.south.unit))
            && (e < |units| ==> OfUnits(units[e], m.north.unit, m.south.unit))
  {
    FindsFirst(units, m.north.unit, m.south.unit, 0);
  }

  /** The mapping converts against the direction of the entry. */
  predicate Against(m: Mapping, v: UnitScale) {
    v.unit1 == m.south.unit
  }

  /** The mapping inverts entry i where it stands. */
  predicate Turns(m: Mapping, units: seq<UnitScale>, i: nat)
    requires i < |units|
  {
    Complete(m) && Scaled(m) && EntryOf(m, units) == i && Against(m, units[i])
  }

  /** How many of the first k mappings do. */
  function Uses(ms: seq<Mapping>, units: seq<UnitScale>, i: nat, k: nat): nat
    requires i < |units| && k <= |ms|
  {
    if k == 0 then 0 else Uses(ms, units, i, k - 1) + if Turns(ms[k - 1], units, i) then 1 else 0
  }

  /** The texts are JSON numbers, and those of A and B. */
  predicate Numerals(v: UnitScale, c: (real, real), fl: Floats) {
    && IsLiteral(v.a) && IsNumber(v.a) && fl.parse(v.a) == Some(c.0)
    && IsLiteral(v.b) && IsNumber(v.b) && fl.parse(v.b) == Some(c.1)
  }

  predicate PrintsExactly(x: real, fl: Floats) {
    IsLiteral(fl.print_(x)) && IsNumber(fl.print_(x)) && fl.parse(fl.print_(x)) == Some(x)
  }

  /** The coefficients of the other direction. */
  function Turned(c: (real, real)): (real, real)
    requires c.0 != 0.0
  {
    (1.0 / c.0, -c.1 / c.0)
  }

  /** The numbers that inverting brings about are printed as what they are. */
  predicate Exact(c: (real, real), fl: Floats) {
    && c.0 != 0.0
    && PrintsExactly(c.0, fl) && PrintsExactly(c.1, fl)
    && PrintsExactly(Turned(c).0, fl) && PrintsExactly(Turned(c).1, fl)
  }

  // ---------------------------------------------------------------- inverting

  lemma QuotientTimes(x: real, y: real)
    requires y != 0.0
    ensures x / y * y == x
  {
  }

  lemma QuotientIs(x: real, y: real, q: real)
    requires y != 0.0 && q * y == x
    ensures x / y == q
  {
  }

  lemma NoZero(x: real, y: real)
    requires x * y != 0.0
    ensures x != 0.0
  {
  }

  /** Inverting twice gives the coefficients back. */
  lemma TurnedTwice(c: (real, real))
    requires c.0 != 0.0
    ensures Turned(c).0 != 0.0 && Turned(Turned(c)) == c
  {
    var a, b := c.0, c.1;
    var x, y := Turned(c).0, Turned(c).1;
    QuotientTimes(1.0, a);
    QuotientTimes(-b, a);
    NoZero(x, a);
    assert a * x == 1.0;
    QuotientIs(1.0, x, a);
    assert b * x == -y by {
      ProductSwapped(b, a, x, y);
    }
    QuotientIs(-y, x, b);
  }

  /** The coefficients of the other direction take a scaled number back. */
  lemma TurnedInverts(c: (real, real), x: real)
    requires c.0 != 0.0
    ensures Turned(c).0 * (c.0 * x + c.1) + Turned(c).1 == x
  {
    var a, b := c.0, c.1;
    var p, q := 1.0 / a, -b / a;
    QuotientTimes(1.0, a);
    QuotientTimes(-b, a);
    assert p * (a * x) == (p * a) * x;
    assert p * (a * x + b) == (p * a) * x + p * b;
    var d := p * b + q;
    assert d * a == (p * a) * b + q * a;
    QuotientIs(0.0, a, d);
  }

  lemma ProductSwapped(b: real, a: real, x: real, y: real)
    requires a != 0.0 && x * a == 1.0 && y * a == -b
    ensures b * x == -y
  {
    var d := b * x + y;
    assert d * a == b * x * a + y * a;
    assert b * x * a == b * (x * a);
    assert d * a == 0.0;
    QuotientIs(0.0, a, d);
  }

  /** Coefficients that are those of the other direction as well: A = 1 and B = 0, or A = -1. */
  predicate SelfInverse(c: (real, real)) {
    (c.0 == 1.0 && c.1 == 0.0) || c.0 == -1.0
  }

  lemma SelfInverseIff(c: (real, real))
    requires c.0 != 0.0
    ensures Turned(c) == c <==> SelfInverse(c)
  {
    var a, b := c.0, c.1;
    if Turned(c) == c {
      QuotientTimes(1.0, a);
      QuotientTimes(-b, a);
      assert a * a == 1.0 && b * a == -b;
      UnitSquare(a);
      if a == 1.0 {
        assert b * 1.0 == b;
      }
    }
    if a == 1.0 && b == 0.0 {
      QuotientIs(1.0, a, 1.0);
      QuotientIs(-b, a, 0.0);
    }
    if a == -1.0 {
      QuotientIs(1.0, a, -1.0);
      assert b * (-1.0) == -b;
      QuotientIs(-b, a, b);
    }
  }

  lemma UnitSquare(a: real)
    requires a * a == 1.0
    ensures a == 1.0 || a == -1.0
  {
    var x, y := a - 1.0, a + 1.0;
    assert x * y == a * a - 1.0;
    if x != 0.0 {
      assert y * x == 0.0;
      QuotientIs(0.0, x, y);
    }
  }

  lemma InvertedReads(v: UnitScale, c: (real, real), fl: Floats)
    requires Numerals(v, c, fl) && c.0 != 0.0
    requires PrintsExactly(Turned(c).0, fl) && PrintsExactly(Turned(c).1, fl)
    ensures Inverted(v, fl).Some? && Numerals(Inverted(v, fl).value, Turned(c), fl)
    ensures Inverted(v, fl).value.unit1 == v.unit1 && Inverted(v, fl).value.unit2 == v.unit2
  {
    hide IsLiteral, IsNumber;
  }

  // ---------------------------------------------------------------- the table over a run

  predicate SameUnits(a: seq<UnitScale>, b: seq<UnitScale>) {
    |a| == |b| && forall i :: 0 <= i < |a| ==> a[i].unit1 == b[i].unit1 && a[i].unit2 == b[i].unit2
  }

  lemma {:induction false} SameFound(a: seq<UnitScale>, b: seq<UnitScale>, north: string, south: string, i: nat)
    requires SameUnits(a, b) && i <= |a|
    ensures FindUnit(a, north, south, i) == FindUnit(b, north, south, i)
    decreases |a| - i
  {
    if i < |a| && !Matches(a[i], north, south) {
      SameFound(a, b, north, south, i + 1);
    }
  }

  /** What a conversion does to the table. */
  lemma ConversionTurns(m: Mapping, st: Scales, fl: Floats)
    requires Conversion(m, st, fl).Some?
    ensures var i, used := EntryOf(m, st.units), UnitUsed(m.north.unit, m.south.unit, st, fl);
            Conversion(m, st, fl).value.1.units
            == if Scaled(m) && used.Some? then st.units[i := used.value] else st.units
  {
    hide FindUnit, UnitUsed, ParseStrings, EnumText, CoefficientText, Intern;
  }

  /** The coefficients of an entry after some inversions. */
  function TurnedOften(c: (real, real), n: nat): (real, real)
    requires c.0 != 0.0
  {
    if n % 2 == 0 then c else Turned(c)
  }

  lemma NextTurn(v: UnitScale, c: (real, real), n: nat, fl: Floats)
    requires Exact(c, fl) && Numerals(v, TurnedOften(c, n), fl)
    ensures Inverted(v, fl).Some? && Numerals(Inverted(v, fl).value, TurnedOften(c, n + 1), fl)
    ensures Inverted(v, fl).value.unit1 == v.unit1 && Inverted(v, fl).value.unit2 == v.unit2
  {
    hide IsLiteral, IsNumber, Numerals, Inverted;
    TurnedTwice(c);
    InvertedReads(v, TurnedOften(c, n), fl);
  }

  lemma InvertedKeepsUnits(v: UnitScale, fl: Floats)
    ensures Inverted(v, fl).Some? ==> Inverted(v, fl).value.unit1 == v.unit1 && Inverted(v, fl).value.unit2 == v.unit2
  {
  }

  /** One mapping and one entry of the table. */
  lemma TableStep(m: Mapping, st: Scales, units: seq<UnitScale>, i: nat, c: (real, real), n: nat, fl: Floats)
    requires Conversion(m, st, fl).Some? && Complete(m) && SameUnits(st.units, units) && i < |units|
    requires Exact(c, fl) && Numerals(st.units[i], TurnedOften(c, n), fl)
    ensures var after := Conversion(m, st, fl).value.1.units;
            SameUnits(after, units)
            && Numerals(after[i], TurnedOften(c, n + if Turns(m, units, i) then 1 else 0), fl)
  {
    hide Exact, Numerals, Conversion, Inverted, TurnedOften;
    ConversionTurns(m, st, fl);
    SameFound(st.units, units, m.north.unit, m.south.unit, 0);
    hide FindUnit;
    var j := EntryOf(m, st.units);
    if j < |st.units| {
      InvertedKeepsUnits(st.units[j], fl);
    }
    NextTurn(st.units[i], c, n, fl);
  }

  /** Before mapping k each entry has been inverted by the earlier mappings against its direction. */
  lemma {:induction false} EntryAfter(ms: seq<Mapping>, u: Setup, i: nat, c: (real, real), k: nat)
    requires k <= |ms| && Populate(ms, Start(u), u.fl).Some? && i < |u.units|
    requires Numerals(u.units[i], c, u.fl) && Exact(c, u.fl)
    ensures SameUnits(ScaleAt(ms, u, k).units, u.units)
    ensures Numerals(ScaleAt(ms, u, k).units[i], TurnedOften(c, Uses(ms, u.units, i, k)), u.fl)
  {
    hide Exact, Numerals, Conversion, Turned;
    ScaleGrows(ms, u, k);
    if k == 0 {
      assert ms[..0] == [];
    } else {
      EntryAfter(ms, u, i, c, k - 1);
      ScaleGrows(ms, u, k - 1);
      assert ms[..k][..k - 1] == ms[..k - 1];
      var m, st := ms[k - 1], ScaleAt(ms, u, k - 1);
      hide TurnedOften, SameUnits, Turns;
      if Complete(m) {
        TableStep(m, st, u.units, i, c, Uses(ms, u.units, i, k - 1), u.fl);
      } else {
        assert !Turns(m, u.units, i) by { OnlyComplete(m, u.units, i); }
      }
    }
  }

  lemma OnlyComplete(m: Mapping, units: seq<UnitScale>, i: nat)
    requires i < |units| && !Complete(m)
    ensures !Turns(m, units, i)
  {
  }

  /** The coefficients that the table holds for a mapping's direction. */
  function Own(m: Mapping, v: UnitScale, c: (real, real)): (real, real)
    requires c.0 != 0.0
  {
    if Against(m, v) then Turned(c) else c
  }

  /** The coefficients that mapping k gets. */
  function Given(ms: seq<Mapping>, u: Setup, k: nat, c: (real, real)): (real, real)
    requires k < |ms| && EntryOf(ms[k], u.units) < |u.units| && c.0 != 0.0
  {
    var i := EntryOf(ms[k], u.units);
    TurnedTwice(c);
    TurnedOften(Own(ms[k], u.units[i], c), Uses(ms, u.units, i, k))
  }

  lemma UsedIs(m: Mapping, st: Scales, fl: Floats)
    requires EntryOf(m, st.units) < |st.units|
    ensures var v := st.units[EntryOf(m, st.units)];
            UnitUsed(m.north.unit, m.south.unit, st, fl) == if Against(m, v) then Inverted(v, fl) else Some(v)
  {
    hide FindUnit;
  }

  lemma GivenReads(ms: seq<Mapping>, u: Setup, k: nat, c: (real, real))
    requires Populate(ms, Start(u), u.fl).Some? && k < |ms|
    requires EntryOf(ms[k], u.units) < |u.units|
    requires Numerals(u.units[EntryOf(ms[k], u.units)], c, u.fl) && Exact(c, u.fl)
    ensures UnitAt(ms, u, k).Some? && Numerals(UnitAt(ms, u, k).value, Given(ms, u, k, c), u.fl)
  {
    hide Numerals, Conversion, Populate, PrintsExactly;
    var i, st := EntryOf(ms[k], u.units), ScaleAt(ms, u, k);
    EntryAfter(ms, u, i, c, k);
    SameFound(st.units, u.units, ms[k].north.unit, ms[k].south.unit, 0);
    hide FindUnit, ScaleAt;
    UsedIs(ms[k], st, u.fl);
    hide UnitUsed, Inverted;
    TurnedTwice(c);
    NextTurn(st.units[i], c, Uses(ms, u.units, i, k), u.fl);
    hide Turned;
  }

  /** The coefficients that mapping k gets are those of its own direction exactly when its entry has been inverted an
      even number of times before, or is its own inverse. */
  lemma OwnCoefficientsIff(ms: seq<Mapping>, u: Setup, k: nat, c: (real, real))
    requires Populate(ms, Start(u), u.fl).Some? && k < |ms|
    requires EntryOf(ms[k], u.units) < |u.units|
    requires Numerals(u.units[EntryOf(ms[k], u.units)], c, u.fl) && Exact(c, u.fl)
    ensures UnitAt(ms, u, k).Some?
    ensures var i := EntryOf(ms[k], u.units);
            Numerals(UnitAt(ms, u, k).value, Own(ms[k], u.units[i], c), u.fl)
            <==> Uses(ms, u.units, i, k) % 2 == 0 || SelfInverse(c)
  {
    GivenReads(ms, u, k, c);
    TurnedTwice(c);
    SelfInverseIff(c);
    hide Exact, UnitAt, EntryOf, Uses, IsLiteral, IsNumber, Turned, SelfInverse;
  }

  // ---------------------------------------------------------------- a list of mappings that fails

  /** Two units, b being twice a. */
  const TABLE := [UnitScale("a", "b", "2", "0")]

  function BackMapping(north: string, south: string): Mapping {
    Mapping(ToolData(north, "", "", "b", ""), ToolData(south, "", "", "a", ""))
  }

  /** A library that knows the numbers 0, 0.5 and 2. */
  const SMALL := Floats((s: string) => if s == "2" then Some(2.0) else if s == "0.5" then Some(0.5)
                                       else if s == "0" then Some(0.0) else None,
                        (x: real) => if x == 2.0 then "2" else if x == 0.5 then "0.5" else "0",
                        (x: real) => "NaN")

  const TWICE := [BackMapping("N1", "S1"), BackMapping("N2", "S2")]

  lemma SmallNumerals()
    ensures IsLiteral("2") && IsNumber("2") && IsLiteral("0") && IsNumber("0")
    ensures IsLiteral("0.5") && IsNumber("0.5")
  {
    assert "2"[1..] == "" && "0"[1..] == "" && "0.5"[1..] == ".5" && ".5"[1..] == "5" && "5"[1..] == "";
    assert DigitsLength("") == 0 && DigitsLength("5") == 1 && DigitsLength(".5") == 0 && DigitsLength("0.5") == 1;
  }

  lemma SmallExact()
    ensures Numerals(TABLE[0], (2.0, 0.0), SMALL) && Exact((2.0, 0.0), SMALL)
    ensures Turned((2.0, 0.0)) == (0.5, 0.0)
  {
    SmallNumerals();
    hide IsLiteral, IsNumber;
    QuotientIs(1.0, 2.0, 0.5);
    QuotientIs(-0.0, 2.0, 0.0);
    assert "2" != "0.5" && "2" != "0" && "0.5" != "0";
  }

  /** Two mappings from b to a: the first gets 0.5 and 0, the second the coefficients from a to b. */
  lemma SecondGetsOther()
    ensures var u := Setup(TABLE, SMALL);
            && Own(TWICE[0], TABLE[0], (2.0, 0.0)) == (0.5, 0.0) && Own(TWICE[1], TABLE[0], (2.0, 0.0)) == (0.5, 0.0)
            && UnitAt(TWICE, u, 0).Some? && Numerals(UnitAt(TWICE, u, 0).value, (0.5, 0.0), SMALL)
            && UnitAt(TWICE, u, 1).Some? && Numerals(UnitAt(TWICE, u, 1).value, (2.0, 0.0), SMALL)
  {
    var u := Setup(TABLE, SMALL);
    SmallExact();
    TwicePopulates(u);
    hide Numerals, Exact, Populate, SMALL, Turned, UnitAt;
    GivenReads(TWICE, u, 0, (2.0, 0.0));
    GivenReads(TWICE, u, 1, (2.0, 0.0));
    TurnedTwice((2.0, 0.0));
  }

  lemma TwicePopulates(u: Setup)
    ensures Populate(TWICE, Start(u), u.fl).Some?
  {
    hide Conversion, Populate;
    var first, one := TWICE[0], TWICE[..1];
    assert one == [first] && one[..0] == [];
    PopulateStep([], Start(u), first, u.fl);
    BackConverts("N1", "S1", Start(u), u.fl);
    assert TWICE == one + [TWICE[1]] && [] + [first] == one;
    PopulateStep(one, Start(u), TWICE[1], u.fl);
    BackConverts("N2", "S2", Populate(one, Start(u), u.fl).value.1, u.fl);
  }

  lemma PopulateStep(ms: seq<Mapping>, st: Scales, m: Mapping, fl: Floats)
    ensures Populate([], st, fl) == Some(([], st))
    ensures Populate(ms, st, fl).Some? && Complete(m) && Conversion(m, Populate(ms, st, fl).value.1, fl).Some? ==>
              Populate(ms + [m], st, fl).Some?
  {
    hide Conversion;
    assert (ms + [m])[..|ms|] == ms;
  }

  lemma BackConverts(north: string, south: string, st: Scales, fl: Floats)
    ensures Conversion(BackMapping(north, south), st, fl).Some?
  {
    hide LinearConversion;
    assert "a" != "b";
  }
}
