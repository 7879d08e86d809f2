/** Coordinates in millimetres as text and as integer nanometres. A float64 is
    the real number it stands for; what rounds is the product of two. */
module Millimetres {
  import opened Decimal
  import opened Text

  const NM_PER_MM: nat := 1_000_000

  /** Nearest integer, an exact half to the even neighbour: how `%f` rounds. */
  function NearestEven(x: real): nat
    requires x >= 0.0
  {
    var f := x.Floor;
    var rest := x - f as real;
    if rest < 0.5 || (rest == 0.5 && f % 2 == 0) then f else f + 1
  }

  function HalfEven(x: real): int {
    if x < 0.0 then var magnitude: int := NearestEven(-x); -magnitude else NearestEven(x)
  }

  /** math.Round: an exact half away from zero. */
  function Round(x: real): int {
    if x < 0.0 then -(-x + 0.5).Floor else (x + 0.5).Floor
  }

  /** The conversion int(x): towards zero. */
  function Trunc(x: real): int {
    if x < 0.0 then -(-x).Floor else x.Floor
  }

  lemma TruncDropsFraction(x: real, n: int)
    ensures Trunc(n as real) == n
    ensures -1.0 < x - Trunc(x) as real < 1.0
    ensures 0.0 <= x ==> 0.0 <= Trunc(x) as real <= x
    ensures x <= 0.0 ==> x <= Trunc(x) as real <= 0.0
  {
  }

  predicate IsNearest(x: real, n: int) {
    -0.5 <= x - n as real <= 0.5
  }

  /* ------------------------------------------------------------- float64 */

  const TWO_TO_52: real := 4_503_599_627_370_496.0
  const TWO_TO_53: int := 0x20_0000_0000_0000

  function PowerOf2(k: nat): (p: nat)
    ensures p >= 1
  {
    if k == 0 then 1 else 2 * PowerOf2(k - 1)
  }

  /** A number with 53 significant bits: m * 2^k or m / 2^k. */
  predicate IsScaled(x: real, m: int, k: nat) {
    -TWO_TO_53 <= m <= TWO_TO_53 && (x * PowerOf2(k) as real == m as real || x == (m * PowerOf2(k)) as real)
  }

  ghost predicate IsFloat(x: real) {
    exists m: int, k: nat :: IsScaled(x, m, k)
  }

  function Abs(x: real): (a: real)
    ensures a >= 0.0
  {
    if x < 0.0 then -x else x
  }

  /** z is a float64 next to y, as the result of rounding y is. */
  ghost predicate IsNearestFloat(y: real, z: real) {
    IsFloat(z) && forall w :: IsFloat(w) ==> Abs(y - z) <= Abs(y - w)
  }

  /** Rounding does not carry a number across a float64. */
  lemma StaysOnItsSide(y: real, z: real, h: real)
    requires IsNearestFloat(y, z) && IsFloat(h)
    ensures y <= h ==> z <= h
    ensures y >= h ==> z >= h
  {
    assert Abs(y - z) <= Abs(y - h);
  }

  /** Integers and halves below 2^52 are float64s, and integers to 2^53. */
  lemma HalvesAreFloats(n: int)
    requires -TWO_TO_53 <= n <= TWO_TO_53
    ensures IsFloat(n as real) && IsFloat(n as real / 2.0)
  {
    assert PowerOf2(0) == 1 && PowerOf2(1) == 2;
    assert IsScaled(n as real, n, 0);
    assert IsScaled(n as real / 2.0, n, 1);
  }

  predicate IsHalf(x: real) {
    x - x.Floor as real == 0.5
  }

  /** The product y that is rounded to z lies on the far side of the tie that z is:
      z is an exact half, and y is below it in absolute value, or is that half
      itself with an even number below. */
  predicate Splits(y: real, z: real) {
    IsHalf(Abs(z)) && (Abs(y) < Abs(z) || (Abs(y) == Abs(z) && Abs(z).Floor % 2 == 0))
  }

  /** Far from halves, z is the integer that `%f` rounds y to. */
  predicate SameInteger(y: real, z: real) {
    Abs(y - z) < 0.5 || (Abs(y - z) == 0.5 && z.Floor % 2 == 0)
  }

  predicate Agree(y: real, z: real) {
    if Abs(y) < TWO_TO_52 then !Splits(y, z) else SameInteger(y, z)
  }

  lemma BothRoundToNearest(x: real)
    ensures IsNearest(x, Round(x)) && IsNearest(x, HalfEven(x))
  {
  }

  lemma RoundBelow(y: real, z: real, k: int)
    requires 0.0 <= y && k == y.Floor
    requires if y <= k as real + 0.5 then k as real <= z <= k as real + 0.5 else k as real + 0.5 <= z <= k as real + 1.0
    requires y == k as real + 0.5 ==> z == y
    ensures Round(z) == HalfEven(y) <==> !Splits(y, z)
  {
    assert (z + 0.5).Floor == if z < k as real + 0.5 then k else k + 1;
    assert z < k as real + 1.0 ==> z.Floor == k;
  }

  /** Negating both changes nothing. */
  lemma Odd(y: real, z: real)
    ensures IsNearestFloat(y, z) ==> IsNearestFloat(-y, -z)
    ensures Round(-z) == -Round(z) && HalfEven(-y) == -HalfEven(y)
    ensures Splits(-y, -z) == Splits(y, z)
  {
    forall x | IsFloat(x)
      ensures IsFloat(-x)
    {
      var m, k :| IsScaled(x, m, k);
      assert IsScaled(-x, -m, k);
    }
    if IsNearestFloat(y, z) {
      forall w | IsFloat(w)
        ensures Abs(-y - -z) <= Abs(-y - w)
      {
        assert IsFloat(-w);
        assert Abs(y - z) <= Abs(y - -w);
      }
    }
  }

  lemma AgreeBelow(y: real, z: real)
    requires IsNearestFloat(y, z) && 0.0 <= y < TWO_TO_52
    ensures Round(z) == HalfEven(y) <==> !Splits(y, z)
  {
    hide IsFloat, IsNearestFloat;
    var k := y.Floor;
    HalvesAreFloats(k);
    HalvesAreFloats(k + 1);
    HalvesAreFloats(2 * k + 1);
    var half := (2 * k + 1) as real / 2.0;
    assert half == k as real + 0.5;
    StaysOnItsSide(y, z, k as real);
    StaysOnItsSide(y, z, (k + 1) as real);
    StaysOnItsSide(y, z, half);
    RoundBelow(y, z, k);
  }

  lemma {:induction false} PowersMultiply(a: nat, b: nat)
    ensures PowerOf2(a + b) == PowerOf2(a) * PowerOf2(b)
  {
    if a > 0 {
      PowersMultiply(a - 1, b);
      assert PowerOf2(a + b) == 2 * PowerOf2(a - 1 + b);
    }
  }

  lemma {:induction false} PowersGrow(a: nat, b: nat)
    ensures a < b ==> 2 * PowerOf2(a) <= PowerOf2(b)
    decreases b
  {
    if a < b - 1 {
      PowersGrow(a, b - 1);
    }
  }

  lemma SomePowers()
    ensures PowerOf2(22) == 4_194_304 && PowerOf2(30) == 1_073_741_824 && PowerOf2(50) == 1_125_899_906_842_624
    ensures PowerOf2(52) == 4_503_599_627_370_496 && PowerOf2(53) == TWO_TO_53
    ensures PowerOf2(0) == 1 && PowerOf2(1) == 2 && PowerOf2(2) == 4
  {
    assert PowerOf2(10) == 1024;
    PowersMultiply(10, 10);
    PowersMultiply(2, 20);
    PowersMultiply(10, 20);
    PowersMultiply(20, 30);
    PowersMultiply(2, 50);
    PowersMultiply(1, 52);
  }

  /** From 2^e on, float64s are multiples of 2^(e - 52). */
  lemma FloatsAreMultiples(w: real, e: nat) returns (n: int)
    requires e <= 52 && IsFloat(w) && w >= PowerOf2(e) as real
    ensures w * PowerOf2(52 - e) as real == n as real
  {
    var m: int, k: nat :| IsScaled(w, m, k);
    n := ScaledMultiple(w, e, m, k);
  }

  lemma ScaledMultiple(w: real, e: nat, m: int, k: nat) returns (n: int)
    requires e <= 52 && IsScaled(w, m, k) && w >= PowerOf2(e) as real
    ensures w * PowerOf2(52 - e) as real == n as real
  {
    hide PowerOf2;
    if w == (m * PowerOf2(k)) as real {
      Casts(m * PowerOf2(k), PowerOf2(52 - e));
      n := m * PowerOf2(k) * PowerOf2(52 - e);
    } else {
      SmallScale(w, m, k, e);
      if k <= 52 - e {
        n := MultipleBelow(w, e, m, k);
      } else {
        n := MultipleAtEdge(w, e, k);
      }
    }
  }

  lemma MultipleBelow(w: real, e: nat, m: int, k: nat) returns (n: int)
    requires k <= 52 - e && w * PowerOf2(k) as real == m as real
    ensures w * PowerOf2(52 - e) as real == n as real
  {
    hide PowerOf2;
    PowersMultiply(k, 52 - e - k);
    Rescale(w, m, PowerOf2(k), PowerOf2(52 - e - k));
    n := m * PowerOf2(52 - e - k);
  }

  lemma MultipleAtEdge(w: real, e: nat, k: nat) returns (n: int)
    requires e <= 52 && k == 53 - e && w * PowerOf2(k) as real == TWO_TO_53 as real
    ensures w * PowerOf2(52 - e) as real == n as real
  {
    hide PowerOf2;
    PowersMultiply(52 - e, 1);
    OneDoubles();
    Halve(w, PowerOf2(52 - e));
    n := TWO_TO_53 / 2;
  }

  lemma OneDoubles()
    ensures PowerOf2(1) == 2
  {
    assert PowerOf2(0) == 1;
  }

  lemma Casts(a: int, b: int)
    ensures a as real * b as real == (a * b) as real
  {
  }

  lemma Rescale(w: real, m: int, p: int, q: int)
    requires w * p as real == m as real
    ensures w * (p * q) as real == (m * q) as real
  {
    Casts(p, q);
    Casts(m, q);
    assert w * (p as real * q as real) == (w * p as real) * q as real;
  }

  lemma Halve(w: real, d: nat)
    requires w * (d * 2) as real == TWO_TO_53 as real
    ensures w * d as real == (TWO_TO_53 / 2) as real
  {
    Casts(d, 2);
  }

  lemma TimesMonotone(a: real, b: real, p: real)
    requires a <= b && p >= 0.0
    ensures a * p <= b * p
  {
  }

  lemma SmallScale(w: real, m: int, k: nat, e: nat)
    requires e <= 52 && w >= PowerOf2(e) as real && w * PowerOf2(k) as real == m as real && m <= TWO_TO_53
    ensures k <= 53 - e && (k == 53 - e ==> m == TWO_TO_53)
  {
    hide PowerOf2;
    AtLeast(w, PowerOf2(e), PowerOf2(k), m);
    ScaleBound(m, k, e);
  }

  lemma AtLeast(w: real, a: nat, p: nat, m: int)
    requires w >= a as real && w * p as real == m as real
    ensures a * p <= m
  {
    Casts(a, p);
    TimesMonotone(a as real, w, p as real);
  }

  lemma ScaleBound(m: int, k: nat, e: nat)
    requires e <= 52 && PowerOf2(e) * PowerOf2(k) <= m <= TWO_TO_53
    ensures k <= 53 - e && (k == 53 - e ==> m == TWO_TO_53)
  {
    hide PowerOf2;
    SomePowers();
    PowersMultiply(e, k);
    PowersGrow(53, e + k);
  }

  /** A float64 closer to y than half the spacing of float64s there is next to it. */
  lemma NearestOnGrid(y: real, z: real, e: nat)
    requires e <= 52 && IsFloat(z) && z >= PowerOf2(e) as real
    requires Abs(y - z) * 2.0 * PowerOf2(52 - e) as real <= 1.0
    requires Abs(y - z) <= y - PowerOf2(e) as real
    ensures IsNearestFloat(y, z)
  {
    hide PowerOf2, IsFloat;
    var d := PowerOf2(52 - e) as real;
    var a := FloatsAreMultiples(z, e);
    forall w | IsFloat(w)
      ensures Abs(y - z) <= Abs(y - w)
    {
      if w >= PowerOf2(e) as real && w != z {
        var b := FloatsAreMultiples(w, e);
        FarApart(y, z, w, d, a, b);
      }
    }
  }

  lemma FarApart(y: real, z: real, w: real, d: real, a: int, b: int)
    requires d >= 1.0 && z * d == a as real && w * d == b as real && w != z
    requires Abs(y - z) * 2.0 * d <= 1.0
    ensures Abs(y - z) <= Abs(y - w)
  {
    Difference(z, w, d, a, b);
    NonZero(z - w, d);
    assert a != b && Abs((a - b) as real) >= 1.0;
    Separated(Abs(y - z) * 2.0, Abs(z - w), d);
  }

  lemma Difference(z: real, w: real, d: real, a: int, b: int)
    requires z * d == a as real && w * d == b as real
    ensures (z - w) * d == (a - b) as real
  {
  }

  lemma NonZero(u: real, d: real)
    requires u != 0.0 && d >= 1.0
    ensures u * d != 0.0 && Abs(u) * d == Abs(u * d)
  {
  }

  lemma Separated(u: real, v: real, d: real)
    requires u * d <= 1.0 <= v * d && d >= 1.0
    ensures u <= v
  {
    if u > v {
      Times(u - v, d);
    }
  }

  lemma Times(u: real, d: real)
    requires u > 0.0 && d >= 1.0
    ensures u * d > 0.0
  {
  }

  lemma BigFloatsAreIntegers(z: real)
    requires IsFloat(z) && Abs(z) >= TWO_TO_52
    ensures z == z.Floor as real
  {
    SomePowers();
    Odd(z, z);
    NegatedFloat(z);
    var n := FloatsAreMultiples(Abs(z), 52);
    assert Abs(z) == n as real;
    assert z == (if z < 0.0 then -n else n) as real;
  }

  lemma NegatedFloat(x: real)
    requires IsFloat(x)
    ensures IsFloat(-x) && IsFloat(Abs(x))
  {
    var m, k :| IsScaled(x, m, k);
    assert IsScaled(-x, -m, k);
  }

  lemma NearestEvenIs(x: real, n: int)
    requires x >= 0.0
    ensures NearestEven(x) == n <==>
            Abs(x - n as real) < 0.5 || (Abs(x - n as real) == 0.5 && n % 2 == 0)
  {
    var f := x.Floor;
    if n < f {
      assert n as real <= f as real - 1.0;
    } else if n > f + 1 {
      assert n as real >= f as real + 2.0;
    }
  }

  lemma IntegersAgree(y: real, z: real)
    requires z == z.Floor as real
    ensures Round(z) == HalfEven(y) <==> SameInteger(y, z)
  {
    hide NearestEven;
    RoundOfInteger(z);
    NearestEvenIs(Abs(y), if y < 0.0 then -z.Floor else z.Floor);
  }

  lemma RoundOfInteger(z: real)
    requires z == z.Floor as real
    ensures Round(z) == z.Floor
  {
    var n := z.Floor;
    assert (n as real + 0.5).Floor == n && ((-n) as real + 0.5).Floor == -n;
  }

  /** With y = 1e6 * x and z its float64: the nanometres of math.Round on the product
      and those that `%f` prints of x are the same if and only if y and z agree. */
  lemma RoundingsAgree(y: real, z: real)
    requires IsNearestFloat(y, z)
    ensures Round(z) == HalfEven(y) <==> Agree(y, z)
  {
    hide Round, HalfEven, Splits, SameInteger, IsFloat;
    Odd(y, z);
    if Abs(y) < TWO_TO_52 {
      AgreeBelow(Abs(y), if y < 0.0 then -z else z);
    } else {
      HalvesAreFloats(4503599627370496);
      Odd(-y, -z);
      NegatedFloat(TWO_TO_52);
      StaysOnItsSide(y, z, TWO_TO_52);
      StaysOnItsSide(y, z, -TWO_TO_52);
      BigFloatsAreIntegers(z);
      IntegersAgree(y, z);
    }
  }

  /* Two inputs where they do not. */

  /** 1/128 mm, a float64 whose product is a tie itself. */
  lemma HalfNanometre()
    ensures IsFloat(0.0078125) && IsNearestFloat(NM_PER_MM as real * 0.0078125, 7812.5)
    ensures Round(7812.5) == 7813 && HalfEven(NM_PER_MM as real * 0.0078125) == 7812
  {
    assert PowerOf2(7) == 128;
    assert IsScaled(0.0078125, 1, 7);
    HalvesAreFloats(15625);
    assert NM_PER_MM as real * 0.0078125 == 7812.5;
  }

  const SEVEN_DECIMALS: real := 5720961450195527.0 / 1125899906842624.0

  /** 5.0812345 mm: its float64 is a little less, so `%f` rounds down, but the float64
      of the product is a tie, so math.Round rounds up. */
  lemma SevenDecimals()
    ensures IsNearestFloat(5.0812345, SEVEN_DECIMALS)
    ensures IsNearestFloat(NM_PER_MM as real * SEVEN_DECIMALS, 5081234.5)
    ensures Round(5081234.5) == 5081235 && HalfEven(NM_PER_MM as real * SEVEN_DECIMALS) == 5081234
  {
    hide PowerOf2, IsNearestFloat;
    SevenDecimalsRead();
    SevenDecimalsTimes();
  }

  lemma SevenDecimalsRead()
    ensures IsNearestFloat(5.0812345, SEVEN_DECIMALS)
  {
    hide PowerOf2, IsNearestFloat;
    SomePowers();
    assert IsScaled(SEVEN_DECIMALS, 5720961450195527, 50);
    NearestOnGrid(5.0812345, SEVEN_DECIMALS, 2);
  }

  lemma SevenDecimalsTimes()
    ensures IsNearestFloat(NM_PER_MM as real * SEVEN_DECIMALS, 5081234.5)
  {
    hide PowerOf2, IsNearestFloat, IsFloat;
    SomePowers();
    HalvesAreFloats(10162469);
    NearestOnGrid(NM_PER_MM as real * SEVEN_DECIMALS, 5081234.5, 22);
  }

  /** n in `width` digits. */
  function Pad(n: nat, width: nat): string {
    if width == 0 then "" else Pad(n / 10, width - 1) + [Digit(n % 10)]
  }

  function Power10(k: nat): nat {
    if k == 0 then 1 else 10 * Power10(k - 1)
  }

  function Decimals(nm: nat): string {
    FormatNat(nm / NM_PER_MM) + ['.'] + Pad(nm % NM_PER_MM, 6)
  }

  /** What `%f` prints for x millimetres: six decimals, so whole nanometres. A
      negative number keeps its sign even when it rounds to zero. */
  function FormatF(x: real): string {
    if x < 0.0 then "-" + Decimals(NearestEven(NM_PER_MM as real * -x))
    else Decimals(NearestEven(NM_PER_MM as real * x))
  }

  /** Reads an unsigned number without or with six decimals, in nanometres. */
  function ParseUnsigned(s: string): Option<nat> {
    match Cut(s, '.')
    case None => (match ParseNat(s)
                  case None => None
                  case Some(k) => Some(k * NM_PER_MM))
    case Some(p) =>
      match (ParseNat(p.0), ParseNat(p.1))
      case (Some(whole), Some(fraction)) => if |p.1| == 6 then Some(whole * NM_PER_MM + fraction) else None
      case _ => None
  }

  function ParseF(s: string): Option<int> {
    if s != "" && s[0] == '-' then match ParseUnsigned(s[1..])
                                   case None => None
                                   case Some(k) => var magnitude: int := k; Some(-magnitude)
    else match ParseUnsigned(s)
         case None => None
         case Some(k) => Some(k)
  }

  lemma {:induction false} ParsePad(n: nat, width: nat)
    requires n < Power10(width) && width > 0
    ensures |Pad(n, width)| == width && ParseNat(Pad(n, width)) == Some(n)
    ensures forall c <- Pad(n, width) :: IsDigit(c)
  {
    var s := Pad(n, width);
    if width > 1 {
      ParsePad(n / 10, width - 1);
      assert s[..|s| - 1] == Pad(n / 10, width - 1);
    } else {
      assert Pad(n / 10, 0) == "" && s == [Digit(n % 10)];
    }
  }

  lemma OneMillion()
    ensures Power10(6) == NM_PER_MM
  {
    assert Power10(3) == 1000;
  }

  lemma ParseDecimals(nm: nat)
    ensures var s := Decimals(nm);
            ParseUnsigned(s) == Some(nm) && s != "" && s[0] != '-' && forall c <- s :: IsDigit(c) || c == '.'
  {
    hide FormatNat, Pad, Power10, ParseNat, Cut;
    var whole, fraction := FormatNat(nm / NM_PER_MM), Pad(nm % NM_PER_MM, 6);
    ParseFormatNat(nm / NM_PER_MM);
    OneMillion();
    ParsePad(nm % NM_PER_MM, 6);
    CutOf(whole, '.', fraction);
    assert IsDigit(Decimals(nm)[0]);
  }

  /** What `%f` prints reads back as the coordinate in nanometres, halves to even. */
  lemma ParseFormatF(x: real)
    ensures ParseF(FormatF(x)) == Some(HalfEven(NM_PER_MM as real * x))
    ensures forall c <- FormatF(x) :: IsDigit(c) || c in "-."
  {
    hide Decimals, ParseUnsigned, NearestEven;
    if x < 0.0 {
      var nm := NearestEven(NM_PER_MM as real * -x);
      ParseDecimals(nm);
      assert NM_PER_MM as real * -x == -(NM_PER_MM as real * x);
      assert ("-" + Decimals(nm))[1..] == Decimals(nm);
    } else {
      ParseDecimals(NearestEven(NM_PER_MM as real * x));
    }
  }
}
