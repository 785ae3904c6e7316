// Q20.12 fixed-point arithmetic of the simulation. Values are unbounded integers
// here; arena_words.dfy and arena_fits.dfy prove that what a tick computes on map 0
// stays inside the program's 32 and 64 bits.

module ArenaMath {
  import opened Basics

  const ONE := 4096

  datatype Vec = Vec(x: int, y: int, z: int)

  const ORIGIN := Vec(0, 0, 0)

  /** C's division: the quotient is truncated toward zero. */
  function TruncDiv(a: int, b: int): int
    requires b > 0
  {
    if a >= 0 then a / b else -((-a) / b)
  }

  /** qmul: the arithmetic shift rounds down. */
  function Mul(a: int, b: int): int {
    (a * b) / ONE
  }

  function Div(a: int, b: int): int
    requires b > 0
  {
    TruncDiv(a * ONE, b)
  }

  function Clamp(v: int, lo: int, hi: int): int {
    if v < lo then lo else if v > hi then hi else v
  }

  function Abs(a: int): nat {
    if a < 0 then -a else a
  }

  // ----------------------------------------------------------- square roots

  function Sq(x: int): (q: nat) {
    SquareNonneg(x);
    x * x
  }

  lemma SquareNonneg(x: int)
    ensures x * x >= 0
  {
  }

  /** The integer square root, one base-4 digit at a time. */
  function Isqrt(v: nat): nat {
    if v == 0 then 0
    else
      var h := Isqrt(v / 4);
      if Sq(2 * h + 1) <= v then 2 * h + 1 else 2 * h
  }

  lemma NoRoot()
    ensures Sq(0) == 0 && Sq(1) == 1
  {
  }

  /** It is the floor of the root. */
  lemma {:induction false} RootIs(v: nat)
    ensures Sq(Isqrt(v)) <= v < Sq(Isqrt(v) + 1)
  {
    hide Sq;
    if v == 0 {
      NoRoot();
    } else {
      RootIs(v / 4);
      RootDigit(v, Isqrt(v / 4));
    }
  }

  lemma RootDigit(v: nat, h: nat)
    requires Sq(h) <= v / 4 < Sq(h + 1)
    ensures Sq(2 * h) <= v < Sq(2 * h + 2)
  {
    Twice(h);
    Twice(h + 1);
  }

  lemma Twice(h: nat)
    ensures Sq(2 * h) == 4 * Sq(h)
  {
  }

  lemma Squares(a: nat, b: nat)
    requires a <= b
    ensures Sq(a) <= Sq(b)
  {
    var d := b - a;
    assert b * b == a * a + 2 * (a * d) + d * d;
    Products(a, d);
  }

  lemma Products(a: nat, b: nat)
    ensures a * b >= 0
  {
  }

  lemma SquaresStrict(a: nat, b: nat)
    requires Sq(a) < Sq(b)
    ensures a < b
  {
    if b <= a {
      Squares(b, a);
    }
  }

  lemma RootIsUnique(v: nat, r: nat, s: nat)
    requires Sq(r) <= v < Sq(r + 1) && Sq(s) <= v < Sq(s + 1)
    ensures r == s
  {
    hide Sq;
    SquaresStrict(r, s + 1);
    SquaresStrict(s, r + 1);
  }

  function Pow2(k: nat): (p: nat)
    ensures p > 0
  {
    if k == 0 then 1 else 2 * Pow2(k - 1)
  }

  lemma {:induction false} Pow2At31()
    ensures Pow2(31) == 0x8000_0000
  {
    assert Pow2(10) == 1024;
    assert Pow2(20) == 1024 * 1024;
    assert Pow2(30) == 1024 * 1024 * 1024;
  }

  /** One digit: with a root so far of a, the loop's comparison asks whether a + B fits. */
  lemma DigitStep(a: nat, B: nat)
    ensures 2 * (a * B) + Sq(B) == Sq(a + B) - Sq(a)
  {
  }

  const TWO64 := 0x1_0000_0000_0000_0000

  /** isqrt64: the bit-by-bit loop computes the floor of the root of every 64-bit
      value; the sum it compares, and the root it keeps, stay inside 64 bits. */
  method Isqrt64(value: nat) returns (r: nat)
    requires value < TWO64
    ensures r == Isqrt(value) && Sq(r) <= value < Sq(r + 1) && r < TWO32
  {
    hide Sq, Pow2, Rooted, Isqrt;
    var v := value;
    r := 0;
    var bit: nat := 0x4000_0000_0000_0000;
    ghost var k: nat := 31;
    TopBit();
    while bit > v
      invariant v == value && k <= 31
      invariant bit != 0 ==> bit == Sq(Pow2(k)) && v < 4 * bit
      invariant bit == 0 ==> v == 0
      decreases bit
    {
      NextBit(k);
      bit := bit / 4;
      k := if k > 0 then k - 1 else 0;
    }
    ghost var a: nat := 0;
    StartRoot(value, bit, k);
    if bit != 0 {
      SumFits(value, a, k, v, r, bit);
    }
    while bit != 0
      invariant bit != 0 ==> Rooted(value, a, k, v, r, bit) && r + bit < TWO64
      invariant r < TWO64
      invariant bit == 0 ==> r == a && Sq(a) <= value < Sq(a + 1)
      decreases bit
    {
      RootStep(value, a, k, v, r, bit);
      a := if v >= r + bit then a + Pow2(k) else a;
      if v >= r + bit {
        v := v - (r + bit);
        r := r / 2 + bit;
      } else {
        r := r / 2;
      }
      bit := bit / 4;
      k := if k > 0 then k - 1 else 0;
      if bit != 0 {
        SumFits(value, a, k, v, r, bit);
      }
    }
    RootIs(value);
    RootIsUnique(value, r, Isqrt(value));
    SmallRoot(r, value);
  }

  /** The loop's state: a is the root so far, v what is left of the value, r = 2aB
      for the digit value B = 2^k whose square is bit; digits to come fill 32 bits. */
  ghost predicate Rooted(value: nat, a: nat, k: nat, v: int, r: nat, bit: nat) {
    && Sq(a) <= value < Sq(a + 2 * Pow2(k)) && v == value - Sq(a)
    && bit == Sq(Pow2(k)) && r == 2 * (a * Pow2(k)) && a + 2 * Pow2(k) <= TWO32
  }

  /** 2aB + B^2 is below (a + B)^2, and a + B below 2^32. */
  lemma SumFits(value: nat, a: nat, k: nat, v: int, r: nat, bit: nat)
    requires Rooted(value, a, k, v, r, bit)
    ensures r + bit < TWO64
  {
    assert Sq(TWO32 - 1) < TWO64;
    hide Sq, Pow2;
    var B := Pow2(k);
    DigitStep(a, B);
    Squares(a + B, TWO32 - 1);
  }

  lemma RootStep(value: nat, a: nat, k: nat, v: int, r: nat, bit: nat)
    requires Rooted(value, a, k, v, r, bit)
    ensures var take := v >= r + bit;
      var next := if take then a + Pow2(k) else a;
      var v' := if take then v - (r + bit) else v;
      var r' := if take then r / 2 + bit else r / 2;
      && v' >= 0
      && (k > 0 ==> bit / 4 > 0 && Rooted(value, next, k - 1, v', r', bit / 4))
      && (k == 0 ==> bit / 4 == 0 && r' == next && Sq(next) <= value < Sq(next + 1))
  {
    hide Sq, Pow2;
    var B := Pow2(k);
    DigitStep(a, B);
    NextBit(k);
    HalfSum(a, B);
    var next := if v >= r + bit then a + B else a;
    Halves(next, k);
  }

  lemma TopBit()
    ensures Sq(Pow2(31)) == 0x4000_0000_0000_0000
  {
    Pow2At31();
  }

  lemma NextBit(k: nat)
    ensures k > 0 ==> Sq(Pow2(k)) == 4 * Sq(Pow2(k - 1)) && Sq(Pow2(k - 1)) > 0
    ensures k == 0 ==> Sq(Pow2(k)) == 1
  {
    if k > 0 {
      Twice(Pow2(k - 1));
      Monotone(1, Pow2(k - 1), Pow2(k - 1));
    }
  }

  lemma StartRoot(value: nat, bit: nat, k: nat)
    requires k <= 31
    requires if bit != 0 then bit == Sq(Pow2(k)) && value < 4 * bit else value == 0
    ensures bit != 0 ==> Rooted(value, 0, k, value, 0, bit)
    ensures bit == 0 ==> Sq(0) <= value < Sq(1)
  {
    Twice(Pow2(k));
    SmallPower(k);
  }

  lemma {:induction false} SmallPower(k: nat)
    requires k <= 31
    ensures 2 * Pow2(k) <= TWO32
    decreases 31 - k
  {
    if k == 31 {
      Pow2At31();
    } else {
      SmallPower(k + 1);
    }
  }

  /** (a + B) * B is half of 2aB, plus the bit. */
  lemma HalfSum(a: nat, B: nat)
    ensures (a + B) * B == a * B + Sq(B)
    ensures (2 * (a * B)) / 2 == a * B
  {
  }

  lemma Halves(a: nat, k: nat)
    ensures k > 0 ==> a * Pow2(k) == 2 * (a * Pow2(k - 1)) && Pow2(k) == 2 * Pow2(k - 1)
    ensures k == 0 ==> a * Pow2(k) == a && Pow2(k) == 1
  {
    if k > 0 {
      var h := Pow2(k - 1);
      assert a * (2 * h) == 2 * (a * h);
    }
  }

  lemma SmallRoot(r: nat, value: nat)
    requires Sq(r) <= value < 0x1_0000_0000_0000_0000
    ensures r < TWO32
  {
    assert Sq(TWO32) == 0x1_0000_0000_0000_0000;
    hide Sq;
    SquaresStrict(r, TWO32);
  }

  // ---------------------------------------------------------------- lengths

  function Len2(x: int, z: int): (d: nat) {
    Isqrt(Sq(x) + Sq(z))
  }

  function Len3(v: Vec): nat {
    Isqrt(Sq(v.x) + Sq(v.y) + Sq(v.z))
  }

  lemma SquareAbs(x: int)
    ensures Sq(x) == Sq(Abs(x))
  {
  }

  /** Neither leg is longer than the hypotenuse, rounding included. */
  lemma LegBound(x: int, z: int)
    ensures Abs(x) <= Len2(x, z) && Abs(z) <= Len2(x, z)
  {
    hide Sq, Abs, Isqrt;
    SquareAbs(x);
    SquareAbs(z);
    RootIs(Sq(x) + Sq(z));
    SquaresStrict(Abs(x), Len2(x, z) + 1);
    SquaresStrict(Abs(z), Len2(x, z) + 1);
  }

  lemma LenBound(x: int, z: int, b: nat)
    requires Sq(x) + Sq(z) < Sq(b + 1)
    ensures Len2(x, z) <= b
  {
    hide Sq, Isqrt;
    RootIs(Sq(x) + Sq(z));
    SquaresStrict(Len2(x, z), b + 1);
  }

  /** A component divided by its own length is at most one, in fixed point. */
  lemma UnitBound(x: int, d: int)
    requires d > 0 && Abs(x) <= d
    ensures -ONE <= Div(x, d) <= ONE
  {
    QuotientBound(Abs(x) * ONE, d, ONE);
  }

  lemma {:induction false} QuotientBound(n: nat, d: int, q: nat)
    requires d > 0 && n <= d * q
    ensures 0 <= n / d <= q
  {
    var k := n / d;
    FloorIs(n, d);
    if k > q {
      Monotone(q + 1, k, d);
    }
  }

  lemma FloorIs(n: int, d: int)
    requires d > 0
    ensures d * (n / d) <= n < d * (n / d) + d
  {
  }

  lemma Monotone(a: int, b: int, d: int)
    requires a <= b && d >= 0
    ensures d * a <= d * b
  {
  }

  /** Scaling by at most one never lengthens. */
  lemma ScaleBound(u: int, s: int)
    requires -ONE <= u <= ONE && s >= 0
    ensures -s <= Mul(u, s) <= s
  {
    Monotone(u, ONE, s);
    Monotone(-ONE, u, s);
    var p := u * s;
    assert p == s * u;
    assert -ONE * s <= p <= ONE * s;
  }

  // ----------------------------------------------------------------- angles

  /** A quarter of the table; the other three follow by symmetry. */
  function Quarter(k: nat): int {
    match k
    case 0 => 0 case 1 => 101 case 2 => 201 case 3 => 301 case 4 => 401 case 5 => 501
    case 6 => 601 case 7 => 700 case 8 => 799 case 9 => 897 case 10 => 995 case 11 => 1092
    case 12 => 1189 case 13 => 1285 case 14 => 1380 case 15 => 1474 case 16 => 1567 case 17 => 1660
    case 18 => 1751 case 19 => 1842 case 20 => 1931 case 21 => 2019 case 22 => 2106 case 23 => 2191
    case 24 => 2276 case 25 => 2359 case 26 => 2440 case 27 => 2520 case 28 => 2598 case 29 => 2675
    case 30 => 2751 case 31 => 2824 case 32 => 2896 case 33 => 2967 case 34 => 3035 case 35 => 3102
    case 36 => 3166 case 37 => 3229 case 38 => 3290 case 39 => 3349 case 40 => 3406 case 41 => 3461
    case 42 => 3513 case 43 => 3564 case 44 => 3612 case 45 => 3659 case 46 => 3703 case 47 => 3745
    case 48 => 3784 case 49 => 3822 case 50 => 3857 case 51 => 3889 case 52 => 3920 case 53 => 3948
    case 54 => 3973 case 55 => 3996 case 56 => 4017 case 57 => 4036 case 58 => 4052 case 59 => 4065
    case 60 => 4076 case 61 => 4085 case 62 => 4091 case 63 => 4095
    case _ => 4096
  }

  function Table(k: int): int
    requires 0 <= k < 256
  {
    if k <= 64 then Quarter(k)
    else if k <= 128 then Quarter(128 - k)
    else if k <= 192 then -Quarter(k - 128)
    else -Quarter(256 - k)
  }

  function Sin(a: u16): int {
    Table(a / 256)
  }

  function Cos(a: u16): int {
    Table(((a + 0x4000) % 0x1_0000) / 256)
  }

  /** Every entry of the quarter is in range, and squares of opposite entries add
      up to one within 4029. */
  lemma QuarterAt(j: nat)
    requires j <= 64
    ensures 0 <= Quarter(j) <= ONE
    ensures Sq(Quarter(j)) + Sq(Quarter(64 - j)) <= ONE * ONE + 4029
  {
    if j > 32 {
      QuarterLow(64 - j);
    } else {
      QuarterLow(j);
    }
  }

  lemma QuarterLow(j: nat)
    requires j <= 32
    ensures 0 <= Quarter(j) <= ONE && 0 <= Quarter(64 - j) <= ONE
    ensures Sq(Quarter(j)) + Sq(Quarter(64 - j)) <= ONE * ONE + 4029
  {
    match j
    case 0 => case 1 => case 2 => case 3 => case 4 => case 5 => case 6 => case 7 => case 8 => case 9 => case 10 =>
    case 11 => case 12 => case 13 => case 14 => case 15 => case 16 => case 17 => case 18 => case 19 => case 20 =>
    case 21 => case 22 => case 23 => case 24 => case 25 => case 26 => case 27 => case 28 => case 29 => case 30 =>
    case 31 => case _ =>
  }

  /** The quarter's index of a table entry. */
  function Fold(k: nat): nat
    requires k < 256
  {
    if k <= 64 then k else if k <= 128 then 128 - k else if k <= 192 then k - 128 else 256 - k
  }

  lemma TableFold(k: nat)
    requires k < 256
    ensures Fold(k) <= 64 && Abs(Table(k)) == Quarter(Fold(k)) && Sq(Table(k)) == Sq(Quarter(Fold(k)))
  {
    hide Quarter, Sq;
    QuarterAt(Fold(k));
    SquareAbs(Table(k));
    SquareAbs(Quarter(Fold(k)));
  }

  lemma CosIndex(a: u16)
    ensures ((a + 0x4000) % 0x1_0000) / 256 == (a / 256 + 64) % 256
  {
  }

  lemma EntryPair(k: nat, l: nat)
    requires k < 256 && l == (k + 64) % 256
    ensures -ONE <= Table(k) <= ONE && -ONE <= Table(l) <= ONE
    ensures Sq(Table(k)) + Sq(Table(l)) <= ONE * ONE + 4029
  {
    hide Quarter, Sq, Table;
    TableFold(k);
    TableFold(l);
    QuarterAt(Fold(k));
    QuarterAt(Fold(l));
    assert Fold(l) == 64 - Fold(k);
  }

  /** No entry exceeds one, and a direction is at most a hair longer than one. */
  lemma DirectionBound(a: u16)
    ensures -ONE <= Sin(a) <= ONE && -ONE <= Cos(a) <= ONE
    ensures Sq(Sin(a)) + Sq(Cos(a)) <= ONE * ONE + 4029
  {
    hide Sq, Table;
    CosIndex(a);
    EntryPair(a / 256, (a / 256 + 64) % 256);
  }

  /** iatan2 on the magnitudes: an angle in the first quadrant. */
  function FirstQuadrant(ax: nat, ay: nat): u16
    requires ax != 0 || ay != 0
  {
    var t := if ax > ay then Div(ay, ax) else Div(ax, ay);
    var corr := Mul(Mul(1280, ONE - t), t);
    var a := ((t * (0x2000 - (corr * 0x2000) / ONE)) / ONE) % 0x1_0000;
    if ax <= ay then (0x4000 - a) % 0x1_0000 else a
  }

  /** -a in 16 bits. */
  function Negate(a: u16): u16 {
    if a == 0 then 0 else 0x1_0000 - a
  }

  /** Half a turn less a, in 16 bits. */
  function Supplement(a: u16): u16 {
    if a <= 0x8000 then 0x8000 - a else 0x1_8000 - a
  }

  /** iatan2. */
  function Atan2(y: int, x: int): u16 {
    if x == 0 && y == 0 then 0
    else
      var a := FirstQuadrant(Abs(x), Abs(y));
      var b := if x < 0 then Supplement(a) else a;
      if y < 0 then Negate(b) else b
  }

  lemma NegateTwice(a: u16)
    ensures Negate(Negate(a)) == a && Supplement(Supplement(a)) == a
  {
  }

  /** Mirroring a point across the x axis negates its angle, exactly, and mirroring
      it across the other axis takes the supplement. */
  lemma AtanMirrors(y: int, x: int)
    ensures y != 0 ==> Atan2(-y, x) == Negate(Atan2(y, x))
    ensures y >= 0 && x != 0 ==> Atan2(y, -x) == Supplement(Atan2(y, x))
  {
    hide FirstQuadrant, Negate, Supplement;
    assert Abs(-y) == Abs(y) && Abs(-x) == Abs(x);
    if x != 0 || y != 0 {
      var a := FirstQuadrant(Abs(x), Abs(y));
      NegateTwice(a);
      NegateTwice(Supplement(a));
    }
  }
}
