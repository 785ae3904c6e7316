// The stand gap: one pushout leaves a grounded player outside it, rounding included.

module ArenaGap {
  import opened Basics
  import opened ArenaMath
  import opened ArenaTypes
  import opened ArenaSim

  /** A product the linear steps below treat as one number. */
  function Prod(a: int, b: int): int {
    a * b
  }

  lemma Distribute(a: int, b: int, c: int)
    ensures Prod(a, b + c) == Prod(a, b) + Prod(a, c) && Prod(a, b) == Prod(b, a)
  {
  }

  lemma Reassociate(a: int, b: int, c: int)
    ensures Prod(a, Prod(b, c)) == Prod(Prod(a, b), c)
  {
  }

  lemma Scaled(a: int, k: int, b: int)
    ensures Prod(a, k * b) == k * Prod(a, b)
  {
  }

  lemma Grows(a: int, b: int, d: int)
    requires a <= b && d >= 0
    ensures Prod(d, a) <= Prod(d, b)
  {
    Monotone(a, b, d);
  }

  lemma Same(a: int)
    ensures Prod(a, a) == Sq(a) && Prod(a, 1) == a
  {
  }

  lemma DivRest(x: int, d: int)
    requires d > 0
    ensures -d < x * ONE - Prod(d, Div(x, d)) < d
  {
    var n := x * ONE;
    if n >= 0 {
      FloorIs(n, d);
    } else {
      FloorIs(-n, d);
      assert d * (-((-n) / d)) == -(d * ((-n) / d));
    }
  }

  lemma MulRest(u: int, p: int)
    ensures ONE * Mul(u, p) <= Prod(u, p) < ONE * Mul(u, p) + ONE
  {
  }

  lemma SmallProduct(rho: int, d: int, p: int)
    requires -d < rho < d && 0 < p < 1024
    ensures -1024 * d < Prod(rho, p) < 1024 * d
  {
    Distribute(rho, p, 0);
    Grows(rho, d, p);
    Grows(-d, rho, p);
    Distribute(d, p, 0);
    Grows(p, 1023, d);
    Scaled(d, 1023, 1);
    Same(d);
    Negated(p, d);
    hide Prod;
  }

  lemma Negated(p: int, d: int)
    ensures Prod(p, -d) == -Prod(p, d) && Prod(p, d) == Prod(d, p)
  {
  }

  /** One axis of the pushout, scaled by the distance: exact up to a quarter above
      and one and a quarter below. */
  lemma AxisPush(x: int, d: int)
    requires 0 < d < BOMB_STAND_GAP
    ensures var y := x + Mul(Div(x, d), BOMB_STAND_GAP - d);
      -5 * d < 4 * (Prod(d, y) - BOMB_STAND_GAP * x) < d
  {
    var p := BOMB_STAND_GAP - d;
    var u := Div(x, d);
    var f := Mul(u, p);
    var rho := x * ONE - Prod(d, u);
    hide Prod, Div, Mul;
    DivRest(x, d);
    MulRest(u, p);
    SmallProduct(rho, d, p);
    var up := Prod(u, p);
    Grows(ONE * f, up, d);
    Grows(up, ONE * f + (ONE - 1), d);
    Distribute(d, ONE * f, ONE - 1);
    Scaled(d, ONE, f);
    Scaled(d, ONE - 1, 1);
    Same(d);
    Reassociate(d, u, p);
    Distribute(p, x * ONE, -rho);
    Distribute(Prod(d, u), p, 0);
    Scaled(p, ONE, x);
    Negated(p, rho);
    Distribute(rho, p, 0);
    Distribute(p, x, 0);
    Distribute(d, x, f);
    Distribute(x, p, d);
    Scaled(x, BOMB_STAND_GAP, 1);
    Same(x);
    assert Prod(p, x * ONE - rho) == ONE * Prod(p, x) - Prod(p, rho);
    assert Prod(d, up) == ONE * Prod(x, p) - Prod(rho, p);
  }

  lemma SquareOf(x: int, e: int)
    ensures Sq(1024 * x + e) == 1048576 * Sq(x) + 2048 * Prod(x, e) + Sq(e)
  {
  }

  lemma CrossTerm(x: int, e: int, d: int)
    requires d > 0 && -5 * d < 4 * e < d
    ensures 4 * Prod(x, e) >= -5 * Prod(Abs(x), d)
  {
    hide Prod;
    if x >= 0 {
      Grows(-5 * d, 4 * e, x);
      Scaled(x, 4, e);
      Scaled(x, -5, d);
    } else {
      Grows(4 * e, d, -x);
      Scaled(-x, 4, e);
      Negated(e, x);
      Negated(-x, e);
      Distribute(x, e, 0);
      Distribute(-x, e, 0);
      Nonneg(-x, d);
    }
  }

  lemma Nonneg(a: nat, b: nat)
    ensures Prod(a, b) >= 0
  {
    Products(a, b);
  }

  lemma Binomial(a: int, b: int)
    ensures Sq(5 * a - 7 * b) == 25 * Sq(a) - 70 * Prod(a, b) + 49 * Sq(b)
    ensures Sq(a + b) == Sq(a) + 2 * Prod(a, b) + Sq(b) && Sq(a - b) == Sq(a) - 2 * Prod(a, b) + Sq(b)
  {
  }

  /** From (5a - 7d)^2 >= 0 and (u - v)^2 >= 0, with a = u + v. */
  lemma CrossBound(x: int, z: int, d: int)
    ensures 70 * (Prod(Abs(x), d) + Prod(Abs(z), d)) <= 50 * (Sq(x) + Sq(z)) + 49 * Sq(d)
  {
    SquareAbs(x);
    SquareAbs(z);
    var u: int, v: int := Abs(x), Abs(z);
    hide Prod, Sq, Abs;
    Binomial(u + v, d);
    Binomial(u, v);
    Distribute(d, u, v);
    Distribute(u, d, 0);
    Distribute(v, d, 0);
    Distribute(u + v, d, 0);
    assert Sq(5 * (u + v) - 7 * d) >= 0 && Sq(u - v) >= 0;
  }

  /** What the two axes' errors can take off the squared distance. */
  lemma GapSquare(x: int, z: int, d: int, X: int, Z: int)
    requires d > 0 && Sq(x) + Sq(z) >= Sq(d)
    requires -5 * d < 4 * (X - 1024 * x) < d && -5 * d < 4 * (Z - 1024 * z) < d
    ensures Sq(X) + Sq(Z) >= 1044484 * Sq(d)
  {
    hide Prod, Sq, Abs;
    var e, f := X - 1024 * x, Z - 1024 * z;
    SquareOf(x, e);
    SquareOf(z, f);
    CrossTerm(x, e, d);
    CrossTerm(z, f, d);
    CrossBound(x, z, d);
  }

  lemma ScaledSquare(d: int, y: int)
    ensures Sq(Prod(d, y)) == Prod(Sq(d), Sq(y))
  {
    assert (d * y) * (d * y) == (d * d) * (y * y);
  }

  lemma Cancel(D: int, t: int, k: int)
    requires D > 0 && Prod(D, t) >= k * D
    ensures t >= k
  {
    hide Prod;
    if t < k {
      Grows(t, k - 1, D);
      Scaled(D, k - 1, 1);
      Same(D);
      LessOne(k, D);
    }
  }

  lemma LessOne(k: int, D: int)
    ensures (k - 1) * D == k * D - D
  {
  }

  lemma SquarePositive(d: int)
    requires d > 0
    ensures Sq(d) > 0
  {
    Monotone(1, d, d);
  }

  lemma LenAtLeast(x: int, z: int, b: nat)
    requires Sq(x) + Sq(z) >= Sq(b)
    ensures Len2(x, z) >= b
  {
    RootIs(Sq(x) + Sq(z));
    hide Sq;
    SquaresStrict(b, Len2(x, z) + 1);
  }

  /** The pushout in numbers, from an offset of length d inside the gap. */
  lemma PushedOut(x: int, z: int, d: int)
    requires 0 < d < BOMB_STAND_GAP && Sq(x) + Sq(z) >= Sq(d)
    ensures var y, w := x + Mul(Div(x, d), BOMB_STAND_GAP - d), z + Mul(Div(z, d), BOMB_STAND_GAP - d);
      Len2(y, w) >= BOMB_STAND_GAP - 2
  {
    assert Sq(1022) == 1044484;
    hide Prod, Sq, Mul, Div, Len2;
    var y, w := x + Mul(Div(x, d), BOMB_STAND_GAP - d), z + Mul(Div(z, d), BOMB_STAND_GAP - d);
    AxisPush(x, d);
    AxisPush(z, d);
    GapSquare(x, z, d, Prod(d, y), Prod(d, w));
    ScaledSquare(d, y);
    ScaledSquare(d, w);
    Distribute(Sq(d), Sq(y), Sq(w));
    SquarePositive(d);
    Cancel(Sq(d), Sq(y) + Sq(w), 1044484);
    LenAtLeast(y, w, 1022);
  }

  lemma LengthSquare(x: int, z: int)
    ensures Sq(Len2(x, z)) <= Sq(x) + Sq(z)
  {
    RootIs(Sq(x) + Sq(z));
  }

  /** A grounded player pushed out of a settled bomb's stand gap is left, despite all
      truncation, at least the gap less two units away. */
  lemma StandGapHolds(pos: Vec, b: Vec)
    requires 0 < Len2(pos.x - b.x, pos.z - b.z) < BOMB_STAND_GAP
    ensures var q := StandOff(pos, b); Len2(q.x - b.x, q.z - b.z) >= BOMB_STAND_GAP - 2
  {
    hide Sq, Mul, Div, Len2;
    var x, z := pos.x - b.x, pos.z - b.z;
    var d := Len2(x, z);
    LengthSquare(x, z);
    PushedOut(x, z, d);
    var q := StandOff(pos, b);
    assert q.x - b.x == x + Mul(Div(x, d), BOMB_STAND_GAP - d);
    assert q.z - b.z == z + Mul(Div(z, d), BOMB_STAND_GAP - d);
  }
}
