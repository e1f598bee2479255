/** Real-number stand-ins for the floating-point maths the simulator relies on:
    the constant pi, the library functions sin, cos and exp, and Python's
    floor-modulo on floats by a full turn. */
module RealMath {

  /** The library constant pi (the value of `math.pi` / `np.pi`), as a real. */
  const PI: real := 3.141592653589793

  /** sin, cos and exp are not computed by the model. They are handed in as
      values, and the only facts used about them are the ranges in Lawful. */
  datatype Transcendentals = Transcendentals(sin: real -> real, cos: real -> real, exp: real -> real)

  /** The range facts the model relies on: sin and cos lie in [-1, 1], exp of a
      non-positive argument lies in (0, 1], and exp(0) = 1. */
  ghost predicate Lawful(m: Transcendentals)
  {
    (forall y :: -1.0 <= m.sin(y) <= 1.0) &&
    (forall y :: -1.0 <= m.cos(y) <= 1.0) &&
    (forall y :: y <= 0.0 ==> 0.0 < m.exp(y) <= 1.0) &&
    m.exp(0.0) == 1.0
  }

  /** q is a whole number. */
  predicate IsWhole(q: real)
  {
    q.Floor as real == q
  }

  /** Multiplying by a positive factor keeps a non-strict order. */
  lemma ScaleOrder(b: real, u: real, v: real)
    requires b > 0.0 && u <= v
    ensures b * u <= b * v
  {
    assert b * v - b * u == b * (v - u);
  }

  /** Multiplying by a positive factor keeps a strict order. */
  lemma ScaleStrict(b: real, u: real, v: real)
    requires b > 0.0 && u < v
    ensures b * u < b * v
  {
    assert b * v - b * u == b * (v - u);
  }

  /** The product of two reals. Squares are written through it, so that the
      solver treats a square as one term when reasoning about its sign. */
  function Product(a: real, b: real): real
  {
    a * b
  }

  /** A power of two, `a**2`. */
  function Square(a: real): real
  {
    Product(a, a)
  }

  /** Two factors of the same strict sign have a positive product. */
  lemma ProductPositive(u: real, v: real)
    requires (u > 0.0 && v > 0.0) || (u < 0.0 && v < 0.0)
    ensures Product(u, v) > 0.0
  {
    if u > 0.0 {
      ScaleStrict(u, 0.0, v);
    } else {
      ScaleStrict(-u, 0.0, -v);
      assert u * v == (-u) * (-v);
    }
  }

  /** Two factors of the same weak sign have a non-negative product. */
  lemma ProductNonNegative(u: real, v: real)
    requires (u >= 0.0 && v >= 0.0) || (u <= 0.0 && v <= 0.0)
    ensures Product(u, v) >= 0.0
  {
    if u != 0.0 && v != 0.0 { ProductPositive(u, v); }
  }

  /** The product of two numbers in [-1, 1] is at most 1. */
  lemma ProductAtMostOne(a: real, b: real)
    requires -1.0 <= a <= 1.0 && -1.0 <= b <= 1.0
    ensures Product(a, b) <= 1.0
  {
    ProductNonNegative(1.0 - a, 1.0 + b);
    ProductNonNegative(1.0 + a, 1.0 - b);
    assert Product(1.0 - a, 1.0 + b) == 1.0 + b - a - Product(a, b);
    assert Product(1.0 + a, 1.0 - b) == 1.0 - b + a - Product(a, b);
  }

  /** The product of two numbers in [-1, 1] is at least -1. */
  lemma ProductAtLeastMinusOne(a: real, b: real)
    requires -1.0 <= a <= 1.0 && -1.0 <= b <= 1.0
    ensures -1.0 <= Product(a, b)
  {
    ProductNonNegative(1.0 - a, 1.0 - b);
    ProductNonNegative(1.0 + a, 1.0 + b);
    assert Product(1.0 - a, 1.0 - b) == 1.0 - a - b + Product(a, b);
    assert Product(1.0 + a, 1.0 + b) == 1.0 + a + b + Product(a, b);
  }

  /** The square of a non-zero number is positive. */
  lemma SquarePositive(a: real)
    requires a != 0.0
    ensures Square(a) > 0.0
  {
    ProductPositive(a, a);
  }

  /** Every square is non-negative. */
  lemma SquareNonNegative(a: real)
    ensures Square(a) >= 0.0
  {
    ProductNonNegative(a, a);
  }

  /** A number in [-1, 1] has a square of at most 1. */
  lemma SquareAtMostOne(c: real)
    requires -1.0 <= c <= 1.0
    ensures Square(c) <= 1.0
  {
    ProductAtMostOne(c, c);
  }

  /** One full turn, the divisor `2 * pi` of the angle normalisation. */
  const TAU: real := 2.0 * PI

  /** Python's float `a % (2 * pi)`: the remainder of flooring division,
      a - 2 pi floor(a / (2 pi)), which has the sign of the divisor. */
  function ModTau(a: real): (r: real)
    ensures 0.0 <= r < TAU
    ensures IsWhole((a - r) / TAU)
  {
    var f := (a / TAU).Floor as real;
    assert (a - (a - TAU * f)) / TAU == f;
    a - TAU * f
  }

  /** A whole number plus a fraction in [0, 1) has that whole number as its floor. */
  lemma FloorOfWholePlusFraction(k: real, u: real)
    requires IsWhole(k) && 0.0 <= u < 1.0
    ensures (k + u).Floor as real == k
  {
    var n := k.Floor;
    var m := (k + u).Floor;
    assert (m as real) <= k + u < (m as real) + 1.0;
    assert (m as real) < (n as real) + 1.0 && (n as real) < (m as real) + 1.0;
    assert m < n + 1 && n < m + 1;
  }

  /** The remainder is the only value in [0, 2 pi) that differs from a by a
      whole number of turns. */
  lemma ModTauUnique(a: real, r: real)
    requires 0.0 <= r < TAU
    requires IsWhole((a - r) / TAU)
    ensures ModTau(a) == r
  {
    var k := (a - r) / TAU;
    var u := r / TAU;
    assert a / TAU == k + u;
    assert 0.0 <= u < 1.0;
    FloorOfWholePlusFraction(k, u);
  }

  /** The angle normalisation of the step, ((theta + pi) % (2 pi)) - pi. */
  function Wrap(theta: real): (r: real)
    ensures -PI <= r < PI
    ensures IsWhole((theta - r) / TAU)
  {
    ModTau(theta + PI) - PI
  }

  /** An angle already in [-pi, pi) is left unchanged by the normalisation. */
  lemma WrapFixesPrincipal(theta: real)
    requires -PI <= theta < PI
    ensures Wrap(theta) == theta
  {
    assert (theta + PI - (theta + PI)) / TAU == 0.0;
    ModTauUnique(theta + PI, theta + PI);
  }

  /** The normalisation is the unique angle in [-pi, pi) that differs from its
      argument by a whole number of turns. */
  lemma WrapUnique(theta: real, r: real)
    requires -PI <= r < PI
    requires IsWhole((theta - r) / TAU)
    ensures Wrap(theta) == r
  {
    assert (theta + PI) - (r + PI) == theta - r;
    ModTauUnique(theta + PI, r + PI);
  }

  /** Normalising twice is the same as normalising once. */
  lemma WrapIdempotent(theta: real)
    ensures Wrap(Wrap(theta)) == Wrap(theta)
  {
    WrapFixesPrincipal(Wrap(theta));
  }
}
