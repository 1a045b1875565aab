/** The floating-point library calls of the stress script, abstracted.

    `sqrt`, `sin`/`cos` of an angle in degrees (math.sin(math.radians(a))),
    `acos` in degrees (math.degrees(math.acos(c))) and `atan2` in degrees
    (math.degrees(math.atan2(y, x))) are fields of a `MathLib` value that the
    model receives as a parameter. Every operation is total for any `MathLib`;
    the properties that need real trigonometry assume `Sound(m)`, which lists
    the exact identities the real functions satisfy. Rounding is not modelled. */
module Numerics {
  import opened Vectors

  datatype MathLib = MathLib(
    sqrt: real -> real,
    sinDeg: real -> real,
    cosDeg: real -> real,
    acosDeg: real -> real,
    atan2Deg: (real, real) -> real)

  function Abs(x: real): real {
    if x < 0.0 then -x else x
  }

  /** Python's float `a % 360`, which takes the sign of the divisor. */
  function Mod360(a: real): (r: real)
    ensures 0.0 <= r < 360.0
    ensures 0.0 <= a < 360.0 ==> r == a
    ensures 360.0 <= a < 720.0 ==> r == a - 360.0
  {
    a - 360.0 * ((a / 360.0).Floor as real)
  }

  /** numpy.linalg.norm of a 3-vector */
  function Norm(m: MathLib, v: Vec3): real {
    m.sqrt(Dot(v, v))
  }

  /** The horizontal unit vector pointing at an azimuth (clockwise from North). */
  function Bearing(m: MathLib, azimuth: real): Vec3 {
    Vec3(m.sinDeg(azimuth), m.cosDeg(azimuth), 0.0)
  }

  /** sin^2 a + cos^2 a = 1, named so that it is used only where asked for. */
  predicate Pythagorean(m: MathLib, a: real) {
    m.sinDeg(a) * m.sinDeg(a) + m.cosDeg(a) * m.cosDeg(a) == 1.0
  }

  lemma SinCosSquares(m: MathLib, a: real)
    requires Sound(m)
    ensures m.sinDeg(a) * m.sinDeg(a) + m.cosDeg(a) * m.cosDeg(a) == 1.0
  {
    assert Pythagorean(m, a);
  }

  /** The identities of exact real arithmetic that the properties rely on. */
  ghost predicate Sound(m: MathLib) {
    && (forall x :: 0.0 <= x ==> 0.0 <= m.sqrt(x) && m.sqrt(x) * m.sqrt(x) == x)
    && m.sqrt(0.0) == 0.0
    && (forall a :: Pythagorean(m, a))
    && m.sinDeg(0.0) == 0.0 && m.cosDeg(0.0) == 1.0
    && (forall a {:trigger m.sinDeg(a + 90.0)} {:trigger m.cosDeg(a + 90.0)} ::
          m.sinDeg(a + 90.0) == m.cosDeg(a) && m.cosDeg(a + 90.0) == -m.sinDeg(a))
    && (forall a :: m.sinDeg(Mod360(a)) == m.sinDeg(a) && m.cosDeg(Mod360(a)) == m.cosDeg(a))
    && (forall c :: -1.0 <= c <= 1.0 ==>
          && 0.0 <= m.acosDeg(c) <= 180.0
          && m.cosDeg(m.acosDeg(c)) == c
          && 0.0 <= m.sinDeg(m.acosDeg(c)))
    && (forall c :: 0.0 <= c <= 1.0 ==> m.acosDeg(c) <= 90.0)
    && (forall y, x :: -180.0 <= m.atan2Deg(y, x) <= 180.0)
    && (forall y, x :: 0.0 <= y && 0.0 < x ==> 0.0 <= m.atan2Deg(y, x) <= 90.0)
    && (forall y, x :: 0.0 < x * x + y * y ==>
          && m.sinDeg(m.atan2Deg(y, x)) * m.sqrt(x * x + y * y) == y
          && m.cosDeg(m.atan2Deg(y, x)) * m.sqrt(x * x + y * y) == x)
  }

  lemma SqrtIsRoot(m: MathLib, x: real)
    requires Sound(m) && 0.0 <= x
    ensures 0.0 <= m.sqrt(x) && m.sqrt(x) * m.sqrt(x) == x
  {
  }

  lemma MulPos(x: real, y: real)
    requires 0.0 < x && 0.0 < y
    ensures 0.0 < x * y
  {
  }

  lemma MulNonNeg(x: real, y: real)
    requires 0.0 <= x && 0.0 <= y
    ensures 0.0 <= x * y
  {
  }

  lemma SquareMonotone(a: real, b: real)
    requires 0.0 <= a < b
    ensures a * a < b * b
  {
    var d := b - a;
    MulNonNeg(a, d);
    MulPos(b, d);
    assert b * b - a * a == a * d + b * d;
  }

  /** Two non-negative numbers with equal squares are equal. */
  lemma SquareRootUnique(a: real, b: real)
    requires 0.0 <= a && 0.0 <= b && a * a == b * b
    ensures a == b
  {
    if a < b {
      SquareMonotone(a, b);
    } else if b < a {
      SquareMonotone(b, a);
    }
  }

  lemma SqrtOfSquare(m: MathLib, a: real)
    requires Sound(m) && 0.0 <= a
    ensures m.sqrt(a * a) == a
  {
    SqrtIsRoot(m, a * a);
    SquareRootUnique(m.sqrt(a * a), a);
  }

  lemma SquarePositive(x: real, y: real, s: real)
    requires x == y && x != 0.0 && s == x * y
    ensures 0.0 < s
  {
    if x < 0.0 {
      MulPos(-x, -y);
    } else {
      MulPos(x, y);
    }
  }

  lemma SquareNonNeg(x: real, y: real, s: real)
    requires x == y && s == x * y
    ensures 0.0 <= s
  {
    if x < 0.0 {
      MulPos(-x, -y);
    } else {
      MulNonNeg(x, y);
    }
  }

  lemma ProductNonZero(x: real, y: real)
    requires x != 0.0 && y != 0.0
    ensures x * y != 0.0
  {
    if x < 0.0 && y < 0.0 {
      MulPos(-x, -y);
    } else if x < 0.0 {
      MulPos(-x, y);
    } else if y < 0.0 {
      MulPos(x, -y);
    } else {
      MulPos(x, y);
    }
  }

  /** A non-zero factor cancels. */
  lemma MulCancel(a: real, b: real, k: real)
    requires k != 0.0 && a * k == b * k
    ensures a == b
  {
    assert (a - b) * k == a * k - b * k;
    if a != b {
      ProductNonZero(a - b, k);
    }
  }

  lemma SumOfSquaresPositive(a: real, b: real, c: real, d: real)
    requires a != 0.0 || b != 0.0 || c != 0.0
    requires d == a * a + b * b + c * c
    ensures 0.0 < d
  {
    var sa, sb, sc := a * a, b * b, c * c;
    SquareNonNeg(a, a, sa);
    SquareNonNeg(b, b, sb);
    SquareNonNeg(c, c, sc);
    if a != 0.0 {
      SquarePositive(a, a, sa);
    } else if b != 0.0 {
      SquarePositive(b, b, sb);
    } else {
      SquarePositive(c, c, sc);
    }
  }

  /** The norm vanishes exactly on the zero vector. */
  lemma NormZeroIff(m: MathLib, v: Vec3)
    requires Sound(m)
    ensures 0.0 <= Norm(m, v)
    ensures Norm(m, v) == 0.0 <==> v == Zero
  {
    SquareNonNegative(v);
    SqrtIsRoot(m, Dot(v, v));
    if v == Zero {
      assert Dot(v, v) == 0.0;
    } else {
      SumOfSquaresPositive(v.x, v.y, v.z, Dot(v, v));
      RootPositive(Norm(m, v), Norm(m, v), Dot(v, v));
    }
  }

  /** A non-negative root of a positive number is positive. The square is
      written as a product of two equal factors, which the solver handles
      better than a literal square. */
  lemma RootPositive(a: real, b: real, d: real)
    requires a == b && 0.0 <= a && a * b == d && 0.0 < d
    ensures 0.0 < a
  {
    if a == 0.0 {
      assert a * b == 0.0 * b;
    }
  }

  lemma SquareNonZero(a: real, b: real, s: real)
    requires a == b && a != 0.0 && s == a * b
    ensures s != 0.0
  {
  }

  lemma UnitNorm(m: MathLib, v: Vec3)
    requires Sound(m) && Dot(v, v) == 1.0
    ensures Norm(m, v) == 1.0
  {
    SqrtOfSquare(m, 1.0);
  }

  /** Dividing a non-zero vector by its norm gives a unit vector. */
  lemma NormalizedIsUnit(m: MathLib, v: Vec3)
    requires Sound(m) && Norm(m, v) != 0.0
    ensures Dot(Div(v, Norm(m, v)), Div(v, Norm(m, v))) == 1.0
  {
    var n := Norm(m, v);
    SquareNonNegative(v);
    SqrtIsRoot(m, Dot(v, v));
    assert n * n == Dot(v, v);
    DividedSquares(v.x, v.y, v.z, n);
  }

  lemma DividedSquares(a: real, b: real, c: real, n: real)
    requires n * n == a * a + b * b + c * c && n != 0.0
    ensures (a / n) * (a / n) + (b / n) * (b / n) + (c / n) * (c / n) == 1.0
  {
    var p, q, r := a / n, b / n, c / n;
    DivTimes(a, n);
    DivTimes(b, n);
    DivTimes(c, n);
    var k := p * p + q * q + r * r;
    var nn := n * n;
    assert k * nn == a * a + b * b + c * c;
    SquareNonZero(n, n, nn);
    MulCancel(k, 1.0, nn);
  }

  lemma DivTimes(x: real, n: real)
    requires n != 0.0
    ensures (x / n) * n == x
  {
  }

  /** Dividing a vector by a non-zero number divides its dot products. */
  lemma DivDot(c: Vec3, s: Vec3, n: real)
    requires n != 0.0
    ensures Dot(Div(c, n), s) * n == Dot(c, s)
    ensures Dot(c, s) == 0.0 ==> Dot(Div(c, n), s) == 0.0
  {
    DivTimes(c.x, n);
    DivTimes(c.y, n);
    DivTimes(c.z, n);
    var d := Dot(Div(c, n), s);
    assert d * n == Dot(c, s);
    if Dot(c, s) == 0.0 {
      MulCancel(d, 0.0, n);
    }
  }

  lemma BearingIsUnit(m: MathLib, azimuth: real)
    requires Sound(m)
    ensures Dot(Bearing(m, azimuth), Bearing(m, azimuth)) == 1.0
  {
    SinCosSquares(m, azimuth);
  }

  lemma QuarterTurn(m: MathLib, a: real)
    requires Sound(m)
    ensures m.sinDeg(a + 90.0) == m.cosDeg(a) && m.cosDeg(a + 90.0) == -m.sinDeg(a)
  {
  }

  lemma HalfTurn(m: MathLib, a: real)
    requires Sound(m)
    ensures m.sinDeg(a + 180.0) == -m.sinDeg(a) && m.cosDeg(a + 180.0) == -m.cosDeg(a)
  {
    QuarterTurn(m, a);
    QuarterTurn(m, a + 90.0);
    assert a + 90.0 + 90.0 == a + 180.0;
  }

  lemma FullTurn(m: MathLib, a: real)
    requires Sound(m)
    ensures m.sinDeg(a + 360.0) == m.sinDeg(a) && m.cosDeg(a + 360.0) == m.cosDeg(a)
  {
    HalfTurn(m, a);
    HalfTurn(m, a + 180.0);
    assert a + 180.0 + 180.0 == a + 360.0;
  }

  lemma ThreeQuarterTurn(m: MathLib, a: real)
    requires Sound(m)
    ensures m.sinDeg(a + 270.0) == -m.cosDeg(a) && m.cosDeg(a + 270.0) == m.sinDeg(a)
  {
    HalfTurn(m, a);
    QuarterTurn(m, a + 180.0);
    assert a + 180.0 + 90.0 == a + 270.0;
  }

  /** The opposite azimuth, wrapped into [0, 360), points the other way. */
  lemma OppositeBearing(m: MathLib, azimuth: real)
    requires Sound(m)
    ensures Bearing(m, Mod360(azimuth + 180.0)) == Neg(Bearing(m, azimuth))
  {
    HalfTurn(m, azimuth);
  }

  /** Wrapping an atan2 azimuth into [0, 360) by adding 360 to negative values. */
  function WrapAzimuth(a: real): (r: real)
    ensures -180.0 <= a <= 180.0 ==> 0.0 <= r < 360.0
  {
    if a < 0.0 then a + 360.0 else a
  }

  lemma WrapKeepsDirection(m: MathLib, a: real)
    requires Sound(m)
    ensures m.sinDeg(WrapAzimuth(a)) == m.sinDeg(a) && m.cosDeg(WrapAzimuth(a)) == m.cosDeg(a)
  {
    FullTurn(m, a);
  }

  /** sin(az) |(x, y)| = x and cos(az) |(x, y)| = y for the wrapped azimuth
      az = atan2(x, y), including the zero vector, whose length is 0. */
  lemma TrendScaled(m: MathLib, x: real, y: real)
    requires Sound(m)
    ensures m.sinDeg(WrapAzimuth(m.atan2Deg(x, y))) * m.sqrt(x * x + y * y) == x
    ensures m.cosDeg(WrapAzimuth(m.atan2Deg(x, y))) * m.sqrt(x * x + y * y) == y
  {
    var h := x * x + y * y;
    SquareNonNeg(x, x, x * x);
    SquareNonNeg(y, y, y * y);
    if h == 0.0 {
      if x != 0.0 || y != 0.0 {
        SumOfSquaresPositive(x, y, 0.0, h);
      }
      assert m.sqrt(h) == 0.0;
    } else {
      TrendOfDirection(m, x, y);
    }
  }

  /** The azimuth atan2(x, y) of a horizontal direction (x, y) reproduces it:
      sin(az) |(x, y)| = x and cos(az) |(x, y)| = y. */
  lemma TrendOfDirection(m: MathLib, x: real, y: real)
    requires Sound(m) && 0.0 < x * x + y * y
    ensures m.sinDeg(WrapAzimuth(m.atan2Deg(x, y))) * m.sqrt(x * x + y * y) == x
    ensures m.cosDeg(WrapAzimuth(m.atan2Deg(x, y))) * m.sqrt(x * x + y * y) == y
  {
    WrapKeepsDirection(m, m.atan2Deg(x, y));
    assert y * y + x * x == x * x + y * y;
  }
}
