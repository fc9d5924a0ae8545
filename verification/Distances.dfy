/** The minimum image convention of the simulation box, and squared distances. */
module Distances {
  import opened Arithmetic
  import opened Vectors
  import opened Box

  /** Largest whole number that the truncating cast of a non-negative value yields. */
  function Truncated(x: real): int
    requires x >= 0.0
  {
    x.Floor
  }

  /** Number of box lengths by which the x and y components are moved. */
  function Turns(L: real, w: real): int
    requires L > 0.0
  {
    if w >= L / 2.0 then (HalfPositive(w, L); -Truncated(w / L + 0.5))
    else if w < -L / 2.0 then (HalfPositive(-w, L); Truncated(-w / L + 0.5))
    else 0
  }

  lemma HalfPositive(w: real, L: real)
    requires L > 0.0 && w >= L / 2.0
    ensures w / L + 0.5 >= 0.0
  {
    assert (w / L) * L == w;
    if w / L < 0.0 {
      RealMulStrict(w / L, 0.0, L);
    }
  }

  /** The z component is moved by at most one box length. */
  function OneTurn(L: real, w: real): int {
    if w >= L / 2.0 then -1 else if w < -L / 2.0 then 1 else 0
  }

  function MinImage(L: V3<real>, w: V3<real>): V3<real>
    requires L.x > 0.0 && L.y > 0.0
  {
    V3(Image(L.x, w.x, Turns(L.x, w.x)), Image(L.y, w.y, Turns(L.y, w.y)), Image(L.z, w.z, OneTurn(L.z, w.z)))
  }

  function Abs(x: real): real {
    if x < 0.0 then -x else x
  }

  lemma ImageOfImage(L: real, w: real, k: int, m: int)
    ensures Image(L, Image(L, w, k), m) == Image(L, w, k + m)
  {
    assert (k + m) as real * L == k as real * L + m as real * L;
  }

  /** A coordinate within half a box length is the shortest of all its images. */
  lemma HalfBoxShortest(L: real, r: real, k: int)
    requires L > 0.0 && -L / 2.0 <= r <= L / 2.0
    ensures Abs(r) <= Abs(Image(L, r, k))
  {
    var s := k as real * L;
    Multiples(k, L, s);
    assert k >= 1 ==> s >= L;
    assert k <= -1 ==> s <= -L;
  }

  lemma TurnsWithinHalf(L: real, w: real)
    requires L > 0.0
    ensures -L / 2.0 <= Image(L, w, Turns(L, w)) <= L / 2.0
  {
    if w >= L / 2.0 {
      HalfPositive(w, L);
      RoundedWithinHalf(L, w);
    } else if w < -L / 2.0 {
      HalfPositive(-w, L);
      RoundedWithinHalf(L, -w);
      assert -w / L == (-w) / L;
      var i := Truncated(-w / L + 0.5);
      assert Image(L, -w, -i) == -Image(L, w, i);
    }
  }

  lemma RoundedWithinHalf(L: real, v: real)
    requires L > 0.0 && v / L + 0.5 >= 0.0
    ensures -L / 2.0 <= Image(L, v, -Truncated(v / L + 0.5)) <= L / 2.0
  {
    var q, i := v / L, (v / L + 0.5).Floor;
    QuotientTimes(v, L);
    RealDistribute(q, 0.5, L);
    RealDistribute(i as real, 1.0, L);
    RoundedBounds(v, L, (q + 0.5) * L, i as real * L, i as real, q + 0.5);
    assert (-i) as real == -(i as real);
    RealDistribute(i as real, (-i) as real, L);
  }

  lemma RoundedBounds(v: real, L: real, shifted: real, s: real, i: real, q: real)
    requires L > 0.0 && shifted == q * L == v + L / 2.0 && s == i * L && i <= q < i + 1.0
    ensures s <= v + L / 2.0 <= s + L
  {
    var next := i + 1.0;
    RealMulMono(i, q, L);
    RealMulMono(q, next, L);
    RealDistribute(i, 1.0, L);
    assert shifted <= next * L;
    assert next * L == s + L;
  }

  /** On the x and y axes the result is the shortest of all images, however far away the input is. */
  lemma TurnsShortest(L: real, w: real, k: int)
    requires L > 0.0
    ensures Abs(Image(L, w, Turns(L, w))) <= Abs(Image(L, w, k))
  {
    TurnsWithinHalf(L, w);
    var t := Turns(L, w);
    ImageOfImage(L, w, t, k - t);
    HalfBoxShortest(L, Image(L, w, t), k - t);
  }

  /** On the z axis the result is the shortest of all images for inputs within one and a half box lengths. */
  lemma OneTurnShortest(L: real, w: real, k: int)
    requires L > 0.0 && -1.5 * L <= w <= 1.5 * L
    ensures Abs(Image(L, w, OneTurn(L, w))) <= Abs(Image(L, w, k))
  {
    var t := OneTurn(L, w);
    assert -L / 2.0 <= Image(L, w, t) <= L / 2.0 by {
      assert 1 as real * L == L && (-1) as real * L == -L && 0 as real * L == 0.0;
    }
    ImageOfImage(L, w, t, k - t);
    HalfBoxShortest(L, Image(L, w, t), k - t);
  }

  /** Twice the box length away from the given coordinate, on the side of the origin. */
  function TwoTurns(w: real): int {
    if w > 0.0 then -2 else 2
  }

  /** Beyond that, two turns lead to a shorter image than the single one. */
  lemma TwoTurnsShorter(L: real, w: real)
    requires L > 0.0 && (w < -1.5 * L || w > 1.5 * L)
    ensures Abs(Image(L, w, TwoTurns(w))) < Abs(Image(L, w, OneTurn(L, w)))
  {
    assert 1 as real * L == L && (-1) as real * L == -L && 2 as real * L == 2.0 * L && (-2) as real * L == -2.0 * L;
  }

  /** On the z axis the result is the shortest of all images if and only if the input is within one and a half box lengths. */
  lemma OneTurnExact(L: real, w: real)
    requires L > 0.0
    ensures (forall k: int :: Abs(Image(L, w, OneTurn(L, w))) <= Abs(Image(L, w, k))) <==> -1.5 * L <= w <= 1.5 * L
  {
    if -1.5 * L <= w <= 1.5 * L {
      forall k: int
        ensures Abs(Image(L, w, OneTurn(L, w))) <= Abs(Image(L, w, k))
      {
        OneTurnShortest(L, w, k);
      }
    } else {
      TwoTurnsShorter(L, w);
    }
  }

  function Times(x: real, y: real): real {
    x * y
  }

  function Sq(x: real): real {
    Times(x, x)
  }

  function Square(v: V3<real>): real {
    Sq(v.x) + Sq(v.y) + Sq(v.z)
  }

  lemma PositiveProduct(x: real, y: real)
    requires x > 0.0 && y > 0.0
    ensures Times(x, y) > 0.0
  {
  }

  lemma NegativeProduct(x: real, y: real)
    ensures Times(-x, -y) == Times(x, y)
  {
  }

  lemma SqSign(x: real)
    ensures Sq(x) >= 0.0 && (Sq(x) <= 0.0 ==> x == 0.0)
  {
    if x > 0.0 {
      PositiveProduct(x, x);
    } else if x < 0.0 {
      PositiveProduct(-x, -x);
      NegativeProduct(x, x);
    }
  }

  lemma SqAbs(x: real)
    ensures Sq(Abs(x)) == Sq(x)
  {
    NegativeProduct(x, x);
  }

  lemma SqDifference(x: real, y: real)
    ensures Sq(y) - Sq(x) == Times(y - x, y + x)
  {
    assert (y - x) * (y + x) == y * y - x * x;
  }

  lemma SqMono(x: real, y: real)
    requires Abs(x) <= Abs(y)
    ensures Sq(x) <= Sq(y)
  {
    SqAbs(x);
    SqAbs(y);
    SqDifference(Abs(x), Abs(y));
    if Abs(x) < Abs(y) {
      PositiveProduct(Abs(y) - Abs(x), Abs(y) + Abs(x));
    }
  }

  /** The k-th image of a vector, axis by axis. */
  function ImageOf(L: V3<real>, w: V3<real>, k: V3<int>): V3<real> {
    V3(Image(L.x, w.x, k.x), Image(L.y, w.y, k.y), Image(L.z, w.z, k.z))
  }

  /** The minimum image is an image, and no image is shorter. */
  lemma MinImageShortest(L: V3<real>, w: V3<real>, k: V3<int>)
    requires L.x > 0.0 && L.y > 0.0 && L.z > 0.0 && -1.5 * L.z <= w.z <= 1.5 * L.z
    ensures Square(MinImage(L, w)) <= Square(ImageOf(L, w, k))
    ensures exists m: V3<int> :: MinImage(L, w) == ImageOf(L, w, m)
  {
    TurnsShortest(L.x, w.x, k.x);
    TurnsShortest(L.y, w.y, k.y);
    OneTurnShortest(L.z, w.z, k.z);
    var r, s := MinImage(L, w), ImageOf(L, w, k);
    SqMono(r.x, s.x);
    SqMono(r.y, s.y);
    SqMono(r.z, s.z);
    assert r == ImageOf(L, w, V3(Turns(L.x, w.x), Turns(L.y, w.y), OneTurn(L.z, w.z)));
  }

  // ------------------------------------------------------------ triangle inequality in squares

  function Dot(u: V3<real>, v: V3<real>): real {
    Times(u.x, v.x) + Times(u.y, v.y) + Times(u.z, v.z)
  }

  function Plus(u: V3<real>, v: V3<real>): V3<real> {
    V3(u.x + v.x, u.y + v.y, u.z + v.z)
  }

  function Minus(u: V3<real>, v: V3<real>): V3<real> {
    V3(u.x - v.x, u.y - v.y, u.z - v.z)
  }

  lemma CrossTerm(A: real, B: real, x: real, y: real)
    ensures 2.0 * (A * B) * Times(x, y) <= Sq(B) * Sq(x) + Sq(A) * Sq(y)
  {
    var s, t := B * x, A * y;
    assert (s - t) * (s - t) >= 0.0;
    assert (s - t) * (s - t) == s * s - 2.0 * (s * t) + t * t;
    assert s * s == (B * B) * (x * x);
    assert t * t == (A * A) * (y * y);
    assert s * t == (A * B) * (x * y);
  }

  lemma Distribute(c: real, x: real, y: real, z: real)
    ensures c * (x + y + z) == c * x + c * y + c * z
  {
  }

  lemma DotBound(u: V3<real>, v: V3<real>, A: real, B: real)
    requires A > 0.0 && B > 0.0 && Square(u) <= Sq(A) && Square(v) <= Sq(B)
    ensures Dot(u, v) <= A * B
  {
    CrossTerm(A, B, u.x, v.x);
    CrossTerm(A, B, u.y, v.y);
    CrossTerm(A, B, u.z, v.z);
    Distribute(Sq(B), Sq(u.x), Sq(u.y), Sq(u.z));
    Distribute(Sq(A), Sq(v.x), Sq(v.y), Sq(v.z));
    Distribute(2.0 * (A * B), Times(u.x, v.x), Times(u.y, v.y), Times(u.z, v.z));
    FromWeighted(A, B, Square(u), Square(v), Dot(u, v));
  }

  lemma FromWeighted(A: real, B: real, uu: real, vv: real, d: real)
    requires A > 0.0 && B > 0.0 && 2.0 * (A * B) * d <= Sq(B) * uu + Sq(A) * vv && uu <= Sq(A) && vv <= Sq(B)
    ensures d <= A * B
  {
    var c := A * B;
    SqSign(A);
    SqSign(B);
    RealMulMono(uu, Sq(A), Sq(B));
    RealMulMono(vv, Sq(B), Sq(A));
    assert Sq(A) * Sq(B) == c * c;
    RealMulStrict(0.0, A, B);
    HalfOf(c, d, c * c);
  }

  lemma HalfOf(c: real, d: real, cc: real)
    requires c > 0.0 && 2.0 * c * d <= 2.0 * cc && cc == c * c
    ensures d <= c
  {
    if d > c {
      RealMulStrict(c, d, c);
    }
  }

  lemma ZeroVector(u: V3<real>)
    requires Square(u) <= 0.0
    ensures u == V3(0.0, 0.0, 0.0)
  {
    SqSign(u.x);
    SqSign(u.y);
    SqSign(u.z);
  }

  /** If two vectors are no longer than A and B, their sum is no longer than A + B. */
  lemma Triangle(u: V3<real>, v: V3<real>, A: real, B: real)
    requires A >= 0.0 && B >= 0.0 && Square(u) <= Sq(A) && Square(v) <= Sq(B)
    ensures Square(Plus(u, v)) <= Sq(A + B)
  {
    if A == 0.0 {
      ZeroVector(u);
      assert Plus(u, v) == v;
    } else if B == 0.0 {
      ZeroVector(v);
      assert Plus(u, v) == u;
    } else {
      DotBound(u, v, A, B);
      SquareOfSum(u.x, v.x);
      SquareOfSum(u.y, v.y);
      SquareOfSum(u.z, v.z);
      SquareOfSum(A, B);
    }
  }

  lemma SquareOfSum(x: real, y: real)
    ensures Sq(x + y) == Sq(x) + 2.0 * Times(x, y) + Sq(y)
  {
    assert (x + y) * (x + y) == x * x + 2.0 * (x * y) + y * y;
  }

  lemma SquareOfNegative(u: V3<real>)
    ensures Square(Minus(V3(0.0, 0.0, 0.0), u)) == Square(u)
  {
    assert (0.0 - u.x) * (0.0 - u.x) == u.x * u.x;
    assert (0.0 - u.y) * (0.0 - u.y) == u.y * u.y;
    assert (0.0 - u.z) * (0.0 - u.z) == u.z * u.z;
  }
}
