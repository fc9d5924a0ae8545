/** Boundary conditions of the decomposed simulation box, one axis at a time
    (orthorhombic boxes centred on the origin). An axis is described by
    n  - how many sub-domains it is cut into,
    L  - the length of the global box,
    rg - the width of the ghost layer. */
module Box {
  import opened Arithmetic
  import opened Vectors
  import opened Decomposition

  datatype Domain = Domain(grid: Grid, L: V3<real>, rGhost: real) {
    ghost predicate Valid() {
      rGhost >= 0.0 && forall a: Axis :: L.At(a) > 0.0
    }

    /** The test that setGhostLayerWidth makes before it accepts a width. */
    ghost predicate GhostWidthAccepted() {
      forall a: Axis :: grid.At(a) > 1 ==> rGhost < LocalLength(grid.At(a), L.At(a)) / 2.0
    }
  }

  function LocalLength(n: int, L: real): real
    requires n >= 1
  {
    L / n as real
  }

  function Lo(n: int, L: real, c: int): real
    requires n >= 1
  {
    DomainLo(-L / 2.0, L, n, c)
  }

  function Hi(n: int, L: real, c: int): real
    requires n >= 1
  {
    DomainHi(-L / 2.0, L, n, c)
  }

  predicate Inside(n: int, L: real, c: int, x: real)
    requires n >= 1
  {
    Lo(n, L, c) <= x < Hi(n, L, c)
  }

  /** Coordinate relative to the local box: 0 at its lower and 1 at its upper edge. */
  function Fraction(n: int, L: real, c: int, x: real): real
    requires n >= 1 && L > 0.0
  {
    (x - Lo(n, L, c)) / LocalLength(n, L)
  }

  /** Lower edge of the shifted global box used for wrapping received particles.
      The fraction is moved by twice the ghost layer at a global boundary. */
  function ShiftedLo(n: int, L: real, rg: real, c: int): real
    requires n >= 1 && L > 0.0
  {
    var shift := rg / L * 2.0;
    var east := if AtBoundary(n, c, 1) && n != 1 then shift else 0.0;
    var west := if AtBoundary(n, c, -1) && n != 1 then shift else 0.0;
    var f := 0.5 + east - west;
    var dx := -L / 2.0 + f * L;
    -L / 2.0 + dx
  }

  function ShiftedHi(n: int, L: real, rg: real, c: int): real
    requires n >= 1 && L > 0.0
  {
    ShiftedLo(n, L, rg, c) + L
  }

  /** The k-th periodic image of `x`. */
  function Image(L: real, x: real, k: int): real {
    x + k as real * L
  }

  /** How many box lengths a received coordinate is moved by; the image flag moves oppositely. */
  function Shift(n: int, L: real, rg: real, c: int, x: real): int
    requires n >= 1 && L > 0.0
  {
    if n == 1 then 0
    else if x >= ShiftedHi(n, L, rg, c) then -1
    else if x < ShiftedLo(n, L, rg, c) then 1
    else 0
  }

  function Wrap(n: int, L: real, rg: real, c: int, x: real): real
    requires n >= 1 && L > 0.0
  {
    x + Shift(n, L, rg, c, x) as real * L
  }

  /** An axis that the communicator may wrap along: cut in at least two, with
      the ghost layer narrower than half a sub-domain. */
  predicate Decomposed(n: int, L: real, rg: real) {
    n >= 2 && L > 0.0 && 0.0 <= rg < LocalLength(n, L) / 2.0
  }

  lemma ShiftedEdges(n: int, L: real, rg: real, c: int)
    requires n >= 2 && L > 0.0
    ensures ShiftedLo(n, L, rg, c) ==
            -L / 2.0 + (if c == n - 1 then 2.0 * rg else 0.0) - (if c == 0 then 2.0 * rg else 0.0)
  {
    assert rg / L * 2.0 * L == 2.0 * rg;
    var s := rg / L * 2.0;
    assert (0.5 + s) * L == L / 2.0 + s * L;
    assert (0.5 - s) * L == L / 2.0 - s * L;
  }

  lemma LocalLengths(n: int, L: real)
    requires n >= 1 && L > 0.0
    ensures var w := LocalLength(n, L);
            w > 0.0 && n as real * w == L
            && (n >= 2 ==> L >= 2.0 * w) && (n == 2 ==> L == 2.0 * w) && (n >= 3 ==> L >= 3.0 * w)
  {
    var w := LocalLength(n, L);
    assert n as real * w == L;
    if n >= 3 {
      RealMulMono(3.0, n as real, w);
    } else if n == 2 {
      assert 2.0 * w == L;
    }
  }

  /** All that is needed about the positions of the sub-domain edges, in linear form. */
  lemma Edges(n: int, L: real, c: int)
    requires n >= 1 && L > 0.0 && 0 <= c < n
    ensures var w := LocalLength(n, L);
            && w > 0.0
            && Hi(n, L, c) == Lo(n, L, c) + w
            && Hi(n, L, c) == Lo(n, L, c + 1) && Lo(n, L, c) == Hi(n, L, c - 1)
            && (c == 0 ==> Lo(n, L, c) == -L / 2.0)
            && (c == n - 1 ==> Hi(n, L, c) == L / 2.0)
            && Lo(n, L, n - 1) == L / 2.0 - w && Lo(n, L, 0) == -L / 2.0
            && (c >= 1 ==> Lo(n, L, c) >= -L / 2.0 + w)
            && (c <= n - 2 ==> Hi(n, L, c) <= L / 2.0 - w)
            && (n >= 2 ==> L >= 2.0 * w) && (n == 2 ==> L == 2.0 * w) && (n >= 3 ==> L >= 3.0 * w)
  {
    var w := LocalLength(n, L);
    var lo := -L / 2.0;
    DomainEdges(lo, L, n, c);
    DomainEdges(lo, L, n, c - 1);
    DomainEdges(lo, L, n, n - 1);
    DomainEdges(lo, L, n, n - 2);
    LocalLengths(n, L);
    if c >= 1 {
      DomainsOrdered(lo, L, n, 0, c);
    }
    if c <= n - 2 {
      DomainsOrdered(lo, L, n, c, n - 1);
    }
  }

  lemma FractionOrder(n: int, L: real, c: int, x: real, y: real)
    requires n >= 1 && L > 0.0
    ensures Fraction(n, L, c, x) < y / LocalLength(n, L) <==> x < Lo(n, L, c) + y
    ensures Fraction(n, L, c, x) >= 1.0 - y / LocalLength(n, L) <==> x >= Hi(n, L, c) - y
  {
    LocalLengths(n, L);
    QuotientOrder(x - Lo(n, L, c), y, LocalLength(n, L));
  }

  lemma FractionBounds(n: int, L: real, c: int, x: real)
    requires n >= 1 && L > 0.0
    ensures Fraction(n, L, c, x) >= 1.0 <==> x >= Hi(n, L, c)
    ensures Fraction(n, L, c, x) < 0.0 <==> x < Lo(n, L, c)
  {
    FractionOrder(n, L, c, x, 0.0);
  }

  lemma QuotientOrder(d: real, y: real, w: real)
    requires w > 0.0
    ensures d / w < y / w <==> d < y
    ensures d / w >= 1.0 - y / w <==> d >= w - y
  {
    var f, q := d / w, y / w;
    assert f * w == d && q * w == y;
    assert (1.0 - q) * w == w - y;
    ProductOrder(f, q, w);
    ProductOrder(f, 1.0 - q, w);
  }

  lemma ProductOrder(a: real, b: real, w: real)
    requires w > 0.0
    ensures a < b <==> a * w < b * w
  {
    if a < b {
      RealMulStrict(a, b, w);
    } else {
      RealMulMono(b, a, w);
    }
  }

  /** A coordinate inside a rank's own sub-domain is never moved by that rank's wrapping. */
  lemma InsideIsNotWrapped(n: int, L: real, rg: real, c: int, x: real)
    requires Decomposed(n, L, rg) && 0 <= c < n && Inside(n, L, c, x)
    ensures Shift(n, L, rg, c, x) == 0
  {
    Edges(n, L, c);
    ShiftedEdges(n, L, rg, c);
  }

  /** Wrapping is an integer shift by the box length, undone by the image flag. */
  lemma WrapKeepsUnwrapped(n: int, L: real, rg: real, c: int, x: real, image: int)
    requires n >= 1 && L > 0.0
    ensures var k := Shift(n, L, rg, c, x);
            Wrap(n, L, rg, c, x) + (image - k) as real * L == x + image as real * L
  {
    var k := Shift(n, L, rg, c, x);
    assert (image - k) as real * L == image as real * L - k as real * L;
  }

  lemma AtLeastTwice(k: real, L: real, s: real)
    requires L > 0.0 && s == k * L && k >= 2.0
    ensures s >= 2.0 * L
  {
    RealMulMono(2.0, k, L);
  }

  /** The possible values of a whole number of box lengths. */
  lemma Multiples(k: int, L: real, s: real)
    requires L > 0.0 && s == k as real * L
    ensures k >= 2 ==> s >= 2.0 * L
    ensures k <= -2 ==> s <= -2.0 * L
    ensures k == 1 ==> s == L
    ensures k == -1 ==> s == -L
    ensures k == 0 ==> s == 0.0
  {
    if k >= 2 {
      AtLeastTwice(k as real, L, s);
    } else if k <= -2 {
      assert (-k as real) * L == -s;
      AtLeastTwice(-k as real, L, -s);
    }
  }
}
