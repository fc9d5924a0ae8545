/** Cells of one axis of the cell list, and the cells that are neighbours of a cell. */
module CellGrid {
  import opened Arithmetic
  import opened Vectors
  import opened Box

  /** One axis: the local box, whether it is periodic, and the number of cells. On axes that are not
      periodic two of the cells lie outside the box, one on each side, and hold ghosts. */
  datatype CellAxis = CellAxis(lo: real, L: real, periodic: bool, layered: bool, dim: int) {
    function GhostCells(): int {
      if layered && !periodic then 2 else 0
    }

    predicate Valid() {
      L > 0.0 && dim > GhostCells()
    }

    function Width(): real
      requires Valid()
    {
      L / (dim - GhostCells()) as real
    }

    /** Width of the ghost layer: one cell. */
    function Margin(): real
      requires Valid()
    {
      Width() * (GhostCells() / 2) as real
    }

    function Fraction(x: real): real
      requires Valid()
    {
      PositiveSpan(this);
      (x - lo + Margin()) / (L + 2.0 * Margin())
    }

    /** Cell index of a coordinate; the upper edge of a periodic box belongs to the first cell. */
    function Bin(x: real): int
      requires Valid()
    {
      var b := Truncate(Fraction(x) * dim as real);
      if b == dim && periodic then 0 else b
    }

    /** The coordinate lies in the box, or in the ghost layer if there is one. */
    predicate InRange(x: real)
      requires Valid()
    {
      0.0 <= Fraction(x) && if periodic then Fraction(x) <= 1.0 else Fraction(x) < 1.0
    }
  }

  /** Conversion to an integer cuts off towards zero. */
  function Truncate(x: real): int {
    if x >= 0.0 then x.Floor else -((-x).Floor)
  }

  lemma PositiveSpan(a: CellAxis)
    requires a.Valid()
    ensures a.Width() > 0.0 && a.L + 2.0 * a.Margin() > 0.0
    ensures a.L + 2.0 * a.Margin() == a.Width() * a.dim as real
  {
    var n, w := (a.dim - a.GhostCells()) as real, a.Width();
    assert n * w == a.L;
    if w <= 0.0 {
      RealMulMono(w, 0.0, n);
    }
    assert w * (n + 2.0) == a.L + 2.0 * w;
    assert w * (n + 0.0) == a.L;
    assert a.GhostCells() == 2 ==> a.dim as real == n + 2.0;
  }

  /** The position in units of cells. */
  function Cells(a: CellAxis, x: real): real
    requires a.Valid()
  {
    PositiveSpan(a);
    (x - a.lo + a.Margin()) / a.Width()
  }

  lemma ScaledFraction(a: CellAxis, x: real)
    requires a.Valid()
    ensures a.Fraction(x) * a.dim as real == Cells(a, x)
    ensures a.InRange(x) ==> 0.0 <= Cells(a, x) <= a.dim as real && (!a.periodic ==> Cells(a, x) < a.dim as real)
  {
    PositiveSpan(a);
    var f, c, y := a.Fraction(x), Cells(a, x), x - a.lo + a.Margin();
    var span := a.L + 2.0 * a.Margin();
    assert f * span == y && c * a.Width() == y;
    CellsOfFraction(f, c, a.Width(), a.dim as real, span, y);
  }

  lemma CellsOfFraction(f: real, c: real, w: real, d: real, span: real, y: real)
    requires w > 0.0 && d > 0.0 && f * span == y && c * w == y && span == w * d
    ensures f * d == c
    ensures f >= 0.0 ==> c >= 0.0
    ensures f <= 1.0 ==> c <= d
    ensures f < 1.0 ==> c < d
  {
    assert (f * d) * w == f * (w * d);
    SameFactor(f * d, c, w);
    if f >= 0.0 {
      RealMulMono(0.0, f, d);
    }
    if f < 1.0 {
      RealMulStrict(f, 1.0, d);
    }
  }

  lemma SameFactor(x: real, y: real, c: real)
    requires c > 0.0 && x * c == y * c
    ensures x == y
  {
    if x < y {
      RealMulStrict(x, y, c);
    } else if y < x {
      RealMulStrict(y, x, c);
    }
  }

  lemma FractionEdges(f: real, span: real, y: real)
    requires span > 0.0 && f * span == y
    ensures (0.0 <= f <==> 0.0 <= y) && (f <= 1.0 <==> y <= span) && (f < 1.0 <==> y < span)
  {
    ProductOrder(f, 0.0, span);
    ProductOrder(f, 1.0, span);
    ProductOrder(1.0, f, span);
  }

  /** What being in range means in terms of lengths: in the box, edges included, on a periodic axis; in the box or the ghost
      layer, one cell wide, on any other. */
  lemma RangeMeans(a: CellAxis, x: real)
    requires a.Valid()
    ensures a.InRange(x) <==>
              if a.periodic then a.lo <= x <= a.lo + a.L
              else if a.layered then a.lo - a.L / (a.dim - 2) as real <= x < a.lo + a.L + a.L / (a.dim - 2) as real
              else a.lo <= x < a.lo + a.L
  {
    PositiveSpan(a);
    var span, y := a.L + 2.0 * a.Margin(), x - a.lo + a.Margin();
    QuotientTimes(y, span);
    FractionEdges(a.Fraction(x), span, y);
  }

  /** A coordinate in range gets a cell of the grid. */
  lemma BinBounds(a: CellAxis, x: real)
    requires a.Valid() && a.InRange(x)
    ensures 0 <= a.Bin(x) < a.dim
    ensures a.Bin(x) == Cells(a, x).Floor || (a.periodic && a.Bin(x) == 0 && Cells(a, x).Floor == a.dim)
  {
    ScaledFraction(a, x);
  }

  /** The cell that is `d` cells on from cell `i`, around the periodic grid. */
  function Beside(i: int, d: int, dim: int): int
    requires dim > 0
  {
    (i + d) % dim
  }

  predicate Within(d: int, r: int) {
    -r <= d <= r
  }

  /** Cell `j` is at most `r` cells away from cell `i`. */
  ghost predicate Near(i: int, j: int, r: int, dim: int)
    requires dim > 0
  {
    exists d: int :: Within(d, r) && Beside(i, d, dim) == j
  }

  lemma Around(b: int, q: int, dim: int)
    requires 0 <= b < dim
    ensures (b + q * dim) % dim == b
  {
    QuotientUnique(q, dim, b);
  }

  /** Being near is symmetric among the cells of the grid. */
  lemma NearSymmetric(i: int, j: int, r: int, dim: int)
    requires 0 <= i < dim && 0 <= j < dim && Near(i, j, r, dim)
    ensures Near(j, i, r, dim)
  {
    var d: int :| Within(d, r) && Beside(i, d, dim) == j;
    ThereAndBack(i, d, dim);
    assert Within(-d, r) && Beside(j, -d, dim) == i;
  }

  lemma ThereAndBack(i: int, d: int, dim: int)
    requires 0 <= i < dim
    ensures Beside(Beside(i, d, dim), -d, dim) == i
  {
    var q := (i + d) / dim;
    assert Beside(i, d, dim) + -d == i + -q * dim;
    Around(i, -q, dim);
  }

  /** A box length is `dim` cells on a periodic axis. */
  lemma BoxInCells(a: CellAxis, k: int)
    requires a.Valid() && (!a.periodic ==> k == 0)
    ensures (k * a.dim) as real * a.Width() == k as real * a.L
  {
    PositiveSpan(a);
    var w, n, kr := a.Width(), a.dim as real, k as real;
    assert (k * a.dim) as real == kr * n;
    if a.periodic {
      assert w * n == a.L;
      assert (kr * n) * w == kr * (w * n);
    }
  }

  lemma AtMost(s: real, r: real, w: real)
    requires w > 0.0 && s * w <= r * w
    ensures s <= r
  {
    if s > r {
      RealMulStrict(r, s, w);
    }
  }

  lemma DividedDistance(u: real, v: real, t: real, w: real, r: real, nominal: real, apart: real)
    requires 0.0 < nominal <= w && r >= 0.0 && apart == u * w + t * w - v * w && -(r * nominal) <= apart <= r * nominal
    ensures -r <= u + t - v <= r
  {
    var s := u + t - v;
    assert s * w == apart;
    RealMulMono(nominal, w, r);
    assert (-r) * w == -(r * w);
    AtMost(s, r, w);
    AtMost(-r, s, w);
  }

  /** Distances in cells: `k` box lengths are `k * dim` cells. */
  lemma CellsApart(a: CellAxis, x: real, y: real, k: int, r: int, nominal: real)
    requires a.Valid() && 0.0 < nominal <= a.Width() && (!a.periodic ==> k == 0) && r >= 0
    requires -(r as real * nominal) <= Image(a.L, x, k) - y <= r as real * nominal
    ensures -(r as real) <= Cells(a, x) + (k * a.dim) as real - Cells(a, y) <= r as real
  {
    PositiveSpan(a);
    BoxInCells(a, k);
    var w, u, v := a.Width(), Cells(a, x), Cells(a, y);
    assert u * w == x - a.lo + a.Margin() && v * w == y - a.lo + a.Margin();
    DividedDistance(u, v, (k * a.dim) as real, w, r as real, nominal, Image(a.L, x, k) - y);
  }

  lemma FloorsApart(u: real, v: real, m: int, r: int)
    requires -(r as real) <= u + m as real - v <= r as real
    ensures Within(v.Floor - u.Floor - m, r)
  {
  }

  /** Shifting by a difference modulo the grid leads from one cell to the other. */
  lemma ShiftLeads(i: int, j: int, fx: int, fy: int, k: int, r: int, dim: int)
    requires 0 <= i < dim && 0 <= j < dim && (fx == i || fx == i + dim) && (fy == j || fy == j + dim)
    requires Within(fy - fx - k * dim, r)
    ensures Near(i, j, r, dim)
  {
    var d := fy - fx - k * dim;
    var p, q := if fx == i then 0 else 1, if fy == j then 0 else 1;
    assert p * dim == fx - i && q * dim == fy - j;
    assert i + d == j + (q - p - k) * dim;
    Around(j, q - p - k, dim);
    assert Beside(i, d, dim) == j;
  }

  /** Coverage of one axis: two coordinates in range that are at most `r` nominal widths apart - on a periodic axis:
      some images of them - lie in cells that are at most `r` cells apart. */
  lemma AxisCovered(a: CellAxis, x: real, y: real, k: int, r: int, nominal: real)
    requires a.Valid() && 0.0 < nominal <= a.Width() && (!a.periodic ==> k == 0) && r >= 0
    requires a.InRange(x) && a.InRange(y)
    requires -(r as real * nominal) <= Image(a.L, x, k) - y <= r as real * nominal
    ensures Near(a.Bin(x), a.Bin(y), r, a.dim)
  {
    CellsApart(a, x, y, k, r, nominal);
    FloorsApart(Cells(a, x), Cells(a, y), k * a.dim, r);
    BinBounds(a, x);
    BinBounds(a, y);
    ShiftLeads(a.Bin(x), a.Bin(y), Cells(a, x).Floor, Cells(a, y).Floor, k, r, a.dim);
  }

  // ------------------------------------------------------------ dimensions

  function RoundDown(v: nat, m: nat): (r: nat)
    requires m > 0
    ensures r <= v && r % m == 0 && v < r + m
  {
    var d := v / m;
    assert d * m == v - v % m;
    MultipleOf(d, m);
    d * m
  }

  lemma MultipleOf(d: nat, m: nat)
    requires m > 0
    ensures (d * m) % m == 0
  {
    QuotientUnique(d, m, 0);
  }

  /** Number of cells of an axis before a limit on the number of cells is applied. */
  function AxisDimension(L: real, nominal: real, multiple: nat, periodic: bool): nat
    requires L > 0.0 && nominal > 0.0 && multiple > 0
  {
    PositiveQuotient(L, nominal);
    RoundDown((L / nominal).Floor, multiple) + if periodic then 0 else 2
  }

  /** With that many cells or fewer, each cell is at least as wide as the nominal width. */
  lemma WideEnough(a: CellAxis, nominal: real, multiple: nat)
    requires a.Valid() && a.layered && nominal > 0.0 && multiple > 0
    requires a.dim <= AxisDimension(a.L, nominal, multiple, a.periodic)
    ensures a.Width() >= nominal
  {
    PositiveQuotient(a.L, nominal);
    var q, m := a.L / nominal, a.dim - a.GhostCells();
    assert m <= q.Floor;
    assert m as real * a.Width() == a.L;
    WiderThan(m as real, q, a.Width(), nominal, a.L);
  }

  /** Fewer parts of the same length are wider. */
  lemma WiderThan(n: real, q: real, w: real, nominal: real, L: real)
    requires 0.0 < n <= q && nominal > 0.0 && n * w == L && q * nominal == L
    ensures w >= nominal
  {
    RealMulMono(n, q, nominal);
    if w < nominal {
      RealMulStrict(w, nominal, n);
    }
  }
}
