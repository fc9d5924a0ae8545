/** The cell list: a spatial index with, for every cell, the particles in it and the cells around it. */
module CellLists {
  import opened Vectors
  import opened Box
  import opened Overflow
  import opened CellGrid
  import D = Decomposition

  /** The three axes, the radius of adjacency in cells, and whether the system is two-dimensional. */
  datatype Layout = Layout(x: CellAxis, y: CellAxis, z: CellAxis, radius: nat, flat: bool) {
    ghost predicate Valid() {
      && x.Valid() && y.Valid() && z.Valid()
      && x.layered && y.layered && (z.layered <==> !flat) && (flat ==> z.dim == 1)
    }

    function Axis(a: Axis): CellAxis {
      if a == 0 then x else if a == 1 then y else z
    }

    /** Adjacency reaches over no cells in the third direction of a two-dimensional system. */
    function Reach(a: Axis): nat {
      if a == 2 && flat then 0 else radius
    }

    function Dims(): D.Grid
      requires x.Valid() && y.Valid() && z.Valid()
    {
      V3(x.dim, y.dim, z.dim)
    }

    /** The block of cells around a cell. */
    function Window(): D.Grid {
      V3(2 * Reach(0) + 1, 2 * Reach(1) + 1, 2 * Reach(2) + 1)
    }
  }

  // ------------------------------------------------------------ adjacency

  /** Remainder with the sign of the dividend. */
  function Remainder(n: int, m: int): int
    requires m > 0
  {
    if n >= 0 then n % m else -((-n) % m)
  }

  /** Wrap a cell index into the grid. */
  function WrapCell(n: int, m: int): (w: int)
    requires m > 0
    ensures w == n % m
  {
    NegativeRemainder(-n, m);
    var rest := Remainder(n, m);
    if rest < 0 then rest + m else rest
  }

  lemma NegativeRemainder(n: int, m: int)
    requires m > 0
    ensures (-n) % m == if n % m == 0 then 0 else m - n % m
  {
    var q, r := n / m, n % m;
    assert n == q * m + r;
    if r == 0 {
      assert -n == -q * m;
      Around(0, -q, m);
    } else {
      assert -n == (m - r) + (-q - 1) * m;
      Around(m - r, -q - 1, m);
    }
  }

  /** The cell at offset `o` in the window around cell `c`. */
  function Around3(l: Layout, c: D.Coord, o: D.Coord): (r: D.Coord)
    requires l.Valid()
    ensures D.InGrid(l.Dims(), r)
  {
    V3(Beside(c.x, o.x - l.Reach(0), l.x.dim), Beside(c.y, o.y - l.Reach(1), l.y.dim), Beside(c.z, o.z - l.Reach(2), l.z.dim))
  }

  function AdjacentCell(l: Layout, c: D.Coord, o: D.Coord): int
    requires l.Valid()
  {
    D.Index(l.Dims(), Around3(l, c, o))
  }

  /** The cells around cell `c` in the order of the triple loop. */
  function RawAdjacency(l: Layout, c: D.Coord): (raw: seq<int>)
    requires l.Valid()
    ensures |raw| == D.NumRanks(l.Window())
    ensures forall k :: 0 <= k < |raw| ==> raw[k] == AdjacentCell(l, c, D.Triple(l.Window(), k))
  {
    seq(D.NumRanks(l.Window()), k requires 0 <= k < D.NumRanks(l.Window()) => AdjacentCell(l, c, D.Triple(l.Window(), k)))
  }

  ghost predicate NearOn(l: Layout, c: D.Coord, b: D.Coord, a: Axis)
    requires l.Valid()
  {
    Near(c.At(a), b.At(a), l.Reach(a), l.Axis(a).dim)
  }

  /** Cell `b` lies in the block around cell `c`. */
  ghost predicate NearCells(l: Layout, c: D.Coord, b: D.Coord)
    requires l.Valid()
  {
    NearOn(l, c, b, 0) && NearOn(l, c, b, 1) && NearOn(l, c, b, 2)
  }

  lemma NearSymmetric3(l: Layout, c: D.Coord, b: D.Coord)
    requires l.Valid() && D.InGrid(l.Dims(), c) && D.InGrid(l.Dims(), b) && NearCells(l, c, b)
    ensures NearCells(l, b, c)
  {
    NearSymmetric(c.x, b.x, l.Reach(0), l.x.dim);
    NearSymmetric(c.y, b.y, l.Reach(1), l.y.dim);
    NearSymmetric(c.z, b.z, l.Reach(2), l.z.dim);
  }

  lemma NearIsAdjacent(l: Layout, c: D.Coord, b: D.Coord)
    requires l.Valid() && D.InGrid(l.Dims(), c) && D.InGrid(l.Dims(), b) && NearCells(l, c, b)
    ensures D.Index(l.Dims(), b) in RawAdjacency(l, c)
  {
    var raw, w := RawAdjacency(l, c), l.Window();
    var dx: int :| CellGrid.Within(dx, l.Reach(0)) && Beside(c.x, dx, l.x.dim) == b.x;
    var dy: int :| CellGrid.Within(dy, l.Reach(1)) && Beside(c.y, dy, l.y.dim) == b.y;
    var dz: int :| CellGrid.Within(dz, l.Reach(2)) && Beside(c.z, dz, l.z.dim) == b.z;
    var o := V3(dx + l.Reach(0), dy + l.Reach(1), dz + l.Reach(2));
    D.RankOfCoord(w, o);
    assert raw[D.Index(w, o)] == AdjacentCell(l, c, o);
    assert Around3(l, c, o) == b;
  }

  lemma AdjacentIsNear(l: Layout, c: D.Coord, b: D.Coord)
    requires l.Valid() && D.InGrid(l.Dims(), c) && D.InGrid(l.Dims(), b) && D.Index(l.Dims(), b) in RawAdjacency(l, c)
    ensures NearCells(l, c, b)
  {
    var raw, w := RawAdjacency(l, c), l.Window();
    var k :| 0 <= k < |raw| && raw[k] == D.Index(l.Dims(), b);
    D.CoordOfRank(w, k);
    var o := D.Triple(w, k);
    D.RankOfCoord(l.Dims(), b);
    D.RankOfCoord(l.Dims(), Around3(l, c, o));
    assert Around3(l, c, o) == b;
    assert CellGrid.Within(o.x - l.Reach(0), l.Reach(0)) && CellGrid.Within(o.y - l.Reach(1), l.Reach(1));
    assert CellGrid.Within(o.z - l.Reach(2), l.Reach(2));
  }

  /** The adjacency of a cell holds exactly the cells of the block around it. */
  lemma AdjacencyMembers(l: Layout, c: D.Coord, b: D.Coord)
    requires l.Valid() && D.InGrid(l.Dims(), c) && D.InGrid(l.Dims(), b)
    ensures D.Index(l.Dims(), b) in RawAdjacency(l, c) <==> NearCells(l, c, b)
  {
    if NearCells(l, c, b) {
      NearIsAdjacent(l, c, b);
    } else if D.Index(l.Dims(), b) in RawAdjacency(l, c) {
      AdjacentIsNear(l, c, b);
    }
  }

  predicate NoDuplicates(s: seq<int>) {
    forall k, m :: 0 <= k < m < |s| ==> s[k] != s[m]
  }

  /** The window fits into the grid without overlapping itself. */
  predicate Roomy(l: Layout)
    requires l.x.Valid() && l.y.Valid() && l.z.Valid()
  {
    l.x.dim >= l.Window().x && l.y.dim >= l.Window().y && l.z.dim >= l.Window().z
  }

  lemma SameShift(i: int, d: int, e: int, dim: int)
    requires dim > 0 && Beside(i, d, dim) == Beside(i, e, dim) && -dim < d - e < dim
    ensures d == e
  {
    var p, q := (i + d) / dim, (i + e) / dim;
    assert d - e == (p - q) * dim;
    if p > q {
      MulAtLeast(p - q, dim);
    } else if p < q {
      MulAtLeast(q - p, dim);
    }
  }

  lemma MulAtLeast(n: int, m: int)
    requires n >= 1 && m > 0
    ensures n * m >= m
  {
    assert (n - 1) * m >= 0;
  }

  /** The adjacency has no duplicates if and only if every dimension is at least as large as the block. */
  lemma DuplicateFree(l: Layout, c: D.Coord)
    requires l.Valid() && D.InGrid(l.Dims(), c)
    ensures NoDuplicates(RawAdjacency(l, c)) <==> Roomy(l)
  {
    var raw, w := RawAdjacency(l, c), l.Window();
    if Roomy(l) {
      forall k, m | 0 <= k < m < |raw|
        ensures raw[k] != raw[m]
      {
        DifferentOffsets(l, c, k, m);
      }
    } else if l.x.dim < w.x {
      SameCellTwice(l, c, V3(l.x.dim, 0, 0));
    } else if l.y.dim < w.y {
      SameCellTwice(l, c, V3(0, l.y.dim, 0));
    } else {
      SameCellTwice(l, c, V3(0, 0, l.z.dim));
    }
  }

  lemma DifferentOffsets(l: Layout, c: D.Coord, k: nat, m: nat)
    requires l.Valid() && Roomy(l) && k < m < |RawAdjacency(l, c)|
    ensures RawAdjacency(l, c)[k] != RawAdjacency(l, c)[m]
  {
    var w := l.Window();
    D.CoordOfRank(w, k);
    D.CoordOfRank(w, m);
    var o, u := D.Triple(w, k), D.Triple(w, m);
    D.RankOfCoord(l.Dims(), Around3(l, c, o));
    D.RankOfCoord(l.Dims(), Around3(l, c, u));
    if Around3(l, c, o) == Around3(l, c, u) {
      SameShift(c.x, o.x - l.Reach(0), u.x - l.Reach(0), l.x.dim);
      SameShift(c.y, o.y - l.Reach(1), u.y - l.Reach(1), l.y.dim);
      SameShift(c.z, o.z - l.Reach(2), u.z - l.Reach(2), l.z.dim);
    }
  }

  lemma FullTurn(i: int, d: int, dim: int)
    requires dim > 0
    ensures Beside(i, d + dim, dim) == Beside(i, d, dim)
  {
    var q, b := (i + d) / dim, (i + d) % dim;
    assert i + d + dim == b + (q + 1) * dim;
    Around(b, q + 1, dim);
  }

  /** Going once around the grid leads back to the same cell. */
  lemma SameCellTwice(l: Layout, c: D.Coord, o: D.Coord)
    requires l.Valid() && D.InGrid(l.Window(), o)
    requires o in {V3(l.x.dim, 0, 0), V3(0, l.y.dim, 0), V3(0, 0, l.z.dim)}
    ensures !NoDuplicates(RawAdjacency(l, c))
  {
    var w, zero := l.Window(), V3(0, 0, 0);
    FullTurn(c.x, 0 - l.Reach(0), l.x.dim);
    FullTurn(c.y, 0 - l.Reach(1), l.y.dim);
    FullTurn(c.z, 0 - l.Reach(2), l.z.dim);
    assert Around3(l, c, o) == Around3(l, c, zero);
    D.RankOfCoord(w, o);
    D.RankOfCoord(w, zero);
    assert D.Index(w, o) != D.Index(w, zero);
    assert RawAdjacency(l, c)[D.Index(w, o)] == RawAdjacency(l, c)[D.Index(w, zero)];
  }

  // ------------------------------------------------------------ sorted adjacency

  predicate Ascending(s: seq<int>) {
    forall k, m :: 0 <= k < m < |s| ==> s[k] <= s[m]
  }

  function Inserted(s: seq<int>, x: int): (r: seq<int>)
    requires Ascending(s)
    ensures Ascending(r) && multiset(r) == multiset(s) + multiset{x}
  {
    if s == [] then [x]
    else if s[|s| - 1] <= x then s + [x]
    else
      var rest, last := s[..|s| - 1], s[|s| - 1];
      assert s == rest + [last];
      var r := Inserted(rest, x);
      Bounded(r, rest, x, last);
      r + [last]
  }

  lemma Bounded(r: seq<int>, rest: seq<int>, x: int, bound: int)
    requires multiset(r) == multiset(rest) + multiset{x} && x <= bound && forall k :: 0 <= k < |rest| ==> rest[k] <= bound
    ensures forall k :: 0 <= k < |r| ==> r[k] <= bound
  {
    forall k | 0 <= k < |r|
      ensures r[k] <= bound
    {
      assert r[k] in multiset(r);
    }
  }

  /** The elements in ascending order. */
  function Sorted(s: seq<int>): (r: seq<int>)
    ensures Ascending(r) && multiset(r) == multiset(s)
  {
    if s == [] then []
    else
      assert s == s[..|s| - 1] + [s[|s| - 1]];
      Inserted(Sorted(s[..|s| - 1]), s[|s| - 1])
  }

  function Adjacency(l: Layout, c: D.Coord): seq<int>
    requires l.Valid()
  {
    Sorted(RawAdjacency(l, c))
  }

  lemma {:induction false} Multiplicity(s: seq<int>)
    ensures NoDuplicates(s) <==> forall x: int :: multiset(s)[x] <= 1
    decreases |s|
  {
    if s != [] {
      var rest, last := s[..|s| - 1], s[|s| - 1];
      Multiplicity(rest);
      assert s == rest + [last];
      assert NoDuplicates(s) ==> NoDuplicates(rest) && last !in multiset(rest);
      assert last in multiset(rest) ==> multiset(s)[last] >= 2;
      assert forall x: int :: multiset(rest)[x] <= multiset(s)[x];
      if NoDuplicates(rest) && last !in multiset(rest) {
        forall k, m | 0 <= k < m < |s|
          ensures s[k] != s[m]
        {
          assert m == |s| - 1 ==> rest[k] in multiset(rest);
        }
      }
    }
  }

  /** The list of adjacent cells is sorted, holds exactly the cells of the block around the cell, and is strictly
      increasing - free of duplicates - if and only if every dimension is at least as large as the block. */
  lemma AdjacencyMeans(l: Layout, c: D.Coord, b: D.Coord)
    requires l.Valid() && D.InGrid(l.Dims(), c) && D.InGrid(l.Dims(), b)
    ensures Ascending(Adjacency(l, c))
    ensures D.Index(l.Dims(), b) in Adjacency(l, c) <==> NearCells(l, c, b)
    ensures D.Index(l.Dims(), b) in Adjacency(l, c) <==> D.Index(l.Dims(), c) in Adjacency(l, b)
    ensures NoDuplicates(Adjacency(l, c)) <==> Roomy(l)
  {
    AdjacencyMembers(l, c, b);
    AdjacencyMembers(l, b, c);
    var i, j := D.Index(l.Dims(), b), D.Index(l.Dims(), c);
    assert i in Adjacency(l, c) <==> i in multiset(Adjacency(l, c));
    assert j in Adjacency(l, b) <==> j in multiset(Adjacency(l, b));
    assert i in RawAdjacency(l, c) <==> i in multiset(RawAdjacency(l, c));
    assert j in RawAdjacency(l, b) <==> j in multiset(RawAdjacency(l, b));
    if NearCells(l, c, b) {
      NearSymmetric3(l, c, b);
    }
    if NearCells(l, b, c) {
      NearSymmetric3(l, b, c);
    }
    DuplicateFree(l, c);
    Multiplicity(RawAdjacency(l, c));
    Multiplicity(Adjacency(l, c));
  }

  // ------------------------------------------------------------ coverage

  /** The cell of a position. */
  function CellOf(l: Layout, p: V3<real>): D.Coord
    requires l.x.Valid() && l.y.Valid() && l.z.Valid()
  {
    V3(l.x.Bin(p.x), l.y.Bin(p.y), l.z.Bin(p.z))
  }

  ghost predicate InRange(l: Layout, p: V3<real>)
    requires l.x.Valid() && l.y.Valid() && l.z.Valid()
  {
    l.x.InRange(p.x) && l.y.InRange(p.y) && l.z.InRange(p.z)
  }

  /** On this axis the two coordinates - or images of them, if the axis is periodic - are at most `r` nominal widths apart. */
  ghost predicate WithinReach(a: CellAxis, r: int, nominal: real, x: real, y: real) {
    exists k: int :: (a.periodic || k == 0) && -(r as real * nominal) <= Image(a.L, x, k) - y <= r as real * nominal
  }

  lemma InRangeInGrid(l: Layout, p: V3<real>)
    requires l.Valid() && InRange(l, p)
    ensures D.InGrid(l.Dims(), CellOf(l, p))
  {
    BinBounds(l.x, p.x);
    BinBounds(l.y, p.y);
    BinBounds(l.z, p.z);
  }

  lemma CoveredOn(a: CellAxis, x: real, y: real, r: int, nominal: real)
    requires a.Valid() && 0.0 < nominal <= a.Width() && r >= 0 && a.InRange(x) && a.InRange(y) && WithinReach(a, r, nominal, x, y)
    ensures Near(a.Bin(x), a.Bin(y), r, a.dim)
  {
    var k: int :| (a.periodic || k == 0) && -(r as real * nominal) <= Image(a.L, x, k) - y <= r as real * nominal;
    AxisCovered(a, x, y, k, r, nominal);
  }

  /** The cell index covers what brute force finds: two binned positions that are within `radius` nominal widths
      of each other on every axis lie in cells that are listed in each other's adjacency. */
  lemma CellsCoverBruteForce(l: Layout, nominal: real, p: V3<real>, q: V3<real>)
    requires l.Valid() && InRange(l, p) && InRange(l, q) && nominal > 0.0
    requires l.x.Width() >= nominal && l.y.Width() >= nominal && (!l.flat ==> l.z.Width() >= nominal)
    requires WithinReach(l.x, l.radius, nominal, p.x, q.x) && WithinReach(l.y, l.radius, nominal, p.y, q.y)
    requires !l.flat ==> WithinReach(l.z, l.radius, nominal, p.z, q.z)
    ensures D.Index(l.Dims(), CellOf(l, q)) in Adjacency(l, CellOf(l, p))
    ensures D.Index(l.Dims(), CellOf(l, p)) in Adjacency(l, CellOf(l, q))
  {
    InRangeInGrid(l, p);
    InRangeInGrid(l, q);
    CoveredOn(l.x, p.x, q.x, l.radius, nominal);
    CoveredOn(l.y, p.y, q.y, l.radius, nominal);
    if l.flat {
      assert CellGrid.Within(0, 0) && Beside(0, 0, 1) == 0;
    } else {
      CoveredOn(l.z, p.z, q.z, l.radius, nominal);
    }
    AdjacencyMeans(l, CellOf(l, p), CellOf(l, q));
  }

  // ------------------------------------------------------------ sorting particles into cells

  /** The position lies beyond the ghost layer of an axis that is not periodic. */
  predicate Outside(l: Layout, p: V3<real>)
    requires l.x.Valid() && l.y.Valid() && l.z.Valid()
  {
    || (!l.x.periodic && (l.x.Fraction(p.x) < 0.0 || l.x.Fraction(p.x) >= 1.0))
    || (!l.y.periodic && (l.y.Fraction(p.y) < 0.0 || l.y.Fraction(p.y) >= 1.0))
    || (!l.z.periodic && (l.z.Fraction(p.z) < 0.0 || l.z.Fraction(p.z) >= 1.0))
  }

  function NumCells(l: Layout): (n: nat)
    requires l.Valid()
  {
    D.RankOfCoord(l.Dims(), V3(0, 0, 0));
    D.NumRanks(l.Dims())
  }

  function BinNumber(l: Layout, p: V3<real>): int
    requires l.x.Valid() && l.y.Valid() && l.z.Valid()
  {
    D.Index(l.Dims(), CellOf(l, p))
  }

  /** The position is given a place in a cell. */
  predicate Binned(l: Layout, p: V3<real>)
    requires l.Valid()
  {
    !Outside(l, p) && 0 <= BinNumber(l, p) < NumCells(l)
  }

  /** Nothing is binned that lies beyond the box and its ghost layer on an axis that is not periodic. */
  lemma OutOfRangeIsNotBinned(l: Layout, p: V3<real>, a: Axis)
    requires l.Valid() && !l.Axis(a).periodic && !l.Axis(a).InRange(p.At(a))
    ensures !Binned(l, p)
  {
    assert l.Axis(0) == l.x && l.Axis(1) == l.y && l.Axis(2) == l.z;
  }

  /** A position in range is binned in its geometric cell. */
  lemma InRangeIsBinned(l: Layout, p: V3<real>)
    requires l.Valid() && InRange(l, p)
    ensures Binned(l, p) && D.Triple(l.Dims(), BinNumber(l, p)) == CellOf(l, p)
  {
    InRangeInGrid(l, p);
    D.RankOfCoord(l.Dims(), CellOf(l, p));
  }

  /** The particles in each cell, looking at the first `u` particles. */
  function Rows(l: Layout, pos: seq<V3<real>>, u: nat): (rows: seq<seq<nat>>)
    requires l.Valid() && u <= |pos|
    ensures |rows| == NumCells(l)
  {
    if u == 0 then seq(NumCells(l), _ => [])
    else
      Appended(Rows(l, pos, u - 1), Binned(l, pos[u - 1]), BinNumber(l, pos[u - 1]), u - 1)
  }

  /** A particle is listed in a cell exactly if it is binned there, and the lists are strictly increasing. */
  lemma {:induction false} RowsMean(l: Layout, pos: seq<V3<real>>, u: nat, c: nat)
    requires l.Valid() && u <= |pos| && c < NumCells(l)
    ensures forall m: nat :: m in Rows(l, pos, u)[c] <==> m < u && Binned(l, pos[m]) && BinNumber(l, pos[m]) == c
    ensures forall k, j :: 0 <= k < j < |Rows(l, pos, u)[c]| ==> Rows(l, pos, u)[c][k] < Rows(l, pos, u)[c][j]
  {
    if u > 0 {
      RowsMean(l, pos, u - 1, c);
      var before := Rows(l, pos, u - 1)[c];
      assert forall k :: 0 <= k < |before| ==> before[k] in before;
    }
  }

  /** Each binned particle occupies exactly one slot of exactly one cell. */
  lemma OneSlotEach(l: Layout, pos: seq<V3<real>>, m: nat) returns (c: nat, k: nat)
    requires l.Valid() && m < |pos| && Binned(l, pos[m])
    ensures c == BinNumber(l, pos[m]) && c < NumCells(l) && k < |Rows(l, pos, |pos|)[c]| && Rows(l, pos, |pos|)[c][k] == m
    ensures forall c', k' :: 0 <= c' < NumCells(l) && 0 <= k' < |Rows(l, pos, |pos|)[c']| && Rows(l, pos, |pos|)[c'][k'] == m ==>
              c' == c && k' == k
  {
    var rows := Rows(l, pos, |pos|);
    c := BinNumber(l, pos[m]);
    RowsMean(l, pos, |pos|, c);
    k :| 0 <= k < |rows[c]| && rows[c][k] == m;
    forall c', k' | 0 <= c' < NumCells(l) && 0 <= k' < |rows[c']| && rows[c'][k'] == m
      ensures c' == c && k' == k
    {
      RowsMean(l, pos, |pos|, c');
      assert rows[c'][k'] in rows[c'];
    }
  }

  function SumOfSizes<T>(rows: seq<seq<T>>): nat {
    if rows == [] then 0 else SumOfSizes(rows[..|rows| - 1]) + |rows[|rows| - 1]|
  }

  lemma {:induction false} SumGrows<T>(rows: seq<seq<T>>, b: nat, x: T)
    requires b < |rows|
    ensures SumOfSizes(rows[b := rows[b] + [x]]) == SumOfSizes(rows) + 1
    decreases |rows|
  {
    var grown := rows[b := rows[b] + [x]];
    if b < |rows| - 1 {
      SumGrows(rows[..|rows| - 1], b, x);
      assert grown[..|rows| - 1] == rows[..|rows| - 1][b := rows[b] + [x]];
    } else {
      assert grown[..|rows| - 1] == rows[..|rows| - 1];
    }
  }

  lemma {:induction false} SumOfNothing(n: nat)
    ensures SumOfSizes(seq<seq<nat>>(n, _ => [])) == 0
  {
    if n > 0 {
      SumOfNothing(n - 1);
      assert seq<seq<nat>>(n, _ => [])[..n - 1] == seq<seq<nat>>(n - 1, _ => []);
    }
  }

  function CountBinned(l: Layout, pos: seq<V3<real>>, u: nat): nat
    requires l.Valid() && u <= |pos|
  {
    if u == 0 then 0 else CountBinned(l, pos, u - 1) + if Binned(l, pos[u - 1]) then 1 else 0
  }

  /** One more entry, or none. */
  function Appended(rows: seq<seq<nat>>, placed: bool, b: int, m: nat): (r: seq<seq<nat>>)
    requires placed ==> 0 <= b < |rows|
    ensures |r| == |rows|
  {
    if placed then rows[b := rows[b] + [m]] else rows
  }

  lemma AppendedSum(rows: seq<seq<nat>>, placed: bool, b: int, m: nat)
    requires placed ==> 0 <= b < |rows|
    ensures SumOfSizes(Appended(rows, placed, b, m)) == SumOfSizes(rows) + if placed then 1 else 0
  {
    if placed {
      SumGrows(rows, b, m);
    }
  }

  /** The sizes of all cells add up to the number of binned particles. */
  lemma {:induction false} SizesAddUp(l: Layout, pos: seq<V3<real>>, u: nat)
    requires l.Valid() && u <= |pos|
    ensures SumOfSizes(Rows(l, pos, u)) == CountBinned(l, pos, u)
  {
    if u == 0 {
      SumOfNothing(NumCells(l));
    } else {
      SizesAddUp(l, pos, u - 1);
      AppendedSum(Rows(l, pos, u - 1), Binned(l, pos[u - 1]), BinNumber(l, pos[u - 1]), u - 1);
    }
  }

  // ------------------------------------------------------------ the cell list

  datatype Outcome = Done | ParticleLost(index: nat)

  class CellList {
    var layout: Layout
    // cells adjacent to each cell
    var cellAdj: seq<seq<int>>
    // list memory: nMax particle indices per cell, and the number of particles in each cell
    var nMax: nat
    var idx: seq<seq<nat>>
    var cellSize: seq<nat>
    // conditions of the last computation: largest overflowed size, and one more than the last lost particle
    var overflow: nat
    var lost: nat

    constructor (l: Layout)
      requires l.Valid()
      ensures layout == l && AdjacencyReady()
    {
      layout, nMax, overflow, lost := l, 1, 0, 0;
      idx, cellSize, cellAdj := [], [], [];
      new;
      InitializeCellAdj();
    }

    ghost predicate AdjacencyReady()
      reads this
    {
      && layout.Valid() && |cellAdj| == NumCells(layout)
      && forall c: D.Coord {:trigger Adjacency(layout, c)} :: D.InGrid(layout.Dims(), c) ==>
           0 <= D.Index(layout.Dims(), c) < |cellAdj| && cellAdj[D.Index(layout.Dims(), c)] == Adjacency(layout, c)
    }

    /** The lists stand for the particles of every cell, as far as the memory reaches. */
    ghost predicate Holds(full: seq<seq<nat>>)
      reads this
    {
      Stored(idx, cellSize, nMax, full) && Exact(full, nMax, overflow)
    }

    /** Put a particle into a cell. */
    method Insert(b: nat, m: nat, ghost full: seq<seq<nat>>)
      requires Holds(full) && b < |full|
      modifies this`idx, this`cellSize, this`overflow
      ensures Holds(full[b := full[b] + [m]])
    {
      var offset := cellSize[b];
      GrownExact(full, nMax, overflow, b, m);
      if offset < nMax {
        idx := idx[b := idx[b] + [m]];
      } else {
        overflow := Max(overflow, offset + 1);
      }
      cellSize := cellSize[b := cellSize[b] + 1];
    }

    /** Of the first `m` particles, a local one without a place is recorded if there is any. */
    ghost predicate Reports(pos: seq<V3<real>>, n: nat, m: nat)
      requires layout.Valid() && n <= |pos| && m <= |pos|
      reads this`layout, this`lost
    {
      && (lost == 0 <==> forall j :: 0 <= j < m && j < n ==> Binned(layout, pos[j]))
      && (lost > 0 ==> lost <= n && !Binned(layout, pos[lost - 1]))
    }

    /** Find the cell of one particle. */
    method Place(pos: seq<V3<real>>, n: nat, m: nat)
      requires layout.Valid() && n <= |pos| && m < |pos| && Holds(Rows(layout, pos, m)) && Reports(pos, n, m)
      requires n <= m && !Outside(layout, pos[m]) ==> Binned(layout, pos[m])
      modifies this`idx, this`cellSize, this`overflow, this`lost
      ensures Holds(Rows(layout, pos, m + 1)) && Reports(pos, n, m + 1)
    {
      var bin := BinNumber(layout, pos[m]);
      if Outside(layout, pos[m]) {
        if m < n {
          lost := m + 1;
        }
      } else if m < n && !(0 <= bin < NumCells(layout)) {
        lost := m + 1;
      } else {
        Insert(bin, m, Rows(layout, pos, m));
      }
    }

    /** Sort all particles into cells. Ghosts beyond the ghost layer are ignored; a local particle that has
        no place is recorded. */
    method ComputeCellList(pos: seq<V3<real>>, n: nat)
      requires layout.Valid() && n <= |pos|
      requires forall m :: n <= m < |pos| && !Outside(layout, pos[m]) ==> Binned(layout, pos[m])
      modifies this`idx, this`cellSize, this`overflow, this`lost
      ensures Holds(Rows(layout, pos, |pos|))
      ensures lost == 0 <==> forall m :: 0 <= m < n ==> Binned(layout, pos[m])
      ensures lost > 0 ==> lost <= n && !Binned(layout, pos[lost - 1])
    {
      cellSize, idx, overflow, lost := seq(NumCells(layout), _ => 0), seq(NumCells(layout), _ => []), 0, 0;
      for m := 0 to |pos|
        invariant Holds(Rows(layout, pos, m))
        invariant Reports(pos, n, m)
      {
        Place(pos, n, m);
      }
    }

    /** If the lists have overflowed, note how much memory is needed. */
    method CheckConditions(ghost full: seq<seq<nat>>) returns (overflowed: bool, r: Outcome)
      requires Holds(full)
      modifies this`nMax
      ensures overflowed <==> exists c :: 0 <= c < |full| && |full[c]| > old(nMax)
      ensures overflowed ==> forall c :: 0 <= c < |full| ==> |full[c]| <= nMax
      ensures !overflowed ==> nMax == old(nMax)
      ensures r == if lost > 0 then ParticleLost(lost - 1) else Done
    {
      ExactDecides(full, nMax, overflow);
      overflowed := false;
      if overflow > nMax {
        nMax := overflow;
        overflowed := true;
      }
      r := if lost > 0 then ParticleLost(lost - 1) else Done;
    }

    /** Compute the lists until the memory suffices: twice at most. If no local particle is lost, the lists then
        hold all binned particles. */
    method Update(pos: seq<V3<real>>, n: nat) returns (r: Outcome, computations: nat)
      requires layout.Valid() && n <= |pos|
      requires forall m :: n <= m < |pos| && !Outside(layout, pos[m]) ==> Binned(layout, pos[m])
      modifies this`nMax, this`idx, this`cellSize, this`overflow, this`lost
      ensures computations <= 2
      ensures r.Done? <==> forall m :: 0 <= m < n ==> Binned(layout, pos[m])
      ensures r.ParticleLost? ==> r.index < n && !Binned(layout, pos[r.index])
      ensures r.Done? ==> idx == Rows(layout, pos, |pos|) && |cellSize| == |idx| && forall c :: 0 <= c < |idx| ==> cellSize[c] == |idx[c]|
    {
      ghost var full := Rows(layout, pos, |pos|);
      computations := 0;
      var overflowed := true;
      r := Done;
      while overflowed
        invariant computations <= 2 && (computations == 0 ==> overflowed) && (computations == 2 ==> !overflowed)
        invariant computations == 1 && overflowed ==> forall c :: 0 <= c < |full| ==> |full[c]| <= nMax
        invariant !overflowed ==> Holds(full) && forall c :: 0 <= c < |full| ==> |full[c]| <= nMax
        invariant computations > 0 ==> forall m :: 0 <= m < n ==> Binned(layout, pos[m])
        invariant r.Done?
        decreases 2 - computations
      {
        ComputeCellList(pos, n);
        overflowed, r := CheckConditions(full);
        computations := computations + 1;
        if r.ParticleLost? {
          return;
        }
        if overflowed {
          idx, cellSize, overflow, lost := [], [], 0, 0;
        }
      }
      assert forall c :: 0 <= c < |full| ==> idx[c] == full[c];
    }

    /** One more cell of the block around cell `c`. */
    method CollectCell(c: D.Coord, o: V3<int>, soFar: seq<int>) returns (raw: seq<int>)
      requires layout.Valid() && D.InGrid(layout.Window(), o)
      requires |soFar| == D.Index(layout.Window(), o)
      requires |soFar| <= |RawAdjacency(layout, c)| && soFar == RawAdjacency(layout, c)[..|soFar|]
      ensures |raw| == |soFar| + 1 <= |RawAdjacency(layout, c)| && raw == RawAdjacency(layout, c)[..|raw|]
    {
      var l := layout;
      D.RankOfCoord(l.Window(), o);
      var x := WrapCell(c.x + o.x - l.Reach(0), l.x.dim);
      var y := WrapCell(c.y + o.y - l.Reach(1), l.y.dim);
      var z := WrapCell(c.z + o.z - l.Reach(2), l.z.dim);
      raw := soFar + [D.Index(l.Dims(), V3(x, y, z))];
    }

    /** Collect the cells around one cell. */
    method CollectAdjacency(c: D.Coord) returns (raw: seq<int>)
      requires layout.Valid()
      ensures raw == RawAdjacency(layout, c)
    {
      var l, w := layout, layout.Window();
      raw := [];
      ghost var whole := RawAdjacency(l, c);
      for k := 0 to w.z
        invariant |raw| == D.Index(w, V3(0, 0, k)) <= |whole| && raw == whole[..|raw|]
      {
        for j := 0 to w.y
          invariant |raw| == D.Index(w, V3(0, j, k)) <= |whole| && raw == whole[..|raw|]
        {
          for i := 0 to w.x
            invariant |raw| == D.Index(w, V3(i, j, k)) <= |whole| && raw == whole[..|raw|]
          {
            raw := CollectCell(c, V3(i, j, k), raw);
          }
          EndOfRow(w, j, k);
        }
        EndOfPlane(w, k);
      }
      EndOfGrid(w);
    }

    method InitializeCell(c: D.Coord)
      requires layout.Valid() && D.InGrid(layout.Dims(), c)
      requires |cellAdj| == D.Index(layout.Dims(), c) && AdjacencyUpTo(|cellAdj|)
      modifies this`cellAdj
      ensures |cellAdj| == old(|cellAdj|) + 1 && AdjacencyUpTo(|cellAdj|)
    {
      D.RankOfCoord(layout.Dims(), c);
      var raw := CollectAdjacency(c);
      cellAdj := cellAdj + [Sorted(raw)];
    }

    /** Set up the sorted adjacency of one row of cells. */
    method InitializeRow(j: int, k: int)
      requires layout.Valid() && 0 <= j < layout.y.dim && 0 <= k < layout.z.dim
      requires |cellAdj| == D.Index(layout.Dims(), V3(0, j, k)) && AdjacencyUpTo(|cellAdj|)
      modifies this`cellAdj
      ensures |cellAdj| == D.Index(layout.Dims(), V3(0, j + 1, k)) && AdjacencyUpTo(|cellAdj|)
    {
      var g := layout.Dims();
      for i := 0 to g.x
        invariant |cellAdj| == D.Index(g, V3(i, j, k)) && AdjacencyUpTo(|cellAdj|)
      {
        InitializeCell(V3(i, j, k));
      }
      EndOfRow(g, j, k);
    }

    /** Set up the sorted adjacency of all cells. */
    method InitializeCellAdj()
      requires layout.Valid()
      modifies this`cellAdj
      ensures AdjacencyReady()
    {
      var g := layout.Dims();
      cellAdj := [];
      for k := 0 to g.z
        invariant |cellAdj| == D.Index(g, V3(0, 0, k)) && AdjacencyUpTo(|cellAdj|)
      {
        for j := 0 to g.y
          invariant |cellAdj| == D.Index(g, V3(0, j, k)) && AdjacencyUpTo(|cellAdj|)
        {
          InitializeRow(j, k);
        }
        EndOfPlane(g, k);
      }
      EndOfGrid(g);
      EveryCellReady();
    }

    lemma EveryCellReady()
      requires layout.Valid() && |cellAdj| == NumCells(layout) && AdjacencyUpTo(|cellAdj|)
      ensures AdjacencyReady()
    {
      forall c: D.Coord | D.InGrid(layout.Dims(), c)
        ensures 0 <= D.Index(layout.Dims(), c) < |cellAdj| && cellAdj[D.Index(layout.Dims(), c)] == Adjacency(layout, c)
      {
        D.RankOfCoord(layout.Dims(), c);
      }
    }

    ghost predicate AdjacencyUpTo(n: nat)
      requires layout.Valid()
      reads this
    {
      n <= |cellAdj| && forall b: nat :: b < n ==> cellAdj[b] == Adjacency(layout, D.Triple(layout.Dims(), b))
    }
  }

  lemma EndOfRow(g: D.Grid, j: int, k: int)
    ensures D.Index(g, V3(g.x, j, k)) == D.Index(g, V3(0, j + 1, k))
  {
    assert (k * g.y + j + 1) * g.x == (k * g.y + j) * g.x + g.x;
  }

  lemma EndOfPlane(g: D.Grid, k: int)
    ensures D.Index(g, V3(0, g.y, k)) == D.Index(g, V3(0, 0, k + 1))
  {
    assert k * g.y + g.y == (k + 1) * g.y;
  }

  lemma EndOfGrid(g: D.Grid)
    ensures D.Index(g, V3(0, 0, g.z)) == D.NumRanks(g)
  {
    assert (g.z * g.y) * g.x == g.x * g.y * g.z;
  }
}
