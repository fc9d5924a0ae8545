/** The processor grid: how many sub-domains there are along each axis, which
    rank is whose neighbour, and which part of the global box each rank owns.
    A rank is identified with its position in the grid; `Index` and `Triple`
    translate between positions and MPI rank numbers. */
module Decomposition {
  import opened Arithmetic
  import opened Vectors

  /** Number of sub-domains along each axis. */
  type Grid = g: V3<int> | g.x >= 1 && g.y >= 1 && g.z >= 1 witness V3(1, 1, 1)

  type Coord = V3<int>

  predicate InGrid(g: Grid, c: Coord) {
    0 <= c.x < g.x && 0 <= c.y < g.y && 0 <= c.z < g.z
  }

  function NumRanks(g: Grid): int {
    g.x * g.y * g.z
  }

  function Index(g: Grid, c: Coord): int {
    (c.z * g.y + c.y) * g.x + c.x
  }

  function Triple(g: Grid, rank: int): Coord
    requires 0 <= rank
  {
    var z := rank / (g.y * g.x);
    var y := (rank % (g.y * g.x)) / g.x;
    V3(rank - z * g.y * g.x - y * g.x, y, z)
  }

  /** Grid positions and rank numbers 0 .. NumRanks-1 correspond one to one. */
  lemma RankOfCoord(g: Grid, c: Coord)
    requires InGrid(g, c)
    ensures 0 <= Index(g, c) < NumRanks(g)
    ensures Triple(g, Index(g, c)) == c
  {
    var area, row := g.y * g.x, c.y * g.x + c.x;
    MulBelow(c.y, g.y, c.x, g.x);
    assert c.z * g.y * g.x == c.z * area;
    assert (c.z * g.y + c.y) * g.x == c.z * g.y * g.x + c.y * g.x;
    MulBelow(c.z, g.z, row, area);
    assert g.z * area == NumRanks(g);
    QuotientUnique(c.z, area, row);
    QuotientUnique(c.y, g.x, c.x);
  }

  lemma CoordOfRank(g: Grid, rank: int)
    requires 0 <= rank < NumRanks(g)
    ensures InGrid(g, Triple(g, rank))
    ensures Index(g, Triple(g, rank)) == rank
  {
    var area := g.y * g.x;
    MulMono(1, g.y, g.x);
    assert g.z * area == NumRanks(g);
    QuotientBelow(rank, g.z, area);
    var z, rest := rank / area, rank % area;
    QuotientBelow(rest, g.y, g.x);
    assert z * g.y * g.x == z * area;
    assert (z * g.y + rest / g.x) * g.x == z * g.y * g.x + (rest / g.x) * g.x;
  }

  // ---------------------------------------------------------------- neighbours

  function Step(i: int, n: int): int {
    if i < 0 then i + n else if i == n then i - n else i
  }

  function Adjacent(d: Dir, a: Axis): int {
    if AxisOf(d) == a then Sign(d) else 0
  }

  /** Position of the neighbouring sub-domain, wrapped across the global boundary. */
  function Neighbor(g: Grid, c: Coord, d: Dir): Coord {
    V3(Step(c.x + Adjacent(d, 0), g.x),
       Step(c.y + Adjacent(d, 1), g.y),
       Step(c.z + Adjacent(d, 2), g.z))
  }

  function NeighborRank(g: Grid, rank: int, d: Dir): int
    requires 0 <= rank < NumRanks(g)
  {
    Index(g, Neighbor(g, Triple(g, rank), d))
  }

  /** Ranks exchange particles along an axis only if it is cut into several domains. */
  predicate Communicating(g: Grid, d: Dir) {
    g.At(AxisOf(d)) != 1
  }

  /** Sub-domain `c` of `n` lies at the upper (`sign` is 1) or lower boundary of the global box. */
  predicate AtBoundary(n: int, c: int, sign: int) {
    c == if sign == 1 then n - 1 else 0
  }

  lemma NeighborMoves(g: Grid, c: Coord, d: Dir)
    requires InGrid(g, c)
    ensures InGrid(g, Neighbor(g, c, d))
    ensures forall a: Axis :: Neighbor(g, c, d).At(a) ==
                              if a == AxisOf(d) then Step(c.At(a) + Sign(d), g.At(a)) else c.At(a)
  {
  }

  /** Each direction permutes the grid: going one way and then back returns
      to the start, and the neighbour differs from oneself when communicating. */
  lemma NeighborInverse(g: Grid, c: Coord, d: Dir)
    requires InGrid(g, c)
    ensures Neighbor(g, Neighbor(g, c, d), Opposite(d)) == c
    ensures Communicating(g, d) ==> Neighbor(g, c, d) != c
  {
  }

  /** The rank from which `c` receives in direction `d` is the one whose neighbour in that direction is `c`. */
  lemma Upstream(g: Grid, c: Coord, d: Dir)
    requires InGrid(g, c)
    ensures var from := Neighbor(g, c, Opposite(d)); InGrid(g, from) && Neighbor(g, from, d) == c
  {
    NeighborMoves(g, c, Opposite(d));
    assert Opposite(Opposite(d)) == d;
    NeighborInverse(g, c, Opposite(d));
  }

  /** The rank that A sends to is B exactly when the rank that B receives from is A,
      so every send of a step is matched by one receive. */
  lemma SendMatchesReceive(g: Grid, a: int, b: int, d: Dir)
    requires 0 <= a < NumRanks(g) && 0 <= b < NumRanks(g)
    ensures 0 <= NeighborRank(g, a, d) < NumRanks(g)
    ensures NeighborRank(g, a, d) == b <==> NeighborRank(g, b, Opposite(d)) == a
  {
    var ca, cb := Triple(g, a), Triple(g, b);
    CoordOfRank(g, a);
    CoordOfRank(g, b);
    NeighborMoves(g, ca, d);
    NeighborMoves(g, cb, Opposite(d));
    RankOfCoord(g, Neighbor(g, ca, d));
    RankOfCoord(g, Neighbor(g, cb, Opposite(d)));
    NeighborInverse(g, ca, d);
    NeighborInverse(g, cb, Opposite(d));
  }

  // ---------------------------------------------------------------- local boxes

  /** Lower edge of sub-domain `c` of `n` along an axis of length `L` starting at `lo`. */
  function DomainLo(lo: real, L: real, n: int, c: int): real
    requires n >= 1
  {
    lo + c as real * (L / n as real)
  }

  function DomainHi(lo: real, L: real, n: int, c: int): real
    requires n >= 1
  {
    DomainLo(lo, L, n, c) + L / n as real
  }

  /** Consecutive sub-domains share an edge; the first starts and the last ends the global box. */
  lemma DomainEdges(lo: real, L: real, n: int, c: int)
    requires n >= 1
    ensures DomainHi(lo, L, n, c) == DomainLo(lo, L, n, c + 1)
    ensures DomainLo(lo, L, n, 0) == lo && DomainHi(lo, L, n, n - 1) == lo + L
    ensures DomainLo(lo, L, n, n) == lo + L
  {
    var w := L / n as real;
    assert n as real * w == L;
    RealDistribute(c as real, 1.0, w);
    RealDistribute((n - 1) as real, 1.0, w);
  }

  lemma DomainsOrdered(lo: real, L: real, n: int, c: int, c': int)
    requires n >= 1 && L > 0.0 && c < c'
    ensures DomainHi(lo, L, n, c) <= DomainLo(lo, L, n, c')
  {
    var w, m := L / n as real, (c' - c) as real;
    PositiveQuotient(L, n as real);
    RealMulMono(1.0, m, w);
    RealDistribute(c as real, m, w);
    assert c' as real == c as real + m;
  }

  ghost predicate InDomain(lo: V3<real>, L: V3<real>, g: Grid, c: Coord, p: V3<real>) {
    forall a: Axis ::
      DomainLo(lo.At(a), L.At(a), g.At(a), c.At(a)) <= p.At(a) < DomainHi(lo.At(a), L.At(a), g.At(a), c.At(a))
  }

  /** The cell of width `w` that a coordinate falls into. */
  lemma CellOf(y: real, w: real, n: int) returns (c: int)
    requires n >= 1 && w > 0.0 && 0.0 <= y < n as real * w
    ensures 0 <= c < n && c as real * w <= y < (c + 1) as real * w
  {
    var q := y / w;
    QuotientTimes(y, w);
    c := q.Floor;
    var next := (c + 1) as real;
    RealMulMono(c as real, q, w);
    RealMulStrict(q, next, w);
    assert y < next * w;
    RealMulCancel(q, n as real, w);
    RealMulCancel(0.0, next, w);
  }

  lemma AxisTiled(lo: real, L: real, n: int, x: real) returns (c: int)
    requires n >= 1 && L > 0.0 && lo <= x < lo + L
    ensures 0 <= c < n && DomainLo(lo, L, n, c) <= x < DomainHi(lo, L, n, c)
  {
    PositiveQuotient(L, n as real);
    c := CellOf(x - lo, L / n as real, n);
    DomainEdges(lo, L, n, c);
  }

  /** The local boxes tile the global box: every point lies in the box of exactly one rank. */
  lemma BoxesTile(lo: V3<real>, L: V3<real>, g: Grid, p: V3<real>) returns (c: Coord)
    requires forall a: Axis :: L.At(a) > 0.0 && lo.At(a) <= p.At(a) < lo.At(a) + L.At(a)
    ensures InGrid(g, c) && InDomain(lo, L, g, c, p)
    ensures forall c': Coord :: InGrid(g, c') && InDomain(lo, L, g, c', p) ==> c' == c
  {
    var cx := AxisTiled(lo.At(0), L.At(0), g.At(0), p.At(0));
    var cy := AxisTiled(lo.At(1), L.At(1), g.At(1), p.At(1));
    var cz := AxisTiled(lo.At(2), L.At(2), g.At(2), p.At(2));
    c := V3(cx, cy, cz);
    forall c': Coord | InGrid(g, c') && InDomain(lo, L, g, c', p)
      ensures c' == c
    {
      forall a: Axis
        ensures c'.At(a) == c.At(a)
      {
        DomainUnique(lo.At(a), L.At(a), g.At(a), c.At(a), c'.At(a), p.At(a));
      }
      SameOnEveryAxis(c', c);
    }
  }

  lemma DomainUnique(lo: real, L: real, n: int, c: int, c': int, x: real)
    requires n >= 1 && L > 0.0
    requires DomainLo(lo, L, n, c) <= x < DomainHi(lo, L, n, c)
    requires DomainLo(lo, L, n, c') <= x < DomainHi(lo, L, n, c')
    ensures c == c'
  {
    if c < c' {
      DomainsOrdered(lo, L, n, c, c');
    } else if c' < c {
      DomainsOrdered(lo, L, n, c', c);
    }
  }

  // ---------------------------------------------------------------- choosing the grid

  /** `r` honours a request `q` if `q` is zero (no preference) or equal to it. */
  predicate Honours(q: int, r: int) {
    q == 0 || q == r
  }

  ghost predicate Eligible(nranks: int, request: V3<int>, t: V3<int>) {
    && t.x >= 1 && t.y >= 1 && t.z >= 1
    && t.x * t.y * t.z == nranks
    && Honours(request.x, t.x) && Honours(request.y, t.y) && Honours(request.z, t.z)
  }

  /** The length of sub-domain `c` of an axis, between its edges. */
  function EdgeLength(L: real, n: int, c: int): real
    requires n >= 1
  {
    DomainHi(-L / 2.0, L, n, c) - DomainLo(-L / 2.0, L, n, c)
  }

  /** The faces of a row of `k` sub-domains of width `w`, summed up one by one. */
  function RowArea(w: real, L: real, n: int, k: nat): real
    requires n >= 1
  {
    if k == 0 then 0.0 else RowArea(w, L, n, k - 1) + w * EdgeLength(L, n, k - 1)
  }

  /** The faces of `j` such rows, each as wide as the sub-domain it belongs to on the other axis. */
  function PlaneArea(L: real, n: int, j: nat, L': real, n': int): real
    requires n >= 1 && n' >= 1
  {
    if j == 0 then 0.0 else PlaneArea(L, n, j - 1, L', n') + RowArea(EdgeLength(L, n, j - 1), L', n', n')
  }

  /** The faces of all planes between the `m` sub-domains of an axis. */
  function FacesBetween(m: nat, L: real, n: int, L': real, n': int): real
    requires n >= 1 && n' >= 1
  {
    if m <= 1 then 0.0 else FacesBetween(m - 1, L, n, L', n') + PlaneArea(L, n, n, L', n')
  }

  /** The faces across one axis. */
  function FacesOn(L: V3<real>, t: V3<int>, a: Axis): real
    requires t.x >= 1 && t.y >= 1 && t.z >= 1
  {
    if a == 0 then FacesBetween(t.x, L.y, t.y, L.z, t.z)
    else if a == 1 then FacesBetween(t.y, L.x, t.x, L.z, t.z)
    else FacesBetween(t.z, L.x, t.x, L.y, t.y)
  }

  lemma {:induction false} RowAreaIs(w: real, L: real, n: int, k: nat)
    requires n >= 1
    ensures RowArea(w, L, n, k) == w * (DomainLo(-L / 2.0, L, n, k) + L / 2.0)
  {
    if k == 0 {
      DomainEdges(-L / 2.0, L, n, 0);
    } else {
      RowAreaIs(w, L, n, k - 1);
      DomainEdges(-L / 2.0, L, n, k - 1);
    }
  }

  lemma {:induction false} PlaneAreaIs(L: real, n: int, j: nat, L': real, n': int)
    requires n >= 1 && n' >= 1
    ensures PlaneArea(L, n, j, L', n') == (DomainLo(-L / 2.0, L, n, j) + L / 2.0) * L'
  {
    if j == 0 {
      DomainEdges(-L / 2.0, L, n, 0);
    } else {
      PlaneAreaIs(L, n, j - 1, L', n');
      RowAreaIs(EdgeLength(L, n, j - 1), L', n', n');
      DomainEdges(-L' / 2.0, L', n', 0);
      DomainEdges(-L / 2.0, L, n, j - 1);
      RealDistribute(DomainLo(-L / 2.0, L, n, j - 1) + L / 2.0, EdgeLength(L, n, j - 1), L');
    }
  }

  lemma {:induction false} FacesBetweenIs(m: nat, L: real, n: int, L': real, n': int)
    requires m >= 1 && n >= 1 && n' >= 1
    ensures FacesBetween(m, L, n, L', n') == L * L' * (m - 1) as real
  {
    if m > 1 {
      FacesBetweenIs(m - 1, L, n, L', n');
      PlaneAreaIs(L, n, n, L', n');
      DomainEdges(-L / 2.0, L, n, 0);
      RealDistribute((m - 2) as real, 1.0, L * L');
    }
  }

  /** Total area of the faces that neighbouring sub-domains of the grid share. */
  function SharedArea(L: V3<real>, t: V3<int>): real
    requires t.x >= 1 && t.y >= 1 && t.z >= 1
  {
    FacesOn(L, t, 0) + FacesOn(L, t, 1) + FacesOn(L, t, 2)
  }

  lemma FacesOnIs(L: V3<real>, t: V3<int>, a: Axis)
    requires t.x >= 1 && t.y >= 1 && t.z >= 1
    ensures FacesOn(L, t, a) == if a == 0 then L.y * L.z * (t.x - 1) as real else if a == 1 then L.x * L.z * (t.y - 1) as real
                                else L.x * L.y * (t.z - 1) as real
  {
    if a == 0 {
      FacesBetweenIs(t.x, L.y, t.y, L.z, t.z);
    } else if a == 1 {
      FacesBetweenIs(t.y, L.x, t.x, L.z, t.z);
    } else {
      FacesBetweenIs(t.z, L.x, t.x, L.y, t.y);
    }
  }

  /** The sum that the search computes is the area of the shared faces. */
  lemma SharedAreaIs(L: V3<real>, t: V3<int>)
    requires t.x >= 1 && t.y >= 1 && t.z >= 1
    ensures SharedArea(L, t) == L.x * L.y * (t.z - 1) as real + L.x * L.z * (t.y - 1) as real + L.y * L.z * (t.x - 1) as real
  {
    FacesOnIs(L, t, 0);
    FacesOnIs(L, t, 1);
    FacesOnIs(L, t, 2);
  }

  ghost predicate Optimal(nranks: int, request: V3<int>, L: V3<real>, t: V3<int>) {
    && Eligible(nranks, request, t)
    && forall u: V3<int> :: Eligible(nranks, request, u) ==> SharedArea(L, t) <= SharedArea(L, u)
  }

  /** Everything before position (i, j, k) of the triple loop. */
  predicate Before(u: V3<int>, i: int, j: int, k: int) {
    u.x < i || (u.x == i && (u.y < j || (u.y == j && u.z < k)))
  }

  /** Loop invariant of the search: the best triple among those already visited. */
  ghost predicate BestSoFar(nranks: int, request: V3<int>, L: V3<real>, found: bool, best: V3<int>, area: real,
                            i: int, j: int, k: int)
  {
    var initial := V3(1, 1, nranks);
    && (found ==> Eligible(nranks, request, best) && area == SharedArea(L, best))
    && (!found ==> best == initial)
    && (request == V3(0, 0, 0) ==> found)
    && (forall u: V3<int> :: Eligible(nranks, request, u) && Before(u, i, j, k) ==>
          found && area <= SharedArea(L, u))
  }

  lemma FactorsBounded(x: int, y: int, z: int)
    requires x >= 1 && y >= 1 && z >= 1
    ensures x <= x * y && y <= x * y && x * y <= x * y * z && z <= x * y * z
  {
    MulMono(1, y, x);
    MulMono(1, x, y);
    MulMono(1, z, x * y);
    MulMono(1, x * y, z);
  }

  /** The invariant carries over to a later loop position if no eligible triple lies between. */
  lemma NothingBetween(nranks: int, request: V3<int>, L: V3<real>, found: bool, best: V3<int>, area: real,
                       p: V3<int>, q: V3<int>)
    requires BestSoFar(nranks, request, L, found, best, area, p.x, p.y, p.z)
    requires forall u: V3<int> :: Eligible(nranks, request, u) && Before(u, q.x, q.y, q.z) ==> Before(u, p.x, p.y, p.z)
    ensures BestSoFar(nranks, request, L, found, best, area, q.x, q.y, q.z)
  {
  }

  lemma LargerProduct(i: int, j: int, k: int, z: int)
    requires i >= 1 && j >= 1
    ensures z >= k ==> i * j * z >= i * j * k
  {
    FactorsBounded(i, j, 1);
    if z >= k {
      MulMono(k, z, i * j);
    }
  }

  lemma LargerFactors(i: int, j: int, y: int, z: int)
    requires i >= 1 && j >= 1 && z >= 1
    ensures y >= j ==> i * y * z >= i * j
  {
    if y >= j {
      MulMono(j, y, i);
      FactorsBounded(i, y, z);
    }
  }

  /** Once the partial product exceeds the number of ranks, no larger factor can fit. */
  lemma RowExhausted(nranks: int, request: V3<int>, i: int, j: int, k: int)
    requires i >= 1 && j >= 1 && k >= 1 && i * j * k > nranks
    ensures forall u: V3<int> :: Eligible(nranks, request, u) && Before(u, i, j + 1, 1) ==> Before(u, i, j, k)
  {
    forall u: V3<int> | Eligible(nranks, request, u) && Before(u, i, j + 1, 1)
      ensures Before(u, i, j, k)
    {
      LargerProduct(i, j, k, u.z);
    }
  }

  lemma PlaneExhausted(nranks: int, request: V3<int>, i: int, j: int)
    requires i >= 1 && j >= 1 && i * j > nranks
    ensures forall u: V3<int> :: Eligible(nranks, request, u) && Before(u, i + 1, 1, 1) ==> Before(u, i, j, 1)
  {
    forall u: V3<int> | Eligible(nranks, request, u) && Before(u, i + 1, 1, 1)
      ensures Before(u, i, j, 1)
    {
      LargerFactors(i, j, u.y, u.z);
    }
  }

  /** Examining one triple keeps the invariant for the position just after it. */
  lemma Examined(nranks: int, request: V3<int>, L: V3<real>, found: bool, best: V3<int>, area: real, t: V3<int>)
    requires t.x >= 1 && t.y >= 1 && t.z >= 1
    requires Honours(request.x, t.x) && Honours(request.y, t.y)
    requires BestSoFar(nranks, request, L, found, best, area, t.x, t.y, t.z)
    ensures
      var take := Honours(request.z, t.z) && t.x * t.y * t.z == nranks && (SharedArea(L, t) < area || !found);
      BestSoFar(nranks, request, L, found || take, if take then t else best, if take then SharedArea(L, t) else area,
                t.x, t.y, t.z + 1)
  {
    forall u: V3<int> | Eligible(nranks, request, u) && Before(u, t.x, t.y, t.z + 1)
      ensures Before(u, t.x, t.y, t.z) || u == t
    {
    }
  }

  /** A first factor that the request rules out leaves nothing to visit. */
  lemma PlaneSkipped(nranks: int, request: V3<int>, L: V3<real>, found: bool, best: V3<int>, area: real, i: int)
    requires !Honours(request.x, i) && BestSoFar(nranks, request, L, found, best, area, i, 1, 1)
    ensures BestSoFar(nranks, request, L, found, best, area, i + 1, 1, 1)
  {
    forall u: V3<int> | Eligible(nranks, request, u) && Before(u, i + 1, 1, 1)
      ensures Before(u, i, 1, 1)
    {
    }
    NothingBetween(nranks, request, L, found, best, area, V3(i, 1, 1), V3(i + 1, 1, 1));
  }

  /** So does a second factor that the request rules out. */
  lemma RowSkipped(nranks: int, request: V3<int>, L: V3<real>, found: bool, best: V3<int>, area: real, i: int, j: int)
    requires !Honours(request.y, j) && BestSoFar(nranks, request, L, found, best, area, i, j, 1)
    ensures BestSoFar(nranks, request, L, found, best, area, i, j + 1, 1)
  {
    forall u: V3<int> | Eligible(nranks, request, u) && Before(u, i, j + 1, 1)
      ensures Before(u, i, j, 1)
    {
    }
    NothingBetween(nranks, request, L, found, best, area, V3(i, j, 1), V3(i, j + 1, 1));
  }

  lemma NothingVisited(nranks: int, request: V3<int>, L: V3<real>)
    requires nranks >= 1
    ensures BestSoFar(nranks, request, L, request == V3(0, 0, 0), V3(1, 1, nranks), SharedArea(L, V3(1, 1, nranks)), 1, 1, 1)
  {
  }

  lemma AllVisited(nranks: int, request: V3<int>, L: V3<real>, found: bool, best: V3<int>, area: real)
    requires BestSoFar(nranks, request, L, found, best, area, nranks + 1, 1, 1)
    ensures found <==> exists t: V3<int> :: Eligible(nranks, request, t)
    ensures found ==> Optimal(nranks, request, L, best)
    ensures !found ==> best == V3(1, 1, nranks)
  {
    forall u: V3<int> | Eligible(nranks, request, u)
      ensures Before(u, nranks + 1, 1, 1)
    {
      FactorsBounded(u.x, u.y, u.z);
    }
    if found {
      assert Eligible(nranks, request, best);
    }
  }

  /** Exhaustive search over all factorisations of the number of ranks. */
  method FindDecomposition(nranks: int, L: V3<real>, request: V3<int>) returns (found: bool, n: V3<int>)
    requires nranks >= 1
    ensures found <==> exists t: V3<int> :: Eligible(nranks, request, t)
    ensures found ==> Optimal(nranks, request, L, n)
    ensures !found ==> n == V3(1, 1, nranks)
  {
    var minArea := L.x * L.y * (nranks - 1) as real;
    found := request == V3(0, 0, 0);
    n := V3(1, 1, nranks);
    NothingVisited(nranks, request, L);
    SharedAreaIs(L, V3(1, 1, nranks));
    var i := 1;
    while i <= nranks
      invariant 1 <= i <= nranks + 1
      invariant BestSoFar(nranks, request, L, found, n, minArea, i, 1, 1)
    {
      if request.x != 0 && i != request.x {
        PlaneSkipped(nranks, request, L, found, n, minArea, i);
      } else {
        found, n, minArea := SearchPlane(nranks, L, request, i, found, n, minArea);
      }
      i := i + 1;
    }
    AllVisited(nranks, request, L, found, n, minArea);
  }

  /** The middle loop of the search. */
  method SearchPlane(nranks: int, L: V3<real>, request: V3<int>, i: int, found0: bool, n0: V3<int>, minArea0: real)
    returns (found: bool, n: V3<int>, minArea: real)
    requires i >= 1 && Honours(request.x, i)
    requires BestSoFar(nranks, request, L, found0, n0, minArea0, i, 1, 1)
    ensures BestSoFar(nranks, request, L, found, n, minArea, i + 1, 1, 1)
  {
    found, n, minArea := found0, n0, minArea0;
    var j := 1;
    while i * j <= nranks
      invariant 1 <= j
      invariant BestSoFar(nranks, request, L, found, n, minArea, i, j, 1)
      decreases nranks - j
    {
      FactorsBounded(i, j, 1);
      if request.y != 0 && j != request.y {
        RowSkipped(nranks, request, L, found, n, minArea, i, j);
      } else {
        found, n, minArea := SearchRow(nranks, L, request, i, j, found, n, minArea);
      }
      j := j + 1;
    }
    PlaneExhausted(nranks, request, i, j);
    NothingBetween(nranks, request, L, found, n, minArea, V3(i, j, 1), V3(i + 1, 1, 1));
  }

  /** The area that the search assigns to a triple: cuts times the other two box lengths, for each axis. */
  method SurfaceArea(L: V3<real>, t: V3<int>) returns (area: real)
    requires t.x >= 1 && t.y >= 1 && t.z >= 1
    ensures area == SharedArea(L, t)
  {
    area := L.x * L.y * (t.z - 1) as real + L.x * L.z * (t.y - 1) as real + L.y * L.z * (t.x - 1) as real;
    SharedAreaIs(L, t);
  }

  /** The innermost loop of the search. */
  method SearchRow(nranks: int, L: V3<real>, request: V3<int>, i: int, j: int, found0: bool, n0: V3<int>, minArea0: real)
    returns (found: bool, n: V3<int>, minArea: real)
    requires i >= 1 && j >= 1 && Honours(request.x, i) && Honours(request.y, j)
    requires BestSoFar(nranks, request, L, found0, n0, minArea0, i, j, 1)
    ensures BestSoFar(nranks, request, L, found, n, minArea, i, j + 1, 1)
  {
    found, n, minArea := found0, n0, minArea0;
    var k := 1;
    while i * j * k <= nranks
      invariant 1 <= k
      invariant BestSoFar(nranks, request, L, found, n, minArea, i, j, k)
      decreases nranks - k
    {
      FactorsBounded(i, j, k);
      Examined(nranks, request, L, found, n, minArea, V3(i, j, k));
      if (request.z == 0 || k == request.z) && i * j * k == nranks {
        var area := SurfaceArea(L, V3(i, j, k));
        if area < minArea || !found {
          n, minArea, found := V3(i, j, k), area, true;
        }
      }
      k := k + 1;
    }
    RowExhausted(nranks, request, i, j, k);
    NothingBetween(nranks, request, L, found, n, minArea, V3(i, j, k), V3(i, j + 1, 1));
  }

  /** The constructor's choice: honour the request if possible, otherwise pick
      the best decomposition without any request. Always a full tiling. */
  method ChooseDecomposition(nranks: int, L: V3<real>, request: V3<int>) returns (g: Grid)
    requires nranks >= 1
    ensures NumRanks(g) == nranks
    ensures Optimal(nranks, if exists t: V3<int> :: Eligible(nranks, request, t) then request else V3(0, 0, 0), L, g)
  {
    var found, n := FindDecomposition(nranks, L, request);
    if !found {
      assert Eligible(nranks, V3(0, 0, 0), V3(1, 1, nranks));
      found, n := FindDecomposition(nranks, L, V3(0, 0, 0));
    }
    g := n;
  }
}
