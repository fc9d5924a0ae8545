/** Which particles are marked for sending, and why the marks suffice: every
    particle that interacts with a local particle of a rank is present there,
    stored at the periodic image that realises the interaction distance. */
module GhostGeometry {
  import opened Arithmetic
  import opened Vectors
  import opened Decomposition
  import opened Box
  import opened GhostExchange

  // ------------------------------------------------------------ plans

  /** A member of an incomplete bond is sent towards the nearest plane on every axis. */
  function BondPlan(f: V3<real>): set<Dir> {
    {if f.x > 0.5 then 0 else 1, if f.y > 0.5 then 2 else 3, if f.z > 0.5 then 4 else 5}
  }

  /** Directions in which a particle at local fraction `f` lies in the ghost layer. */
  function LayerPlan(f: V3<real>, width: V3<real>): set<Dir> {
    set d: Dir | if d % 2 == 0 then f.At(AxisOf(d)) >= 1.0 - width.At(AxisOf(d)) else f.At(AxisOf(d)) < width.At(AxisOf(d))
  }

  function Fractions(dom: Domain, c: Coord, p: V3<real>): (f: V3<real>)
    requires dom.Valid()
    ensures forall a: Axis :: f.At(a) == Fraction(dom.grid.At(a), dom.L.At(a), c.At(a), p.At(a))
  {
    V3(Fraction(dom.grid.x, dom.L.At(0), c.x, p.x), Fraction(dom.grid.y, dom.L.At(1), c.y, p.y),
       Fraction(dom.grid.z, dom.L.At(2), c.z, p.z))
  }

  function LayerFraction(dom: Domain): (w: V3<real>)
    requires dom.Valid()
    ensures forall a: Axis :: w.At(a) == dom.rGhost / LocalLength(dom.grid.At(a), dom.L.At(a))
  {
    assert forall a: Axis :: dom.L.At(a) > 0.0 && LocalLength(dom.grid.At(a), dom.L.At(a)) > 0.0;
    V3(dom.rGhost / LocalLength(dom.grid.x, dom.L.At(0)), dom.rGhost / LocalLength(dom.grid.y, dom.L.At(1)),
       dom.rGhost / LocalLength(dom.grid.z, dom.L.At(2)))
  }

  function MarkedPlan(dom: Domain, c: Coord, p: V3<real>, bonded: bool): set<Dir>
    requires dom.Valid()
  {
    var f := Fractions(dom, c, p);
    (if bonded then BondPlan(f) else {}) + LayerPlan(f, LayerFraction(dom))
  }

  /** The ghost-layer test in terms of positions. */
  lemma LayerMarks(dom: Domain, c: Coord, p: V3<real>, d: Dir)
    requires dom.Valid() && InGrid(dom.grid, c)
    ensures d in LayerPlan(Fractions(dom, c, p), LayerFraction(dom)) <==>
            var a := AxisOf(d);
            if d % 2 == 0 then p.At(a) >= Hi(dom.grid.At(a), dom.L.At(a), c.At(a)) - dom.rGhost
            else p.At(a) < Lo(dom.grid.At(a), dom.L.At(a), c.At(a)) + dom.rGhost
  {
    var a := AxisOf(d);
    FractionOrder(dom.grid.At(a), dom.L.At(a), c.At(a), p.At(a), dom.rGhost);
  }

  /** Both rules together, for one axis and one fraction. */
  lemma AxisMarks(f: V3<real>, width: V3<real>, bonded: bool, a: Axis)
    ensures var plan := (if bonded then BondPlan(f) else {}) + LayerPlan(f, width);
            && (2 * a in plan <==> f.At(a) >= 1.0 - width.At(a) || (bonded && f.At(a) > 0.5))
            && (2 * a + 1 in plan <==> f.At(a) < width.At(a) || (bonded && f.At(a) <= 0.5))
  {
    assert AxisOf(2 * a) == a && AxisOf(2 * a + 1) == a;
  }

  ghost predicate BothMarked(dom: Domain, c: Coord, p: V3<real>, bonded: bool, a: Axis)
    requires dom.Valid()
  {
    2 * a in MarkedPlan(dom, c, p, bonded) && 2 * a + 1 in MarkedPlan(dom, c, p, bonded)
  }

  lemma NarrowLayer(dom: Domain, c: Coord, p: V3<real>, bonded: bool, a: Axis)
    requires dom.Valid() && InGrid(dom.grid, c)
    requires dom.rGhost < LocalLength(dom.grid.At(a), dom.L.At(a)) / 2.0
    ensures !BothMarked(dom, c, p, bonded, a)
  {
    LocalLengths(dom.grid.At(a), dom.L.At(a));
    HalfFraction(dom.rGhost, LocalLength(dom.grid.At(a), dom.L.At(a)));
    AxisMarks(Fractions(dom, c, p), LayerFraction(dom), bonded, a);
  }

  /** A particle with an incomplete bond in the middle of the sub-domain is marked both ways by a layer of half its width. */
  lemma WideLayer(dom: Domain, c: Coord, a: Axis) returns (p: V3<real>)
    requires dom.Valid() && InGrid(dom.grid, c)
    requires dom.rGhost >= LocalLength(dom.grid.At(a), dom.L.At(a)) / 2.0
    ensures BothMarked(dom, c, p, true, a)
  {
    var n, L, w := dom.grid.At(a), dom.L.At(a), LocalLength(dom.grid.At(a), dom.L.At(a));
    LocalLengths(n, L);
    HalfFraction(dom.rGhost, w);
    var mid := Lo(n, L, c.At(a)) + w / 2.0;
    p := V3(mid, mid, mid);
    MiddleFraction(n, L, c.At(a), mid);
    MarkedBothWays(Fractions(dom, c, p), LayerFraction(dom), a);
  }

  lemma MiddleFraction(n: int, L: real, c: int, mid: real)
    requires n >= 1 && L > 0.0 && LocalLength(n, L) > 0.0 && mid == Lo(n, L, c) + LocalLength(n, L) / 2.0
    ensures Fraction(n, L, c, mid) == 0.5
  {
    HalfOf(LocalLength(n, L), mid - Lo(n, L, c), Fraction(n, L, c, mid));
  }

  lemma HalfOf(w: real, h: real, q: real)
    requires w > 0.0 && h == w / 2.0 && q == h / w
    ensures q == 0.5
  {
    QuotientTimes(h, w);
    RealDistribute(q, -0.5, w);
    RealMulCases(q - 0.5, w);
  }

  lemma RealMulCases(d: real, w: real)
    requires w > 0.0 && d * w == 0.0
    ensures d == 0.0
  {
  }

  lemma MarkedBothWays(f: V3<real>, width: V3<real>, a: Axis)
    requires f.At(a) == 0.5 && width.At(a) >= 0.5
    ensures 2 * a in BondPlan(f) + LayerPlan(f, width) && 2 * a + 1 in BondPlan(f) + LayerPlan(f, width)
  {
    AxisMarks(f, width, true, a);
  }

  /** The width guard is exactly what keeps a plan from holding both directions of an axis,
      for every position (inside the domain or not) and with or without incomplete bonds. */
  lemma WidthGuardIsExact(dom: Domain, c: Coord, a: Axis)
    requires dom.Valid() && InGrid(dom.grid, c)
    ensures dom.rGhost < LocalLength(dom.grid.At(a), dom.L.At(a)) / 2.0 <==>
            forall p: V3<real>, bonded: bool :: !BothMarked(dom, c, p, bonded, a)
  {
    if dom.rGhost < LocalLength(dom.grid.At(a), dom.L.At(a)) / 2.0 {
      forall p: V3<real>, bonded: bool
        ensures !BothMarked(dom, c, p, bonded, a)
      {
        NarrowLayer(dom, c, p, bonded, a);
      }
    } else {
      var p := WideLayer(dom, c, a);
    }
  }

  lemma HalfFraction(rg: real, w: real)
    requires w > 0.0
    ensures rg / w < 0.5 <==> rg < w / 2.0
  {
    assert (rg / w) * w == rg;
    ProductOrder(rg / w, 0.5, w);
  }

  lemma MarkedPlanIsOneWay(dom: Domain, c: Coord, p: V3<real>, bonded: bool)
    requires dom.Valid() && dom.GhostWidthAccepted() && InGrid(dom.grid, c)
    ensures OneWay(dom.grid, MarkedPlan(dom, c, p, bonded))
  {
    forall d: Dir | Communicating(dom.grid, d) && d in MarkedPlan(dom, c, p, bonded)
      ensures Opposite(d) !in MarkedPlan(dom, c, p, bonded)
    {
      NarrowLayer(dom, c, p, bonded, AxisOf(d));
      assert d == 2 * AxisOf(d) || d == 2 * AxisOf(d) + 1;
    }
  }

  datatype Outcome = Accepted(dom: Domain) | Rejected

  /** Set the width of the ghost layer. A width is rejected exactly when some particle position could
      give rise to a plan with both directions of a decomposed axis. */
  method SetGhostLayerWidth(dom: Domain, width: real) returns (r: Outcome)
    requires dom.Valid() && width > 0.0
    ensures r.Accepted? ==> r.dom == dom.(rGhost := width)
    ensures r.Accepted? <==>
            forall c: Coord, p: V3<real>, bonded: bool :: InGrid(dom.grid, c) ==>
              OneWay(dom.grid, MarkedPlan(dom.(rGhost := width), c, p, bonded))
  {
    var L := dom.L;
    var next := dom.(rGhost := width);
    assert next.Valid() && forall a: Axis :: next.L.At(a) == dom.L.At(a);
    if (width >= LocalLength(dom.grid.x, L.x) / 2.0 && dom.grid.x > 1)
       || (width >= LocalLength(dom.grid.y, L.y) / 2.0 && dom.grid.y > 1)
       || (width >= LocalLength(dom.grid.z, L.z) / 2.0 && dom.grid.z > 1)
    {
      ghost var a: Axis := if width >= LocalLength(dom.grid.x, L.x) / 2.0 && dom.grid.x > 1 then 0
                           else if width >= LocalLength(dom.grid.y, L.y) / 2.0 && dom.grid.y > 1 then 1 else 2;
      TooWide(next, a);
      return Rejected;
    }
    assert next.GhostWidthAccepted();
    forall c: Coord, p: V3<real>, bonded: bool | InGrid(dom.grid, c)
      ensures OneWay(dom.grid, MarkedPlan(next, c, p, bonded))
    {
      MarkedPlanIsOneWay(next, c, p, bonded);
    }
    r := Accepted(next);
  }

  lemma TooWide(dom: Domain, a: Axis)
    requires dom.Valid() && dom.grid.At(a) > 1 && dom.rGhost >= LocalLength(dom.grid.At(a), dom.L.At(a)) / 2.0
    ensures exists c: Coord, p: V3<real>, bonded: bool :: InGrid(dom.grid, c) && !OneWay(dom.grid, MarkedPlan(dom, c, p, bonded))
  {
    var c: Coord := V3(0, 0, 0);
    WidthGuardIsExact(dom, c, a);
    var p: V3<real>, bonded: bool :| 2 * a in MarkedPlan(dom, c, p, bonded) && 2 * a + 1 in MarkedPlan(dom, c, p, bonded);
    assert Communicating(dom.grid, 2 * a) && Opposite(2 * a) == 2 * a + 1;
    assert !OneWay(dom.grid, MarkedPlan(dom, c, p, bonded));
  }

  // ------------------------------------------------------------ completeness

  /** The k-th image of `x` is at most `r` away from `y`. */
  ghost predicate ImageWithin(r: real, L: real, x: real, k: int, y: real) {
    -r <= Image(L, x, k) - y <= r
  }

  lemma CellsApart(n: int, L: real, p: int, c: int)
    requires n >= 1 && L > 0.0 && c >= p + 2
    ensures Lo(n, L, c) >= Hi(n, L, p) + LocalLength(n, L)
  {
    DomainEdges(-L / 2.0, L, n, p);
    DomainEdges(-L / 2.0, L, n, p + 1);
    if c > p + 2 {
      LocalLengths(n, L);
      DomainsOrdered(-L / 2.0, L, n, p + 2, c);
    }
  }

  lemma NotFurther(L: real, rg: real, x: real, y: real, k: int, s: real)
    requires -L / 2.0 <= x < L / 2.0 && -L / 2.0 <= y < L / 2.0 && 0.0 <= rg < L
    requires -rg <= x + s - y <= rg && s == k as real * L
    ensures -1 <= k <= 1
    ensures s == if k == 0 then 0.0 else if k == 1 then L else -L
  {
    assert -2.0 * L < s < 2.0 * L;
    Multiples(k, L, s);
  }

  /** Two points within the ghost width of each other, modulo the box, lie in the same or in
      neighbouring sub-domains, and then the first one is in the layer facing the second. */
  lemma CloseMeansMarked(n: int, L: real, rg: real, p: int, x: real, c: int, y: real, k: int)
    requires Decomposed(n, L, rg) && 0 <= p < n && 0 <= c < n
    requires Inside(n, L, p, x) && Inside(n, L, c, y) && ImageWithin(rg, L, x, k, y)
    ensures c == p
            || (c == Step(p + 1, n) && x >= Hi(n, L, p) - rg)
            || (c == Step(p - 1, n) && x < Lo(n, L, p) + rg)
  {
    Edges(n, L, p);
    Edges(n, L, c);
    NotFurther(L, rg, x, y, k, k as real * L);
    if k == 0 {
      if c >= p + 2 {
        CellsApart(n, L, p, c);
      } else if p >= c + 2 {
        CellsApart(n, L, c, p);
      }
    }
  }

  /** The point lies in the sub-domain of rank `c`, as far as axes are decomposed. */
  ghost predicate AtHome(dom: Domain, c: Coord, x: V3<real>)
    requires dom.Valid()
  {
    forall a: Axis :: dom.grid.At(a) >= 2 ==> Inside(dom.grid.At(a), dom.L.At(a), c.At(a), x.At(a))
  }

  /** All particles lie inside their owner's sub-domain and carry the marks of the ghost layer. */
  ghost predicate Settled(dom: Domain, owned: Owned)
    requires dom.Valid()
  {
    forall c: Coord, i: int :: InGrid(dom.grid, c) && 0 <= i < |owned(c)| ==>
      && AtHome(dom, c, owned(c)[i].pos)
      && (exists bonded: bool :: owned(c)[i].plan == MarkedPlan(dom, c, owned(c)[i].pos, bonded))
  }

  /** On every decomposed axis some periodic image of `x` is within the ghost width of `y`. */
  ghost predicate Close(dom: Domain, x: V3<real>, y: V3<real>) {
    forall a: Axis :: dom.grid.At(a) >= 2 ==> exists k: int :: ImageWithin(dom.rGhost, dom.L.At(a), x.At(a), k, y.At(a))
  }

  lemma AxisComplete(dom: Domain, p: Coord, x: V3<real>, bonded: bool, c: Coord, y: V3<real>, a: Axis)
    requires dom.Valid() && dom.GhostWidthAccepted() && InGrid(dom.grid, p) && InGrid(dom.grid, c)
    requires AtHome(dom, p, x) && AtHome(dom, c, y) && Close(dom, x, y)
    ensures AxisVisited(dom.grid, MarkedPlan(dom, p, x, bonded), 6, p, c, a)
  {
    var n, L := dom.grid.At(a), dom.L.At(a);
    if n >= 2 {
      var k: int :| ImageWithin(dom.rGhost, L, x.At(a), k, y.At(a));
      CloseMeansMarked(n, L, dom.rGhost, p.At(a), x.At(a), c.At(a), y.At(a), k);
      LayerMarks(dom, p, x, 2 * a);
      LayerMarks(dom, p, x, 2 * a + 1);
    }
  }

  /** Completeness: any particle close to a particle owned by rank `c` is, after the exchange,
      present on `c` - as a local particle or as a ghost. */
  lemma GhostCompleteness(dom: Domain, owned: Owned, dir: Directory, c: Coord, i: nat, p: Coord, j: nat)
    requires dom.Valid() && dom.GhostWidthAccepted() && Registered(dom.grid, owned, dir) && Settled(dom, owned)
    requires InGrid(dom.grid, c) && i < |owned(c)| && InGrid(dom.grid, p) && j < |owned(p)|
    requires Close(dom, owned(p)[j].pos, owned(c)[i].pos)
    ensures owned(p)[j].tag in Tags(Held(dom, owned, 6, c))
  {
    var e, y := owned(p)[j], owned(c)[i].pos;
    var bonded: bool :| e.plan == MarkedPlan(dom, p, e.pos, bonded);
    forall a: Axis
      ensures AxisVisited(dom.grid, e.plan, 6, p, c, a)
    {
      AxisComplete(dom, p, e.pos, bonded, c, y, a);
    }
    assert owned(p)[j].tag == Tags(owned(p))[j];
    Delivery(dom, owned, dir, 6, c);
  }

  // ------------------------------------------------------------ stored positions

  /** Within one ghost width of the sub-domain. */
  ghost predicate NearDomain(n: int, L: real, rg: real, c: int, x: real)
    requires n >= 1
  {
    Lo(n, L, c) - rg <= x < Hi(n, L, c) + rg
  }

  /** Rank `c` gets the coordinate `x` of rank `p` because of the ghost-layer marks alone. */
  ghost predicate LayerSends(n: int, L: real, rg: real, p: int, c: int, x: real)
    requires n >= 1
  {
    || c == p
    || (c == Step(p + 1, n) && x >= Hi(n, L, p) - rg)
    || (c == Step(p - 1, n) && x < Lo(n, L, p) + rg)
  }

  lemma AdjacentImage(n: int, L: real, rg: real, p: int, c: int, x: real)
    requires Decomposed(n, L, rg) && 0 <= p < n && 0 <= c < n
    requires Inside(n, L, p, x) && LayerSends(n, L, rg, p, c, x)
    requires n >= 3 || 6.0 * rg <= L
    ensures NearDomain(n, L, rg, c, Wrap(n, L, rg, c, x))
  {
    Edges(n, L, p);
    Edges(n, L, c);
    ShiftedEdges(n, L, rg, c);
    Multiples(Shift(n, L, rg, c, x), L, Shift(n, L, rg, c, x) as real * L);
  }

  /** Every ghost is stored next to the sub-domain that needs it exactly when the axis has at
      least three sub-domains or the ghost layer is at most a sixth of the box. */
  lemma ImageGuardIsExact(n: int, L: real, rg: real)
    requires Decomposed(n, L, rg)
    ensures (n >= 3 || 6.0 * rg <= L) <==>
            forall p: int, c: int, x: real :: 0 <= p < n && 0 <= c < n && Inside(n, L, p, x) && LayerSends(n, L, rg, p, c, x) ==>
              NearDomain(n, L, rg, c, Wrap(n, L, rg, c, x))
  {
    if n >= 3 || 6.0 * rg <= L {
      forall p: int, c: int, x: real | 0 <= p < n && 0 <= c < n && Inside(n, L, p, x) && LayerSends(n, L, rg, p, c, x)
        ensures NearDomain(n, L, rg, c, Wrap(n, L, rg, c, x))
      {
        AdjacentImage(n, L, rg, p, c, x);
      }
    } else {
      Edges(n, L, 0);
      Edges(n, L, 1);
      ShiftedEdges(n, L, rg, 1);
      Multiples(Shift(n, L, rg, 1, -rg), L, Shift(n, L, rg, 1, -rg) as real * L);
      assert Inside(n, L, 0, -rg) && LayerSends(n, L, rg, 0, 1, -rg);
      assert !NearDomain(n, L, rg, 1, Wrap(n, L, rg, 1, -rg));
    }
  }

  lemma WrapTwice(n: int, L: real, rg: real, c: int, x: real)
    requires Decomposed(n, L, rg) && 0 <= c < n && -L / 2.0 <= x < L / 2.0
    ensures Wrap(n, L, rg, c, Wrap(n, L, rg, c, x)) == Wrap(n, L, rg, c, x)
  {
    Edges(n, L, c);
    ShiftedEdges(n, L, rg, c);
    Multiples(Shift(n, L, rg, c, x), L, Shift(n, L, rg, c, x) as real * L);
  }

  /** A copy still to be forwarded in direction `d` has not moved along that axis yet. */
  lemma NotYetMoved(g: Grid, plan: set<Dir>, d: Dir, p: Coord, from: Coord)
    requires InGrid(g, p) && InGrid(g, from) && OneWay(g, plan)
    requires Communicating(g, d) && d in plan && Visited(g, plan, d, p, from)
    ensures from.At(AxisOf(d)) == p.At(AxisOf(d))
  {
    assert AxisVisited(g, plan, d, p, from, AxisOf(d));
    assert Opposite(d) !in plan;
  }

  /** The particle `es[j]` owned by rank `p`, of which the slot `e` is a copy. */
  ghost predicate IsOwner(dom: Domain, es: seq<Copy>, j: int, e: Copy, c: Coord)
    requires dom.Valid()
  {
    0 <= j < |es| && es[j].tag == e.tag && WrappedOnce(dom, c, e.pos, es[j].pos)
  }

  /** The slot holds its owner's coordinates, wrapped once into the box of the rank that stores it. */
  ghost predicate Placed(dom: Domain, c: Coord, e: Copy, es: seq<Copy>)
    requires dom.Valid()
  {
    exists j :: IsOwner(dom, es, j, e, c)
  }

  ghost predicate WrappedOnce(dom: Domain, c: Coord, stored: V3<real>, x: V3<real>)
    requires dom.Valid()
  {
    forall a: Axis :: stored.At(a) == Wrap(dom.grid.At(a), dom.L.At(a), dom.rGhost, c.At(a), x.At(a))
  }

  lemma WrapPosAxes(dom: Domain, c: Coord, p: V3<real>)
    requires dom.Valid()
    ensures forall a: Axis :: WrapPos(dom, c, p).At(a) == Wrap(dom.grid.At(a), dom.L.At(a), dom.rGhost, c.At(a), p.At(a))
  {
  }

  lemma AxisHop(n: int, L: real, rg: real, p: int, from: int, c: int, x: real)
    requires n == 1 || Decomposed(n, L, rg)
    requires n >= 1 && L > 0.0 && 0 <= p < n && 0 <= c < n && (n >= 2 ==> Inside(n, L, p, x)) && (from == p || from == c)
    ensures Wrap(n, L, rg, c, Wrap(n, L, rg, from, x)) == Wrap(n, L, rg, c, x)
  {
    if n >= 2 {
      InsideIsNotWrapped(n, L, rg, p, x);
      Edges(n, L, p);
      WrapTwice(n, L, rg, c, x);
    }
  }

  /** One hop along axis `d/2` keeps every coordinate wrapped exactly once. */
  lemma HopWrapsOnce(dom: Domain, p: Coord, from: Coord, d: Dir, stored: V3<real>, x: V3<real>)
    requires dom.Valid() && dom.GhostWidthAccepted() && InGrid(dom.grid, p) && InGrid(dom.grid, from)
    requires from.At(AxisOf(d)) == p.At(AxisOf(d)) && WrappedOnce(dom, from, stored, x)
    requires AtHome(dom, p, x)
    ensures WrappedOnce(dom, Neighbor(dom.grid, from, d), WrapPos(dom, Neighbor(dom.grid, from, d), stored), x)
  {
    var c := Neighbor(dom.grid, from, d);
    NeighborMoves(dom.grid, from, d);
    WrapPosAxes(dom, c, stored);
    forall a: Axis
      ensures WrapPos(dom, c, stored).At(a) == Wrap(dom.grid.At(a), dom.L.At(a), dom.rGhost, c.At(a), x.At(a))
    {
      AxisHop(dom.grid.At(a), dom.L.At(a), dom.rGhost, p.At(a), from.At(a), c.At(a), x.At(a));
    }
  }

  lemma OwnPlaced(dom: Domain, owned: Owned, c: Coord, j: nat)
    requires dom.Valid() && dom.GhostWidthAccepted() && Settled(dom, owned) && InGrid(dom.grid, c) && j < |owned(c)|
    ensures Placed(dom, c, owned(c)[j], owned(c))
  {
    var e := owned(c)[j];
    forall a: Axis
      ensures e.pos.At(a) == Wrap(dom.grid.At(a), dom.L.At(a), dom.rGhost, c.At(a), e.pos.At(a))
    {
      if dom.grid.At(a) >= 2 {
        InsideIsNotWrapped(dom.grid.At(a), dom.L.At(a), dom.rGhost, c.At(a), e.pos.At(a));
      }
    }
    assert IsOwner(dom, owned(c), j, e, c);
  }

  ghost predicate AllPlaced(dom: Domain, owned: Owned, dir: Directory, es: seq<Copy>, c: Coord)
    requires dom.Valid()
  {
    forall e :: e in es ==> Placed(dom, c, e, owned(dir.owner(e.tag)))
  }

  lemma OwnersPlaced(dom: Domain, owned: Owned, dir: Directory, c: Coord)
    requires dom.Valid() && dom.GhostWidthAccepted() && Registered(dom.grid, owned, dir) && Settled(dom, owned)
    requires InGrid(dom.grid, c)
    ensures AllPlaced(dom, owned, dir, owned(c), c)
  {
    forall e | e in owned(c)
      ensures Placed(dom, c, e, owned(dir.owner(e.tag)))
    {
      var j :| 0 <= j < |owned(c)| && owned(c)[j] == e;
      OwnPlaced(dom, owned, c, j);
    }
  }

  lemma ArrivingPlaced(dom: Domain, owned: Owned, dir: Directory, d: Dir, c: Coord)
    requires dom.Valid() && dom.GhostWidthAccepted() && Registered(dom.grid, owned, dir) && Settled(dom, owned)
    requires InGrid(dom.grid, c) && Communicating(dom.grid, d)
    requires AllPlaced(dom, owned, dir, Held(dom, owned, d, Neighbor(dom.grid, c, Opposite(d))), Neighbor(dom.grid, c, Opposite(d)))
    ensures AllPlaced(dom, owned, dir, Arriving(dom, owned, d, c), c)
  {
    var from := Neighbor(dom.grid, c, Opposite(d));
    var held := Held(dom, owned, d, from);
    var sent := Sent(held, d);
    Upstream(dom.grid, c, d);
    Delivery(dom, owned, dir, d, from);
    SentSelects(held, d);
    forall e | e in Arriving(dom, owned, d, c)
      ensures Placed(dom, c, e, owned(dir.owner(e.tag)))
    {
      var k :| 0 <= k < |sent| && Received(dom, c, sent)[k] == e;
      assert sent[k] in sent;
      ForwardedSlotPlaced(dom, owned, dir, d, from, sent[k]);
    }
  }

  lemma NextPlaced(dom: Domain, owned: Owned, dir: Directory, d: nat, c: Coord)
    requires dom.Valid() && dom.GhostWidthAccepted() && Registered(dom.grid, owned, dir) && Settled(dom, owned)
    requires InGrid(dom.grid, c) && 0 < d <= 6 && AllPlaced(dom, owned, dir, Held(dom, owned, d - 1, c), c)
    requires var from := Neighbor(dom.grid, c, Opposite(d - 1)); AllPlaced(dom, owned, dir, Held(dom, owned, d - 1, from), from)
    ensures AllPlaced(dom, owned, dir, Held(dom, owned, d, c), c)
  {
    NextHeld(dom, owned, d - 1, c);
    if Communicating(dom.grid, d - 1) {
      ArrivingPlaced(dom, owned, dir, d - 1, c);
      JoinedPlaced(dom, owned, dir, Held(dom, owned, d - 1, c), Arriving(dom, owned, d - 1, c), c);
    }
  }

  lemma JoinedPlaced(dom: Domain, owned: Owned, dir: Directory, es: seq<Copy>, fs: seq<Copy>, c: Coord)
    requires dom.Valid() && AllPlaced(dom, owned, dir, es, c) && AllPlaced(dom, owned, dir, fs, c)
    ensures AllPlaced(dom, owned, dir, es + fs, c)
  {
  }

  lemma {:induction false} SlotsWrappedOnce(dom: Domain, owned: Owned, dir: Directory, d: nat, c: Coord)
    requires dom.Valid() && dom.GhostWidthAccepted() && Registered(dom.grid, owned, dir) && Settled(dom, owned)
    requires InGrid(dom.grid, c) && d <= 6
    ensures AllPlaced(dom, owned, dir, Held(dom, owned, d, c), c)
  {
    if d == 0 {
      OwnersPlaced(dom, owned, dir, c);
    } else {
      var from := Neighbor(dom.grid, c, Opposite(d - 1));
      Upstream(dom.grid, c, d - 1);
      SlotsWrappedOnce(dom, owned, dir, d - 1, c);
      SlotsWrappedOnce(dom, owned, dir, d - 1, from);
      NextPlaced(dom, owned, dir, d, c);
    }
  }

  lemma ForwardedSlotPlaced(dom: Domain, owned: Owned, dir: Directory, d: Dir, from: Coord, s: Copy)
    requires dom.Valid() && dom.GhostWidthAccepted() && Registered(dom.grid, owned, dir) && Settled(dom, owned)
    requires InGrid(dom.grid, from) && Communicating(dom.grid, d) && d in s.plan
    requires Delivered(dom, owned, dir, d, from) && s in Held(dom, owned, d, from)
    requires Placed(dom, from, s, owned(dir.owner(s.tag)))
    ensures var c := Neighbor(dom.grid, from, d);
            Placed(dom, c, s.(pos := WrapPos(dom, c, s.pos)), owned(dir.owner(s.tag)))
  {
    var p := dir.owner(s.tag);
    var j :| IsOwner(dom, owned(p), j, s, from);
    assert AtHome(dom, p, owned(p)[j].pos);
    NotYetMoved(dom.grid, dir.plan(s.tag), d, p, from);
    HopWrapsOnce(dom, p, from, d, s.pos, owned(p)[j].pos);
    var c := Neighbor(dom.grid, from, d);
    assert IsOwner(dom, owned(p), j, s.(pos := WrapPos(dom, c, s.pos)), c);
  }

  lemma LessThanABox(lo: real, w: real, L: real, rg: real, x: real, s: real, t: real, y: real)
    requires L >= 2.0 * w && rg < w / 2.0 && lo <= y < lo + w
    requires lo - rg <= x + s < lo + w + rg && -rg <= x + t - y <= rg
    ensures -L < s - t < L
  {
  }

  lemma EqualMultiples(m: int, k: int, L: real, s: real, t: real)
    requires L > 0.0 && s == m as real * L && t == k as real * L && -L < s - t < L
    ensures m == k
  {
    assert (m - k) as real * L == s - t;
    Multiples(m - k, L, s - t);
  }

  lemma SameImage(n: int, L: real, rg: real, c: int, x: real, m: int, k: int, y: real)
    requires Decomposed(n, L, rg) && 0 <= c < n && Inside(n, L, c, y)
    requires NearDomain(n, L, rg, c, x + m as real * L) && ImageWithin(rg, L, x, k, y)
    ensures m == k
  {
    LocalLengths(n, L);
    Edges(n, L, c);
    var s, t := m as real * L, k as real * L;
    LessThanABox(Lo(n, L, c), LocalLength(n, L), L, rg, x, s, t, y);
    EqualMultiples(m, k, L, s, t);
  }

  lemma AxisRealised(n: int, L: real, rg: real, p: int, x: real, c: int, y: real, k: int)
    requires Decomposed(n, L, rg) && 0 <= p < n && 0 <= c < n && (n >= 3 || 6.0 * rg <= L)
    requires Inside(n, L, p, x) && Inside(n, L, c, y) && LayerSends(n, L, rg, p, c, x)
    requires ImageWithin(rg, L, x, k, y)
    ensures Wrap(n, L, rg, c, x) == Image(L, x, k)
  {
    AdjacentImage(n, L, rg, p, c, x);
    SameImage(n, L, rg, c, x, Shift(n, L, rg, c, x), k, y);
  }

  /** The layer sends the coordinate `x` of domain `p` to domain `c`, where its image `k` is close to `y`. */
  ghost predicate NeededImage(n: int, L: real, rg: real, p: int, x: real, c: int, y: real, k: int)
    requires n >= 1
  {
    && 0 <= p < n && 0 <= c < n && Inside(n, L, p, x) && Inside(n, L, c, y)
    && LayerSends(n, L, rg, p, c, x) && ImageWithin(rg, L, x, k, y)
  }

  /** The stored coordinate of a layer ghost is always the image that is close to the local particle if and only if
      the axis has at least three sub-domains or the layer is at most a sixth of the box. */
  lemma StoredGuardIsExact(n: int, L: real, rg: real)
    requires Decomposed(n, L, rg)
    ensures (n >= 3 || 6.0 * rg <= L) <==>
            forall p: int, c: int, x: real, y: real, k: int :: NeededImage(n, L, rg, p, x, c, y, k) ==>
              Wrap(n, L, rg, c, x) == Image(L, x, k)
  {
    if n >= 3 || 6.0 * rg <= L {
      forall p: int, c: int, x: real, y: real, k: int | NeededImage(n, L, rg, p, x, c, y, k)
        ensures Wrap(n, L, rg, c, x) == Image(L, x, k)
      {
        AxisRealised(n, L, rg, p, x, c, y, k);
      }
    } else {
      WrongImageStored(L, rg);
      assert NeededImage(2, L, rg, 0, -rg, 1, 0.0, 0);
    }
  }

  /** With two sub-domains and a wider layer the ghost of a particle just below the middle plane is stored a box length away. */
  lemma WrongImageStored(L: real, rg: real)
    requires Decomposed(2, L, rg) && 6.0 * rg > L
    ensures Inside(2, L, 0, -rg) && Inside(2, L, 1, 0.0) && LayerSends(2, L, rg, 0, 1, -rg)
    ensures ImageWithin(rg, L, -rg, 0, 0.0) && Wrap(2, L, rg, 1, -rg) != Image(L, -rg, 0)
  {
    Edges(2, L, 0);
    Edges(2, L, 1);
    ShiftedEdges(2, L, rg, 1);
    Multiples(Shift(2, L, rg, 1, -rg), L, Shift(2, L, rg, 1, -rg) as real * L);
  }

  lemma VisitedBecauseOfLayer(dom: Domain, p: Coord, x: V3<real>, c: Coord, a: Axis)
    requires dom.Valid() && InGrid(dom.grid, p)
    requires AxisVisited(dom.grid, MarkedPlan(dom, p, x, false), 6, p, c, a)
    ensures LayerSends(dom.grid.At(a), dom.L.At(a), dom.rGhost, p.At(a), c.At(a), x.At(a))
  {
    LayerMarks(dom, p, x, 2 * a);
    LayerMarks(dom, p, x, 2 * a + 1);
  }

  lemma SlotPlaced(dom: Domain, owned: Owned, dir: Directory, c: Coord, p: Coord, j: nat, e: Copy)
    requires dom.Valid() && dom.GhostWidthAccepted() && Registered(dom.grid, owned, dir) && Settled(dom, owned)
    requires InGrid(dom.grid, c) && InGrid(dom.grid, p) && j < |owned(p)|
    requires e in Held(dom, owned, 6, c) && e.tag == owned(p)[j].tag
    ensures WrappedOnce(dom, c, e.pos, owned(p)[j].pos)
    ensures Visited(dom.grid, owned(p)[j].plan, 6, p, c)
  {
    Delivery(dom, owned, dir, 6, c);
    SlotsWrappedOnce(dom, owned, dir, 6, c);
    var i :| IsOwner(dom, owned(p), i, e, c);
    assert i == j;
  }

  lemma StoredOnAxis(dom: Domain, p: Coord, x: V3<real>, c: Coord, y: V3<real>, stored: V3<real>, a: Axis, k: int)
    requires dom.Valid() && dom.GhostWidthAccepted() && InGrid(dom.grid, p) && InGrid(dom.grid, c)
    requires dom.grid.At(a) >= 3 || (dom.grid.At(a) == 2 && 6.0 * dom.rGhost <= dom.L.At(a))
    requires Inside(dom.grid.At(a), dom.L.At(a), p.At(a), x.At(a))
    requires Inside(dom.grid.At(a), dom.L.At(a), c.At(a), y.At(a))
    requires WrappedOnce(dom, c, stored, x) && AxisVisited(dom.grid, MarkedPlan(dom, p, x, false), 6, p, c, a)
    requires ImageWithin(dom.rGhost, dom.L.At(a), x.At(a), k, y.At(a))
    ensures stored.At(a) == Image(dom.L.At(a), x.At(a), k)
  {
    VisitedBecauseOfLayer(dom, p, x, c, a);
    AxisRealised(dom.grid.At(a), dom.L.At(a), dom.rGhost, p.At(a), x.At(a), c.At(a), y.At(a), k);
  }

  /** For a particle marked by the ghost-layer test alone, on every decomposed axis that has at least
      three sub-domains or a layer of at most a sixth of the box: whichever image of it is close to a
      local particle of rank `c`, that image is the one the slot on `c` stores. */
  lemma StoredImageRealisesDistance(dom: Domain, owned: Owned, dir: Directory, c: Coord, i: nat, p: Coord, j: nat,
                                    e: Copy, a: Axis, k: int)
    requires dom.Valid() && dom.GhostWidthAccepted() && Registered(dom.grid, owned, dir) && Settled(dom, owned)
    requires InGrid(dom.grid, c) && i < |owned(c)| && InGrid(dom.grid, p) && j < |owned(p)|
    requires e in Held(dom, owned, 6, c) && e.tag == owned(p)[j].tag
    requires owned(p)[j].plan == MarkedPlan(dom, p, owned(p)[j].pos, false)
    requires dom.grid.At(a) >= 3 || (dom.grid.At(a) == 2 && 6.0 * dom.rGhost <= dom.L.At(a))
    requires ImageWithin(dom.rGhost, dom.L.At(a), owned(p)[j].pos.At(a), k, owned(c)[i].pos.At(a))
    ensures e.pos.At(a) == Image(dom.L.At(a), owned(p)[j].pos.At(a), k)
  {
    SlotPlaced(dom, owned, dir, c, p, j, e);
    assert AxisVisited(dom.grid, owned(p)[j].plan, 6, p, c, a);
    StoredOnAxis(dom, p, owned(p)[j].pos, c, owned(c)[i].pos, e.pos, a, k);
  }
}
