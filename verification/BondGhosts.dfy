/** Ghosts for bonds: a rank that owns one member of a bond also knows the other one, as long as the two are less than half
    a sub-domain apart. The nearest planes are then the ones towards the rank of the other member. */
module BondGhosts {
  import opened Arithmetic
  import opened Vectors
  import opened Decomposition
  import opened Box
  import opened GhostExchange
  import opened GhostGeometry
  import B = Bonds

  // ------------------------------------------------------------ geometry

  /** The k-th image of `x` is less than half of `w` away from `y`. */
  predicate NearerThanHalf(w: real, L: real, x: real, k: int, y: real) {
    -w < 2.0 * (Image(L, x, k) - y) < w
  }

  /** On every decomposed axis some periodic image of `x` is less than half a sub-domain away from `y`. */
  ghost predicate HalfwayClose(dom: Domain, x: V3<real>, y: V3<real>)
    requires dom.Valid()
  {
    forall a: Axis :: dom.grid.At(a) >= 2 ==>
      exists k: int :: NearerThanHalf(LocalLength(dom.grid.At(a), dom.L.At(a)), dom.L.At(a), x.At(a), k, y.At(a))
  }

  lemma ImageBack(w: real, L: real, x: real, k: int, y: real)
    requires NearerThanHalf(w, L, x, k, y)
    ensures NearerThanHalf(w, L, y, -k, x)
  {
    assert (-k) as real * L == -(k as real * L);
  }

  lemma HalfwayCloseBack(dom: Domain, x: V3<real>, y: V3<real>)
    requires dom.Valid() && HalfwayClose(dom, x, y)
    ensures HalfwayClose(dom, y, x)
  {
    forall a: Axis | dom.grid.At(a) >= 2
      ensures exists k: int :: NearerThanHalf(LocalLength(dom.grid.At(a), dom.L.At(a)), dom.L.At(a), y.At(a), k, x.At(a))
    {
      var w := LocalLength(dom.grid.At(a), dom.L.At(a));
      var k: int :| NearerThanHalf(w, dom.L.At(a), x.At(a), k, y.At(a));
      ImageBack(w, dom.L.At(a), x.At(a), k, y.At(a));
    }
  }

  /** Two such points lie in the same or in neighbouring sub-domains, and the plane between is the nearest one. */
  lemma NearestPlane(n: int, L: real, p: int, x: real, c: int, y: real, k: int)
    requires n >= 2 && L > 0.0 && 0 <= p < n && 0 <= c < n && Inside(n, L, p, x) && Inside(n, L, c, y)
    requires NearerThanHalf(LocalLength(n, L), L, x, k, y)
    ensures c == p
            || (c == Step(p + 1, n) && x > Lo(n, L, p) + LocalLength(n, L) / 2.0)
            || (c == Step(p - 1, n) && x < Lo(n, L, p) + LocalLength(n, L) / 2.0)
  {
    var d := Image(L, x, k) - y;
    var rg := if d < 0.0 then -d else d;
    Edges(n, L, p);
    CloseMeansMarked(n, L, rg, p, x, c, y, k);
  }

  /** Which half of the sub-domain the coordinate is in. */
  lemma HalfOfDomain(n: int, L: real, c: int, x: real)
    requires n >= 1 && L > 0.0
    ensures Fraction(n, L, c, x) > 0.5 <==> x > Lo(n, L, c) + LocalLength(n, L) / 2.0
  {
    LocalLengths(n, L);
    var w := LocalLength(n, L);
    QuotientTimes(x - Lo(n, L, c), w);
    ProductOrder(0.5, Fraction(n, L, c, x), w);
  }

  lemma BondReachesOn(dom: Domain, p: Coord, x: V3<real>, c: Coord, y: V3<real>, a: Axis)
    requires dom.Valid() && InGrid(dom.grid, p) && InGrid(dom.grid, c)
    requires AtHome(dom, p, x) && AtHome(dom, c, y) && HalfwayClose(dom, x, y)
    ensures AxisVisited(dom.grid, MarkedPlan(dom, p, x, true), 6, p, c, a)
  {
    var n, L := dom.grid.At(a), dom.L.At(a);
    if n >= 2 {
      var k: int :| NearerThanHalf(LocalLength(n, L), L, x.At(a), k, y.At(a));
      NearestPlane(n, L, p.At(a), x.At(a), c.At(a), y.At(a), k);
      HalfOfDomain(n, L, p.At(a), x.At(a));
      AxisMarks(Fractions(dom, p, x), LayerFraction(dom), true, a);
    }
  }

  // ------------------------------------------------------------ delivery

  /** A particle that is on the rank without its bond partner goes towards the nearest planes. */
  ghost predicate MembersMarked(dom: Domain, c: Coord, es: seq<Copy>, b: B.Bond)
    requires dom.Valid()
  {
    forall i :: 0 <= i < |es| && ((es[i].tag == b.a && b.b !in Tags(es)) || (es[i].tag == b.b && b.a !in Tags(es))) ==>
      es[i].plan == MarkedPlan(dom, c, es[i].pos, true)
  }

  ghost predicate BondMarks(dom: Domain, owned: Owned, tables: B.BondTables)
    requires dom.Valid()
  {
    forall c: Coord, b: B.Bond :: InGrid(dom.grid, c) && b in tables(c) ==> MembersMarked(dom, c, owned(c), b)
  }

  ghost predicate AllAtHome(dom: Domain, owned: Owned)
    requires dom.Valid()
  {
    forall c: Coord, i: int :: InGrid(dom.grid, c) && 0 <= i < |owned(c)| ==> AtHome(dom, c, owned(c)[i].pos)
  }

  /** `t` is the tag of the particle in slot `i` of rank `p`. */
  predicate IsAt(g: Grid, owned: Owned, p: Coord, i: nat, t: nat) {
    InGrid(g, p) && i < |owned(p)| && owned(p)[i].tag == t
  }

  /** The member `t` of a bond reaches the rank of the other member `u`. */
  lemma MemberReaches(dom: Domain, owned: Owned, dir: Directory, tables: B.BondTables, b: B.Bond,
                      p: Coord, i: nat, t: nat, c: Coord, j: nat, u: nat)
    requires dom.Valid() && Registered(dom.grid, owned, dir) && AllAtHome(dom, owned) && BondMarks(dom, owned, tables)
    requires IsAt(dom.grid, owned, p, i, t) && IsAt(dom.grid, owned, c, j, u)
    requires ((t == b.a && u == b.b) || (t == b.b && u == b.a)) && b in tables(p)
    requires HalfwayClose(dom, owned(p)[i].pos, owned(c)[j].pos)
    ensures t in Tags(Held(dom, owned, 6, c))
  {
    Delivery(dom, owned, dir, 6, c);
    var e, y := owned(p)[i], owned(c)[j].pos;
    assert Tags(owned(p))[i] == t && dir.owner(t) == p;
    if p == c {
      assert Held(dom, owned, 6, c)[i] == e && Tags(Held(dom, owned, 6, c))[i] == t;
    } else {
      NotOwned(dom.grid, owned, dir, p, c, j);
      assert MembersMarked(dom, p, owned(p), b) && e.plan == MarkedPlan(dom, p, e.pos, true);
      forall a: Axis
        ensures AxisVisited(dom.grid, e.plan, 6, p, c, a)
      {
        assert AtHome(dom, p, e.pos) && AtHome(dom, c, y);
        BondReachesOn(dom, p, e.pos, c, y, a);
      }
    }
  }

  lemma NotOwned(g: Grid, owned: Owned, dir: Directory, p: Coord, c: Coord, j: nat)
    requires Registered(g, owned, dir) && InGrid(g, p) && InGrid(g, c) && p != c && j < |owned(c)|
    ensures owned(c)[j].tag !in Tags(owned(p))
  {
    assert dir.owner(owned(c)[j].tag) == c;
    forall k | 0 <= k < |owned(p)|
      ensures Tags(owned(p))[k] != owned(c)[j].tag
    {
      assert dir.owner(owned(p)[k].tag) == p;
    }
  }

  /** Bond completeness: after the exchange both members of a bond are present - as local particles or as ghosts - on the
      ranks of both, which are the ranks that store the bond. */
  lemma BondCompleteness(dom: Domain, owned: Owned, dir: Directory, tables: B.BondTables, b: B.Bond,
                         p: Coord, i: nat, q: Coord, j: nat, c: Coord)
    requires dom.Valid() && Registered(dom.grid, owned, dir) && AllAtHome(dom, owned) && BondMarks(dom, owned, tables)
    requires IsAt(dom.grid, owned, p, i, b.a) && IsAt(dom.grid, owned, q, j, b.b) && b in tables(p) && b in tables(q)
    requires HalfwayClose(dom, owned(p)[i].pos, owned(q)[j].pos) && (c == p || c == q)
    ensures b.a in Tags(Held(dom, owned, 6, c)) && b.b in Tags(Held(dom, owned, 6, c))
  {
    Delivery(dom, owned, dir, 6, c);
    if c == q {
      MemberReaches(dom, owned, dir, tables, b, p, i, b.a, q, j, b.b);
      assert Held(dom, owned, 6, q)[j] == owned(q)[j] && Tags(Held(dom, owned, 6, q))[j] == b.b;
    } else {
      HalfwayCloseBack(dom, owned(p)[i].pos, owned(q)[j].pos);
      MemberReaches(dom, owned, dir, tables, b, q, j, b.b, p, i, b.a);
      assert Held(dom, owned, 6, p)[i] == owned(p)[i] && Tags(Held(dom, owned, 6, p))[i] == b.a;
    }
  }

  /** Longer bonds can miss: a member near the western plane of its domain is not sent to the east, where its partner is a
      whole sub-domain away. */
  lemma LongBondMisses(dom: Domain, p: Coord, x: V3<real>, c: Coord, y: V3<real>)
    requires dom == Domain(V3(3, 1, 1), V3(6.0, 1.0, 1.0), 0.25) && p == V3(0, 0, 0) && c == V3(1, 0, 0)
    requires x == V3(-2.9, 0.0, 0.0) && y == V3(-0.9, 0.0, 0.0)
    ensures dom.Valid() && dom.GhostWidthAccepted() && AtHome(dom, p, x) && AtHome(dom, c, y)
    ensures !Visited(dom.grid, MarkedPlan(dom, p, x, true), 6, p, c)
  {
    assert Fraction(3, 6.0, 0, -2.9) <= 0.5;
    AxisMarks(Fractions(dom, p, x), LayerFraction(dom), true, 0);
    assert !AxisVisited(dom.grid, MarkedPlan(dom, p, x, true), 6, p, c, 0);
  }
}
