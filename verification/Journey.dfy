/** The way of a single particle through one migration. In each direction the
    particle is handed on if it lies outside its rank's domain on that side;
    whoever receives it wraps all its coordinates into the receiver's shifted
    box. The axes influence each other only through the number of these wraps. */
module Journey {
  import opened Arithmetic
  import opened Vectors
  import opened Decomposition
  import opened Box

  // ------------------------------------------------------------ one axis

  /** Domain coordinate, position and image flag along one axis. */
  datatype Spot = Spot(c: int, x: real, image: int)

  predicate LeavesUp(n: int, L: real, s: Spot)
    requires n >= 1 && L > 0.0
  {
    n != 1 && Fraction(n, L, s.c, s.x) >= 1.0
  }

  predicate LeavesDown(n: int, L: real, s: Spot)
    requires n >= 1 && L > 0.0
  {
    n != 1 && Fraction(n, L, s.c, s.x) < 0.0
  }

  /** The receiver wraps the coordinate into its shifted box. */
  function Land(n: int, L: real, rg: real, s: Spot): Spot
    requires n >= 1 && L > 0.0
  {
    Spot(s.c, Wrap(n, L, rg, s.c, s.x), s.image - Shift(n, L, rg, s.c, s.x))
  }

  function Hop(n: int, L: real, rg: real, s: Spot, sign: int): Spot
    requires n >= 1 && L > 0.0
  {
    Land(n, L, rg, s.(c := Step(s.c + sign, n)))
  }

  function GoUp(n: int, L: real, rg: real, s: Spot): Spot
    requires n >= 1 && L > 0.0
  {
    if LeavesUp(n, L, s) then Hop(n, L, rg, s, 1) else s
  }

  function GoDown(n: int, L: real, rg: real, s: Spot): Spot
    requires n >= 1 && L > 0.0
  {
    if LeavesDown(n, L, s) then Hop(n, L, rg, s, -1) else s
  }

  function Unwrapped(L: real, s: Spot): real {
    s.x + s.image as real * L
  }

  lemma LandKeepsUnwrapped(n: int, L: real, rg: real, s: Spot)
    requires n >= 1 && L > 0.0
    ensures Unwrapped(L, Land(n, L, rg, s)) == Unwrapped(L, s)
  {
    WrapKeepsUnwrapped(n, L, rg, s.c, s.x, s.image);
  }

  /** Wrapping and domain edges in linear form. */
  lemma WrapValue(n: int, L: real, rg: real, c: int, x: real)
    requires Decomposed(n, L, rg) && 0 <= c < n
    ensures var lo := -L / 2.0 + (if c == n - 1 then 2.0 * rg else 0.0) - (if c == 0 then 2.0 * rg else 0.0);
            Wrap(n, L, rg, c, x) == if x >= lo + L then x - L else if x < lo then x + L else x
    ensures Wrap(n, L, rg, c, x) == x <==> Shift(n, L, rg, c, x) == 0
  {
    ShiftedEdges(n, L, rg, c);
  }

  ghost predicate Home(n: int, L: real, s: Spot)
    requires n >= 1
  {
    0 <= s.c < n && Inside(n, L, s.c, s.x)
  }

  function BothWays(n: int, L: real, rg: real, s: Spot): Spot
    requires n >= 1 && L > 0.0
  {
    GoDown(n, L, rg, GoUp(n, L, rg, s))
  }

  /** How often the two directions of the axis hand the particle on. */
  function Hops(n: int, L: real, rg: real, s: Spot): nat
    requires n >= 1 && L > 0.0
  {
    (if LeavesUp(n, L, s) then 1 else 0) + (if LeavesDown(n, L, GoUp(n, L, rg, s)) then 1 else 0)
  }

  lemma LeavingValue(n: int, L: real, s: Spot)
    requires n >= 2 && L > 0.0
    ensures LeavesUp(n, L, s) <==> s.x >= Hi(n, L, s.c)
    ensures LeavesDown(n, L, s) <==> s.x < Lo(n, L, s.c)
  {
    FractionBounds(n, L, s.c, s.x);
  }

  /** The particle is handed on exactly if it is outside, and otherwise left alone. */
  lemma HopsOutside(n: int, L: real, rg: real, s: Spot)
    requires n >= 2 && L > 0.0 && 0 <= s.c < n
    ensures Hops(n, L, rg, s) == 0 <==> Inside(n, L, s.c, s.x)
    ensures Hops(n, L, rg, s) == 0 ==> BothWays(n, L, rg, s) == s
  {
    LeavingValue(n, L, s);
  }

  /** Where a coordinate of domain `c` has to be for the two directions of the axis to take it home: inside; or above, by less
      than one sub-domain or so far that the receiver wraps it into one of the two domains; or, likewise, below. */
  predicate GetsHome(n: int, L: real, rg: real, c: int, x: real)
    requires n >= 1 && L > 0.0
  {
    var w, up, down := LocalLength(n, L), Step(c + 1, n), Step(c - 1, n);
    || Inside(n, L, c, x)
    || (x >= Hi(n, L, c)
        && (|| x < Hi(n, L, c) + w
            || (up != 0 && x >= ShiftedHi(n, L, rg, up) && Lo(n, L, c) <= x - L < Hi(n, L, up))))
    || (x < Lo(n, L, c)
        && (|| x >= Lo(n, L, c) - w
            || (down != n - 1 && x < ShiftedLo(n, L, rg, down) && Lo(n, L, down) <= x + L < Hi(n, L, down))))
  }

  lemma AboveHome(n: int, L: real, rg: real, s: Spot)
    requires Decomposed(n, L, rg) && 0 <= s.c < n && s.x >= Hi(n, L, s.c)
    ensures Home(n, L, BothWays(n, L, rg, s)) <==> GetsHome(n, L, rg, s.c, s.x)
  {
    var c := Step(s.c + 1, n);
    var u := GoUp(n, L, rg, s);
    LeavingValue(n, L, s);
    assert u.c == c && u.x == Wrap(n, L, rg, c, s.x);
    Edges(n, L, s.c);
    Edges(n, L, c);
    WrapValue(n, L, rg, c, s.x);
    ShiftedEdges(n, L, rg, c);
    LeavingValue(n, L, u);
    WrapValue(n, L, rg, s.c, u.x);
  }

  lemma BelowHome(n: int, L: real, rg: real, s: Spot)
    requires Decomposed(n, L, rg) && 0 <= s.c < n && s.x < Lo(n, L, s.c)
    ensures Home(n, L, BothWays(n, L, rg, s)) <==> GetsHome(n, L, rg, s.c, s.x)
  {
    var c := Step(s.c - 1, n);
    LeavingValue(n, L, s);
    Edges(n, L, s.c);
    Edges(n, L, c);
    WrapValue(n, L, rg, c, s.x);
    ShiftedEdges(n, L, rg, c);
  }

  /** The fate of one axis, exactly, wherever the coordinate is. */
  lemma AxisFate(n: int, L: real, rg: real, s: Spot)
    requires Decomposed(n, L, rg) && 0 <= s.c < n
    ensures Home(n, L, BothWays(n, L, rg, s)) <==> GetsHome(n, L, rg, s.c, s.x)
  {
    if s.x >= Hi(n, L, s.c) {
      AboveHome(n, L, rg, s);
    } else if s.x < Lo(n, L, s.c) {
      BelowHome(n, L, rg, s);
    } else {
      HopsOutside(n, L, rg, s);
    }
  }

  // ------------------------------------------------------------ being received repeatedly

  function LandTimes(n: int, L: real, rg: real, s: Spot, j: nat): Spot
    requires n >= 1 && L > 0.0
  {
    if j == 0 then s else Land(n, L, rg, LandTimes(n, L, rg, s, j - 1))
  }

  /** The coordinate extends no more than one image beyond any of the shifted boxes: what wrapping requires of its input. */
  predicate WithinOneBox(L: real, rg: real, x: real) {
    -1.5 * L + 2.0 * rg <= x < 1.5 * L - 2.0 * rg
  }

  lemma LandedStays(n: int, L: real, rg: real, s: Spot)
    requires Decomposed(n, L, rg) && 0 <= s.c < n && WithinOneBox(L, rg, s.x)
    ensures Land(n, L, rg, Land(n, L, rg, s)) == Land(n, L, rg, s)
    ensures WithinOneBox(L, rg, Land(n, L, rg, s).x)
  {
    LocalLengths(n, L);
    Edges(n, L, s.c);
    WrapValue(n, L, rg, s.c, s.x);
    WrapValue(n, L, rg, s.c, Wrap(n, L, rg, s.c, s.x));
  }

  lemma {:induction false} LandTimesStays(n: int, L: real, rg: real, s: Spot, j: nat)
    requires n >= 1 && L > 0.0 && Land(n, L, rg, s) == s
    ensures LandTimes(n, L, rg, s, j) == s
  {
    if j > 0 {
      LandTimesStays(n, L, rg, s, j - 1);
    }
  }

  /** Being received twice is no different from being received once. */
  lemma {:induction false} LandTimesOnce(n: int, L: real, rg: real, s: Spot, j: nat)
    requires Decomposed(n, L, rg) && 0 <= s.c < n && WithinOneBox(L, rg, s.x)
    ensures LandTimes(n, L, rg, s, j) == if j == 0 then s else Land(n, L, rg, s)
  {
    if j > 0 {
      LandTimesOnce(n, L, rg, s, j - 1);
      LandedStays(n, L, rg, s);
    }
  }

  /** Whoever has it after the two directions will not wrap it again. */
  lemma ThereToStay(n: int, L: real, rg: real, s: Spot)
    requires Decomposed(n, L, rg) && 0 <= s.c < n && WithinOneBox(L, rg, s.x)
    ensures Land(n, L, rg, BothWays(n, L, rg, s)) == BothWays(n, L, rg, s)
    ensures 0 <= BothWays(n, L, rg, s).c < n
  {
    if Inside(n, L, s.c, s.x) {
      HopsOutside(n, L, rg, s);
      InsideIsNotWrapped(n, L, rg, s.c, s.x);
    } else {
      LeavingValue(n, L, s);
      var u := GoUp(n, L, rg, s);
      if LeavesUp(n, L, s) {
        LandedStays(n, L, rg, s.(c := Step(s.c + 1, n)));
      }
      if LeavesDown(n, L, u) {
        LandedStays(n, L, rg, u.(c := Step(u.c - 1, n)));
      }
    }
  }

  // ------------------------------------------------------------ short strays

  /** The particle is less than one sub-domain away from its domain. */
  predicate Astray(n: int, L: real, s: Spot)
    requires n >= 1
  {
    Lo(n, L, s.c) - LocalLength(n, L) < s.x < Hi(n, L, s.c) + LocalLength(n, L)
  }

  /** A receiver on another axis would wrap this coordinate although the particle
      has not been handed across the boundary of this axis yet. */
  predicate Misdirected(n: int, L: real, rg: real, s: Spot) {
    n >= 3 && ((s.c == n - 1 && s.x >= L / 2.0 + 2.0 * rg) || (s.c == 0 && s.x < -L / 2.0 - 2.0 * rg))
  }

  function Entering(n: int, L: real, rg: real, s: Spot, landed: bool): Spot
    requires n >= 1 && L > 0.0
  {
    if landed then Land(n, L, rg, s) else s
  }

  /** A short stray gets home unless it was wrapped too early. */
  lemma ShortStrayFate(n: int, L: real, rg: real, s: Spot, landed: bool)
    requires Decomposed(n, L, rg) && 0 <= s.c < n && Astray(n, L, s)
    ensures WithinOneBox(L, rg, s.x)
    ensures GetsHome(n, L, rg, s.c, Entering(n, L, rg, s, landed).x) <==> !(landed && Misdirected(n, L, rg, s))
  {
    LocalLengths(n, L);
    Edges(n, L, s.c);
    if landed {
      WrapValue(n, L, rg, s.c, s.x);
      ShortStrayLanded(n, L, rg, s);
    }
  }

  lemma ShortStrayLanded(n: int, L: real, rg: real, s: Spot)
    requires Decomposed(n, L, rg) && 0 <= s.c < n && Astray(n, L, s)
    ensures GetsHome(n, L, rg, s.c, Land(n, L, rg, s).x) <==> !Misdirected(n, L, rg, s)
  {
    var up, down := Step(s.c + 1, n), Step(s.c - 1, n);
    LocalLengths(n, L);
    Edges(n, L, s.c);
    Edges(n, L, up);
    Edges(n, L, down);
    WrapValue(n, L, rg, s.c, s.x);
    ShiftedEdges(n, L, rg, up);
    ShiftedEdges(n, L, rg, down);
  }

  /** Of coordinates that stray further, some get home and some do not. */
  lemma FarStrays()
    ensures !Astray(3, 6.0, Spot(0, 1.5, 0)) && !GetsHome(3, 6.0, 0.25, 0, 1.5)
    ensures !Astray(3, 6.0, Spot(0, 3.25, 0)) && GetsHome(3, 6.0, 0.25, 0, 3.25)
  {
  }

  // ------------------------------------------------------------ three axes

  datatype Traveller = Traveller(c: Coord, pos: V3<real>, image: V3<int>)

  function SpotOf(t: Traveller, a: Axis): Spot {
    Spot(t.c.At(a), t.pos.At(a), t.image.At(a))
  }

  /** The test by which a rank selects particles for sending in direction `d`. */
  predicate LeavesIn(dom: Domain, t: Traveller, d: Dir)
    requires dom.Valid()
  {
    var a := AxisOf(d);
    if d % 2 == 0 then LeavesUp(dom.grid.At(a), dom.L.At(a), SpotOf(t, a))
    else LeavesDown(dom.grid.At(a), dom.L.At(a), SpotOf(t, a))
  }

  /** Arriving on rank `c`: all three coordinates are wrapped and the image flags adjusted. */
  function LandOn(dom: Domain, c: Coord, pos: V3<real>, image: V3<int>): Traveller
    requires dom.Valid()
  {
    var lx := Land(dom.grid.x, dom.L.At(0), dom.rGhost, Spot(c.x, pos.x, image.x));
    var ly := Land(dom.grid.y, dom.L.At(1), dom.rGhost, Spot(c.y, pos.y, image.y));
    var lz := Land(dom.grid.z, dom.L.At(2), dom.rGhost, Spot(c.z, pos.z, image.z));
    Traveller(c, V3(lx.x, ly.x, lz.x), V3(lx.image, ly.image, lz.image))
  }

  function Advance(dom: Domain, t: Traveller, d: Dir): Traveller
    requires dom.Valid()
  {
    if LeavesIn(dom, t, d) then LandOn(dom, Neighbor(dom.grid, t.c, d), t.pos, t.image) else t
  }

  /** The traveller after the first `k` directions. */
  function Travel(dom: Domain, t: Traveller, k: nat): Traveller
    requires dom.Valid() && k <= 6
  {
    if k == 0 then t else Advance(dom, Travel(dom, t, k - 1), k - 1)
  }

  lemma AdvanceSpots(dom: Domain, t: Traveller, d: Dir)
    requires dom.Valid() && InGrid(dom.grid, t.c)
    ensures InGrid(dom.grid, Advance(dom, t, d).c)
    ensures forall a: Axis :: SpotOf(Advance(dom, t, d), a) ==
              if !LeavesIn(dom, t, d) then SpotOf(t, a)
              else if a == AxisOf(d) then Hop(dom.grid.At(a), dom.L.At(a), dom.rGhost, SpotOf(t, a), Sign(d))
              else Land(dom.grid.At(a), dom.L.At(a), dom.rGhost, SpotOf(t, a))
  {
    NeighborMoves(dom.grid, t.c, d);
  }

  lemma HopKeepsUnwrapped(n: int, L: real, rg: real, s: Spot, sign: int)
    requires n >= 1 && L > 0.0
    ensures Unwrapped(L, Hop(n, L, rg, s, sign)) == Unwrapped(L, s)
  {
    LandKeepsUnwrapped(n, L, rg, s.(c := Step(s.c + sign, n)));
  }

  lemma AdvanceKeepsUnwrapped(dom: Domain, t: Traveller, d: Dir, a: Axis)
    requires dom.Valid() && InGrid(dom.grid, t.c)
    ensures Unwrapped(dom.L.At(a), SpotOf(Advance(dom, t, d), a)) == Unwrapped(dom.L.At(a), SpotOf(t, a))
  {
    AdvanceSpots(dom, t, d);
    HopKeepsUnwrapped(dom.grid.At(a), dom.L.At(a), dom.rGhost, SpotOf(t, a), Sign(d));
    LandKeepsUnwrapped(dom.grid.At(a), dom.L.At(a), dom.rGhost, SpotOf(t, a));
  }

  /** The unwrapped position - position plus image flag times box length - never changes. */
  lemma {:induction false} TravelKeepsUnwrapped(dom: Domain, t: Traveller, k: nat, a: Axis)
    requires dom.Valid() && InGrid(dom.grid, t.c) && k <= 6
    ensures InGrid(dom.grid, Travel(dom, t, k).c)
    ensures Unwrapped(dom.L.At(a), SpotOf(Travel(dom, t, k), a)) == Unwrapped(dom.L.At(a), SpotOf(t, a))
  {
    if k > 0 {
      TravelKeepsUnwrapped(dom, t, k - 1, a);
      AdvanceSpots(dom, Travel(dom, t, k - 1), k - 1);
      AdvanceKeepsUnwrapped(dom, Travel(dom, t, k - 1), k - 1, a);
    }
  }

  // ------------------------------------------------------------ homecoming

  /** Axis `a` is cut into several domains and the particle lies outside its own. */
  ghost predicate Strays(dom: Domain, t: Traveller, a: Axis)
    requires dom.Valid()
  {
    dom.grid.At(a) >= 2 && !Inside(dom.grid.At(a), dom.L.At(a), t.c.At(a), t.pos.At(a))
  }

  /** Some axis before `k` makes the particle change hands. */
  ghost predicate HandedBefore(dom: Domain, t: Traveller, k: nat)
    requires dom.Valid() && k <= 3
  {
    exists b: Axis :: b < k && Strays(dom, t, b)
  }

  /** Axis `a` of the particle when the first `k` axes have been dealt with. The axes are independent, except that each
      hop along one of them makes the receiver wrap all the others. */
  function SpotAfter(dom: Domain, t: Traveller, k: nat, a: Axis): Spot
    requires dom.Valid() && k <= 3
  {
    if k == 0 then SpotOf(t, a)
    else
      var b: Axis := k - 1;
      var before := SpotAfter(dom, t, b, b);
      if a == b then BothWays(dom.grid.At(a), dom.L.At(a), dom.rGhost, before)
      else LandTimes(dom.grid.At(a), dom.L.At(a), dom.rGhost, SpotAfter(dom, t, b, a),
                     Hops(dom.grid.At(b), dom.L.At(b), dom.rGhost, before))
  }

  /** A traveller in the state expected after the first `k` axes. */
  ghost predicate Expected(dom: Domain, t: Traveller, u: Traveller, k: nat)
    requires dom.Valid() && k <= 3
  {
    InGrid(dom.grid, u.c) && forall a: Axis :: SpotOf(u, a) == SpotAfter(dom, t, k, a)
  }

  /** The effect of the two directions of axis `k` on one axis. */
  lemma TwoDirectionsOn(dom: Domain, u: Traveller, k: Axis, a: Axis)
    requires dom.Valid() && InGrid(dom.grid, u.c)
    ensures var v := Advance(dom, Advance(dom, u, 2 * k), 2 * k + 1);
            var n, L, rg := dom.grid.At(a), dom.L.At(a), dom.rGhost;
            && InGrid(dom.grid, v.c)
            && SpotOf(v, a) == if a == k then BothWays(n, L, rg, SpotOf(u, a))
                               else LandTimes(n, L, rg, SpotOf(u, a), Hops(dom.grid.At(k), dom.L.At(k), rg, SpotOf(u, k)))
  {
    AdvanceSpots(dom, u, 2 * k);
    AdvanceSpots(dom, Advance(dom, u, 2 * k), 2 * k + 1);
    var n, L, rg, s := dom.grid.At(a), dom.L.At(a), dom.rGhost, SpotOf(u, a);
    assert LandTimes(n, L, rg, s, 1) == Land(n, L, rg, s);
    assert LandTimes(n, L, rg, s, 2) == Land(n, L, rg, LandTimes(n, L, rg, s, 1));
  }

  lemma TwoDirections(dom: Domain, t: Traveller, k: Axis)
    requires dom.Valid()
    ensures Travel(dom, t, 2 * k + 2) == Advance(dom, Advance(dom, Travel(dom, t, 2 * k), 2 * k), 2 * k + 1)
  {
    assert Travel(dom, t, 2 * k + 1) == Advance(dom, Travel(dom, t, 2 * k), 2 * k);
  }

  /** The six directions act on the three axes one after the other, wherever the particle starts. */
  lemma {:induction false} TravelSpots(dom: Domain, t: Traveller, k: nat)
    requires dom.Valid() && InGrid(dom.grid, t.c) && k <= 3
    ensures Expected(dom, t, Travel(dom, t, 2 * k), k)
  {
    if k > 0 {
      TravelSpots(dom, t, k - 1);
      TwoDirections(dom, t, k - 1);
      var u := Travel(dom, t, 2 * (k - 1));
      forall a: Axis
        ensures SpotOf(Travel(dom, t, 2 * k), a) == SpotAfter(dom, t, k, a) && InGrid(dom.grid, Travel(dom, t, 2 * k).c)
      {
        TwoDirectionsOn(dom, u, k - 1, a);
        assert SpotOf(u, a) == SpotAfter(dom, t, k - 1, a) && SpotOf(u, k - 1) == SpotAfter(dom, t, k - 1, k - 1);
      }
    }
  }

  /** Axis `a` before its own turn, if no earlier axis has handed the particle on. */
  lemma {:induction false} NotTouched(dom: Domain, t: Traveller, k: nat, a: Axis)
    requires dom.Valid() && InGrid(dom.grid, t.c) && k <= a && !HandedBefore(dom, t, k)
    ensures SpotAfter(dom, t, k, a) == SpotOf(t, a)
  {
    if k > 0 {
      NotTouched(dom, t, k - 1, k - 1);
      NotTouched(dom, t, k - 1, a);
      assert !Strays(dom, t, k - 1);
      HopsIfStraying(dom, t, k - 1);
    }
  }

  lemma HopsIfStraying(dom: Domain, t: Traveller, b: Axis)
    requires dom.Valid() && InGrid(dom.grid, t.c)
    ensures Hops(dom.grid.At(b), dom.L.At(b), dom.rGhost, SpotOf(t, b)) == 0 <==> !Strays(dom, t, b)
  {
    if dom.grid.At(b) >= 2 {
      HopsOutside(dom.grid.At(b), dom.L.At(b), dom.rGhost, SpotOf(t, b));
    }
  }

  lemma HandedNext(dom: Domain, t: Traveller, k: Axis)
    requires dom.Valid()
    ensures HandedBefore(dom, t, k + 1) <==> HandedBefore(dom, t, k) || Strays(dom, t, k)
  {
  }

  /** The particle is owned by a rank of the grid, and its coordinate on the decomposed axis `a` is one that can be wrapped. */
  ghost predicate Wrappable(dom: Domain, t: Traveller, a: Axis)
    requires dom.Valid()
  {
    && dom.GhostWidthAccepted() && InGrid(dom.grid, t.c) && dom.grid.At(a) >= 2
    && WithinOneBox(dom.L.At(a), dom.rGhost, t.pos.At(a))
  }

  /** Axis `a` before its own turn: wrapped once if an earlier axis has handed the particle on. */
  lemma {:induction false} BeforeItsTurn(dom: Domain, t: Traveller, k: nat, a: Axis)
    requires dom.Valid() && Wrappable(dom, t, a) && k <= a
    ensures SpotAfter(dom, t, k, a) ==
            Entering(dom.grid.At(a), dom.L.At(a), dom.rGhost, SpotOf(t, a), HandedBefore(dom, t, k))
  {
    var n, L, rg, s := dom.grid.At(a), dom.L.At(a), dom.rGhost, SpotOf(t, a);
    if k > 0 {
      BeforeItsTurn(dom, t, k - 1, a);
      HandedNext(dom, t, k - 1);
      var hops := Hops(dom.grid.At(k - 1), dom.L.At(k - 1), rg, SpotAfter(dom, t, k - 1, k - 1));
      if HandedBefore(dom, t, k - 1) {
        LandedStays(n, L, rg, s);
        LandTimesStays(n, L, rg, Land(n, L, rg, s), hops);
      } else {
        NotTouched(dom, t, k - 1, k - 1);
        HopsIfStraying(dom, t, k - 1);
        LandTimesOnce(n, L, rg, s, hops);
      }
    }
  }

  /** Axis `a` after its own turn: later receivers do not touch it again. */
  lemma {:induction false} AfterItsTurn(dom: Domain, t: Traveller, k: nat, a: Axis)
    requires dom.Valid() && Wrappable(dom, t, a) && a < k <= 3
    ensures SpotAfter(dom, t, k, a) == BothWays(dom.grid.At(a), dom.L.At(a), dom.rGhost, SpotAfter(dom, t, a, a))
    ensures Land(dom.grid.At(a), dom.L.At(a), dom.rGhost, SpotAfter(dom, t, k, a)) == SpotAfter(dom, t, k, a)
  {
    var n, L, rg := dom.grid.At(a), dom.L.At(a), dom.rGhost;
    if k == a + 1 {
      BeforeItsTurn(dom, t, a, a);
      LandedStays(n, L, rg, SpotOf(t, a));
      ThereToStay(n, L, rg, SpotAfter(dom, t, a, a));
    } else {
      AfterItsTurn(dom, t, k - 1, a);
      LandTimesStays(n, L, rg, SpotAfter(dom, t, k - 1, a),
                     Hops(dom.grid.At(k - 1), dom.L.At(k - 1), rg, SpotAfter(dom, t, k - 1, k - 1)));
    }
  }

  /** Where the particle is on axis `a` when the directions of this axis begin. */
  ghost function EnteringAt(dom: Domain, t: Traveller, a: Axis): real
    requires dom.Valid()
  {
    Entering(dom.grid.At(a), dom.L.At(a), dom.rGhost, SpotOf(t, a), HandedBefore(dom, t, a)).x
  }

  /** The condition for getting home on axis `a`, in terms of where the particle is before the migration. */
  ghost predicate FindsHome(dom: Domain, t: Traveller, a: Axis)
    requires dom.Valid()
  {
    GetsHome(dom.grid.At(a), dom.L.At(a), dom.rGhost, t.c.At(a), EnteringAt(dom, t, a))
  }

  /** Migration takes a particle home - into the domain of the rank that owns it after the six steps - on a decomposed axis
      if and only if it finds home there, whatever happens on the other axes. */
  lemma Homecoming(dom: Domain, t: Traveller, a: Axis)
    requires dom.Valid() && Wrappable(dom, t, a)
    ensures InGrid(dom.grid, Travel(dom, t, 6).c)
    ensures Inside(dom.grid.At(a), dom.L.At(a), Travel(dom, t, 6).c.At(a), Travel(dom, t, 6).pos.At(a)) <==> FindsHome(dom, t, a)
  {
    TravelSpots(dom, t, 3);
    var v := Travel(dom, t, 6);
    BeforeItsTurn(dom, t, a, a);
    AfterItsTurn(dom, t, 3, a);
    assert SpotOf(v, a) == SpotAfter(dom, t, 3, a);
    AxisFate(dom.grid.At(a), dom.L.At(a), dom.rGhost, SpotAfter(dom, t, a, a));
  }

  /** The particle leaves across the global boundary on an axis with three or more sub-domains, at least two ghost widths
      deep, after having been handed on along an earlier axis - its receiver wraps it back too soon. */
  ghost predicate WrappedTooSoon(dom: Domain, t: Traveller, a: Axis)
    requires dom.Valid()
  {
    HandedBefore(dom, t, a) && Misdirected(dom.grid.At(a), dom.L.At(a), dom.rGhost, SpotOf(t, a))
  }

  /** For a particle less than one sub-domain away from its domain that is the only way to miss. */
  lemma ShortStraysGetHome(dom: Domain, t: Traveller, a: Axis)
    requires dom.Valid() && dom.GhostWidthAccepted() && InGrid(dom.grid, t.c) && dom.grid.At(a) >= 2
    requires Astray(dom.grid.At(a), dom.L.At(a), SpotOf(t, a))
    ensures Inside(dom.grid.At(a), dom.L.At(a), Travel(dom, t, 6).c.At(a), Travel(dom, t, 6).pos.At(a))
            <==> !WrappedTooSoon(dom, t, a)
  {
    ShortStrayFate(dom.grid.At(a), dom.L.At(a), dom.rGhost, SpotOf(t, a), HandedBefore(dom, t, a));
    Homecoming(dom, t, a);
  }

  /** An instance: on a 2 x 3 x 1 grid a particle that has left its domain to the east and, by three
      ghost widths, the global box to the north is not home after the migration. */
  lemma NotEveryParticleGetsHome() returns (dom: Domain, t: Traveller)
    ensures dom.Valid() && Wrappable(dom, t, 1) && Astray(3, dom.L.At(1), SpotOf(t, 1)) && dom.grid.At(1) == 3
    ensures !Inside(dom.grid.At(1), dom.L.At(1), Travel(dom, t, 6).c.At(1), Travel(dom, t, 6).pos.At(1))
  {
    dom := Domain(V3(2, 3, 1), V3(4.0, 6.0, 1.0), 0.25);
    t := Traveller(V3(0, 2, 0), V3(0.5, 3.75, 0.0), V3(0, 0, 0));
    assert Strays(dom, t, 0);
    assert WrappedTooSoon(dom, t, 1);
    ShortStraysGetHome(dom, t, 1);
  }
}
