/** The buffered exchange: particles travel in corner, edge and face buffers along the routing
    table instead of carrying their plan. With replication it delivers the same ghosts as the
    plain exchange; with a unique destination every particle ends up on one rank only. */
module GpuExchange {
  import opened Vectors
  import opened Decomposition
  import opened Box
  import opened Routing
  import G = GhostExchange
  import Geo = GhostGeometry

  datatype Entry = Entry(tag: nat, pos: V3<real>, attr: Attr)

  /** The contents of the buffers of one rank. */
  type Store = Buffer -> seq<Entry>

  function Tags(es: seq<Entry>): (ts: seq<nat>)
    ensures |ts| == |es| && forall i :: 0 <= i < |es| ==> ts[i] == es[i].tag
  {
    seq(|es|, i requires 0 <= i < |es| => es[i].tag)
  }

  function Count(es: seq<Entry>, t: nat): nat {
    multiset(Tags(es))[t]
  }

  lemma CountJoin(es: seq<Entry>, fs: seq<Entry>, t: nat)
    ensures Count(es + fs, t) == Count(es, t) + Count(fs, t)
  {
    assert Tags(es + fs) == Tags(es) + Tags(fs);
  }

  // ------------------------------------------------------------ the buffered exchange

  /** The buffers sent in one step, in the order of the messages. */
  function Source(d: Dir, k: nat): Buffer
    requires k < 21
  {
    if k < 8 then Corner(k) else if k < 20 then Edge(k - 8) else Face(d)
  }

  /** Buffer `b` is sent into the neighbour's buffer `b'`. With a unique destination particles are not
      replicated: corners only go on to edges, and edges only to faces. */
  predicate Sends(g: Grid, once: bool, d: Dir, b: Buffer, b': Buffer) {
    && Destination(g, d, b) == Some(b')
    && (once ==> (b.Corner? ==> b'.Edge?) && (b.Edge? ==> b'.Face?))
  }

  /** What the first `k` messages put into buffer `b`, given the sender's buffers. */
  function Forwarded(g: Grid, once: bool, d: Dir, theirs: Store, b: Buffer, k: nat): seq<Entry>
    requires k <= 21
  {
    if k == 0 then []
    else Forwarded(g, once, d, theirs, b, k - 1) + if Sends(g, once, d, Source(d, k - 1), b) then theirs(Source(d, k - 1)) else []
  }

  /** The contents of buffer `b` of rank `c` after the first `d` directions. */
  function Stored(g: Grid, packed: Coord -> Store, once: bool, d: nat, c: Coord, b: Buffer): seq<Entry>
    requires d <= 6
    decreases d, 0
  {
    if d == 0 then packed(c)(b)
    else if Communicating(g, d - 1) then
      Stored(g, packed, once, d - 1, c, b)
      + Forwarded(g, once, d - 1, StoreOf(g, packed, once, d - 1, Neighbor(g, c, Opposite(d - 1))), b, 21)
    else Stored(g, packed, once, d - 1, c, b)
  }

  function StoreOf(g: Grid, packed: Coord -> Store, once: bool, d: nat, c: Coord): Store
    requires d <= 6
    decreases d, 1
  {
    (b: Buffer) => Stored(g, packed, once, d, c, b)
  }

  /** The tag is in one buffer at most, `n` times. */
  ghost predicate OnlyIn(s: Store, t: nat, b: Buffer, n: nat) {
    forall b' :: Count(s(b'), t) == if b' == b then n else 0
  }

  lemma {:induction false} ForwardedCount(g: Grid, once: bool, d: Dir, theirs: Store, b: Buffer, k: nat, t: nat, src: Buffer, n: nat)
    requires k <= 21 && OnlyIn(theirs, t, src, n)
    ensures Count(Forwarded(g, once, d, theirs, b, k), t) ==
            if Sends(g, once, d, src, b) && exists j :: 0 <= j < k && Source(d, j) == src then n else 0
  {
    if k > 0 {
      ForwardedCount(g, once, d, theirs, b, k - 1, t, src, n);
      var last := Source(d, k - 1);
      CountJoin(Forwarded(g, once, d, theirs, b, k - 1), if Sends(g, once, d, last, b) then theirs(last) else [], t);
      assert Count(theirs(last), t) == if last == src then n else 0;
      assert Tags([]) == [];
      assert forall j :: 0 <= j < k ==> (Source(d, j) == src <==> (Source(d, j) == src && (j < k - 1 || j == k - 1)));
      SourcesDiffer(d, k - 1, src);
    } else {
      assert Tags(Forwarded(g, once, d, theirs, b, k)) == [];
    }
  }

  lemma SourcesDiffer(d: Dir, k: nat, src: Buffer)
    requires k < 21
    ensures Source(d, k) == src ==> forall j :: 0 <= j < k ==> Source(d, j) != src
  {
  }

  /** Every buffer that has the direction is among the sources. */
  lemma SourceFound(g: Grid, d: Dir, b: Buffer)
    requires Destination(g, d, b).Some?
    ensures exists j :: 0 <= j < 21 && Source(d, j) == b
  {
    match b
    case Corner(i) => assert Source(d, i) == b;
    case Edge(i) => assert Source(d, 8 + i) == b;
    case Face(f) => assert Source(d, 20) == b;
    case Local => assert false;
  }

  // ------------------------------------------------------------ where a particle is stored

  /** The plan restricted to the communicating directions. */
  function Itinerary(g: Grid, plan: set<Dir>): (w: Way)
    ensures IsWay(w)
  {
    V3(AxisWay(g, plan, 0), AxisWay(g, plan, 1), AxisWay(g, plan, 2))
  }

  function AxisWay(g: Grid, plan: set<Dir>, a: Axis): int {
    if g.At(a) == 1 then 0 else if 2 * a in plan then 1 else if 2 * a + 1 in plan then -1 else 0
  }

  function DirectionOn(a: Axis, sign: int): Dir {
    if sign == 1 then 2 * a else 2 * a + 1
  }

  /** Rank `c` is off rank `p` by some of the directions of `w` that come before `d`. */
  predicate Reached(g: Grid, w: Way, d: nat, p: Coord, c: Coord) {
    ReachedOn(g, w, d, p, c, 0) && ReachedOn(g, w, d, p, c, 1) && ReachedOn(g, w, d, p, c, 2)
  }

  predicate ReachedOn(g: Grid, w: Way, d: nat, p: Coord, c: Coord, a: Axis) {
    || c.At(a) == p.At(a)
    || (w.At(a) != 0 && DirectionOn(a, w.At(a)) < d && c.At(a) == Step(p.At(a) + w.At(a), g.At(a)))
  }

  /** What remains of the plan `w` on rank `c`: nothing on the axes up to the last one moved along. */
  function Left(w: Way, p: Coord, c: Coord): Way {
    V3(if c.x == p.x && c.y == p.y && c.z == p.z then w.x else 0,
       if c.y == p.y && c.z == p.z then w.y else 0,
       if c.z == p.z then w.z else 0)
  }

  /** Every direction of `w` that does not remain has been taken. */
  predicate NoneSkipped(w: Way, p: Coord, c: Coord) {
    && (w.x != 0 && Left(w, p, c).x == 0 ==> c.x != p.x)
    && (w.y != 0 && Left(w, p, c).y == 0 ==> c.y != p.y)
    && (w.z != 0 && Left(w, p, c).z == 0 ==> c.z != p.z)
  }

  /** Rank `c` stores a particle of rank `p` with plan `w`, after `d` directions. */
  predicate Keeps(g: Grid, once: bool, w: Way, d: nat, p: Coord, c: Coord) {
    && Reached(g, w, d, p, c)
    && (c != p || w != V3(0, 0, 0))
    && (once ==> NoneSkipped(w, p, c))
  }

  /** A plan fits the grid if it only has communicating directions. */
  predicate Fits(g: Grid, w: Way) {
    IsWay(w) && forall a: Axis :: w.At(a) != 0 ==> g.At(a) != 1
  }

  /** The buffer in which a rank stores a particle, if it does. */
  function Slot(w: Way, p: Coord, c: Coord): Buffer
    requires IsWay(w)
  {
    BufferFor(Left(w, p, c))
  }

  /** A rank to which a particle is forwarded stores it in the buffer it is sent to, and did not store it before. */
  lemma HopArrives(g: Grid, once: bool, w: Way, d: Dir, p: Coord, from: Coord, b: Buffer)
    requires InGrid(g, p) && InGrid(g, from) && Fits(g, w) && Keeps(g, once, w, d, p, from)
    requires Sends(g, once, d, Slot(w, p, from), b)
    ensures var c := Neighbor(g, from, d);
            Keeps(g, once, w, d + 1, p, c) && !Keeps(g, once, w, d, p, c) && b == Slot(w, p, c)
  {
    var c := Neighbor(g, from, d);
    NeighborMoves(g, from, d);
    assert w.At(AxisOf(d)) == Sign(d) && from.At(AxisOf(d)) == p.At(AxisOf(d));
    assert c.At(AxisOf(d)) == Step(p.At(AxisOf(d)) + Sign(d), g.At(AxisOf(d))) != p.At(AxisOf(d));
    WayDecides(b);
    assert Left(w, p, c) == Rest(Left(w, p, from), AxisOf(d));
  }

  /** A rank that stores a particle anew received it from the upstream neighbour. */
  lemma HopBack(g: Grid, once: bool, w: Way, d: Dir, p: Coord, c: Coord)
    requires InGrid(g, p) && InGrid(g, c) && Fits(g, w)
    requires Keeps(g, once, w, d + 1, p, c) && !Keeps(g, once, w, d, p, c)
    ensures var from := Neighbor(g, c, Opposite(d));
            Communicating(g, d) && Keeps(g, once, w, d, p, from) && Sends(g, once, d, Slot(w, p, from), Slot(w, p, c))
  {
    var from := Neighbor(g, c, Opposite(d));
    NeighborMoves(g, c, Opposite(d));
    assert w.At(AxisOf(d)) == Sign(d) && c.At(AxisOf(d)) == Step(p.At(AxisOf(d)) + Sign(d), g.At(AxisOf(d)));
    assert from.At(AxisOf(d)) == p.At(AxisOf(d));
    assert Has(Left(w, p, from), d);
    assert Left(w, p, c) == Rest(Left(w, p, from), AxisOf(d));
  }

  // ------------------------------------------------------------ the contents of all buffers, exactly

  /** A particle of the system as far as forwarding is concerned: whether it exists, its owner, its plan. */
  datatype Origin = Origin(present: bool, owner: Coord, way: Way)

  ghost predicate Stores(g: Grid, s: Store, once: bool, o: Origin, d: nat, c: Coord, t: nat)
    requires Fits(g, o.way)
  {
    OnlyIn(s, t, Slot(o.way, o.owner, c), if o.present && Keeps(g, once, o.way, d, o.owner, c) then 1 else 0)
  }

  lemma StartStores(g: Grid, packed: Coord -> Store, once: bool, o: Origin, c: Coord, t: nat)
    requires Fits(g, o.way)
    requires forall b :: Count(packed(c)(b), t) ==
                         if o.present && o.owner == c && o.way != V3(0, 0, 0) && b == BufferFor(o.way) then 1 else 0
    ensures Stores(g, StoreOf(g, packed, once, 0, c), once, o, 0, c, t)
  {
    assert Reached(g, o.way, 0, o.owner, c) <==> c == o.owner;
    assert c == o.owner ==> Left(o.way, o.owner, c) == o.way;
    var s := StoreOf(g, packed, once, 0, c);
    forall b: Buffer
      ensures Count(s(b), t) == if b == Slot(o.way, o.owner, c) && o.present && Keeps(g, once, o.way, 0, o.owner, c) then 1 else 0
    {
    }
  }

  lemma StepStores(g: Grid, packed: Coord -> Store, once: bool, o: Origin, d: Dir, c: Coord, t: nat)
    requires Fits(g, o.way) && InGrid(g, c) && InGrid(g, o.owner) && Communicating(g, d)
    requires Stores(g, StoreOf(g, packed, once, d, c), once, o, d, c, t)
    requires Stores(g, StoreOf(g, packed, once, d, Neighbor(g, c, Opposite(d))), once, o, d, Neighbor(g, c, Opposite(d)), t)
    ensures Stores(g, StoreOf(g, packed, once, d + 1, c), once, o, d + 1, c, t)
  {
    var from, s' := Neighbor(g, c, Opposite(d)), StoreOf(g, packed, once, d + 1, c);
    var mine, theirs := StoreOf(g, packed, once, d, c), StoreOf(g, packed, once, d, from);
    forall b: Buffer
      ensures Count(s'(b), t) ==
              if b == Slot(o.way, o.owner, c) && o.present && Keeps(g, once, o.way, d + 1, o.owner, c) then 1 else 0
    {
      assert s'(b) == mine(b) + Forwarded(g, once, d, theirs, b, 21);
      CountNext(g, once, o, d, c, t, mine, theirs, b);
    }
  }

  lemma CountNext(g: Grid, once: bool, o: Origin, d: Dir, c: Coord, t: nat, mine: Store, theirs: Store, b: Buffer)
    requires Fits(g, o.way) && InGrid(g, c) && InGrid(g, o.owner) && Communicating(g, d)
    requires Stores(g, mine, once, o, d, c, t)
    requires Stores(g, theirs, once, o, d, Neighbor(g, c, Opposite(d)), t)
    ensures Count(mine(b) + Forwarded(g, once, d, theirs, b, 21), t) ==
            if b == Slot(o.way, o.owner, c) && o.present && Keeps(g, once, o.way, d + 1, o.owner, c) then 1 else 0
  {
    var from := Neighbor(g, c, Opposite(d));
    Upstream(g, c, d);
    var src, n := Slot(o.way, o.owner, from), if o.present && Keeps(g, once, o.way, d, o.owner, from) then 1 else 0;
    CountJoin(mine(b), Forwarded(g, once, d, theirs, b, 21), t);
    ForwardedCount(g, once, d, theirs, b, 21, t, src, n);
    assert Count(mine(b), t) == if b == Slot(o.way, o.owner, c) && o.present && Keeps(g, once, o.way, d, o.owner, c) then 1 else 0;
    if Sends(g, once, d, src, b) {
      SourceFound(g, d, src);
    }
    OneHop(g, once, o.way, d, o.owner, c, b);
  }

  /** Storing after one more direction: stored before, or just arrived, but not both. */
  lemma OneHop(g: Grid, once: bool, w: Way, d: Dir, p: Coord, c: Coord, b: Buffer)
    requires InGrid(g, p) && InGrid(g, c) && Fits(g, w) && Communicating(g, d)
    ensures var from := Neighbor(g, c, Opposite(d));
            var arrives := Keeps(g, once, w, d, p, from) && Sends(g, once, d, Slot(w, p, from), b);
            && (arrives ==> b == Slot(w, p, c) && Keeps(g, once, w, d + 1, p, c) && !Keeps(g, once, w, d, p, c))
            && (b == Slot(w, p, c) && Keeps(g, once, w, d + 1, p, c) && !Keeps(g, once, w, d, p, c) ==> arrives)
            && (Keeps(g, once, w, d, p, c) ==> Keeps(g, once, w, d + 1, p, c))
  {
    var from := Neighbor(g, c, Opposite(d));
    Upstream(g, c, d);
    if Keeps(g, once, w, d, p, from) && Sends(g, once, d, Slot(w, p, from), b) {
      HopArrives(g, once, w, d, p, from, b);
    }
    if Keeps(g, once, w, d + 1, p, c) && !Keeps(g, once, w, d, p, c) {
      HopBack(g, once, w, d, p, c);
    }
    KeepsOn(g, once, w, d, p, c);
  }

  lemma KeepsOn(g: Grid, once: bool, w: Way, d: Dir, p: Coord, c: Coord)
    ensures Keeps(g, once, w, d, p, c) ==> Keeps(g, once, w, d + 1, p, c)
  {
  }

  lemma IdleStores(g: Grid, packed: Coord -> Store, once: bool, o: Origin, d: Dir, c: Coord, t: nat)
    requires Fits(g, o.way) && !Communicating(g, d)
    requires Stores(g, StoreOf(g, packed, once, d, c), once, o, d, c, t)
    ensures Stores(g, StoreOf(g, packed, once, d + 1, c), once, o, d + 1, c, t)
  {
    assert o.way.At(AxisOf(d)) == 0;
    assert Keeps(g, once, o.way, d + 1, o.owner, c) <==> Keeps(g, once, o.way, d, o.owner, c);
    var s, s' := StoreOf(g, packed, once, d, c), StoreOf(g, packed, once, d + 1, c);
    forall b: Buffer
      ensures Count(s'(b), t) == if b == Slot(o.way, o.owner, c) && o.present && Keeps(g, once, o.way, d + 1, o.owner, c) then 1 else 0
    {
      assert Stored(g, packed, once, d + 1, c, b) == Stored(g, packed, once, d, c, b);
      assert s(b) == Stored(g, packed, once, d, c, b);
    }
  }

  /** In every buffer of every rank, after any number of directions, a tag occurs once or not at all,
      and it occurs exactly where its plan has led it so far. */
  lemma {:induction false} BufferContents(g: Grid, packed: Coord -> Store, once: bool, o: Origin, d: nat, c: Coord, t: nat)
    requires Fits(g, o.way) && InGrid(g, c) && InGrid(g, o.owner) && d <= 6
    requires forall c, b :: InGrid(g, c) ==>
               Count(packed(c)(b), t) ==
               if o.present && o.owner == c && o.way != V3(0, 0, 0) && b == BufferFor(o.way) then 1 else 0
    ensures Stores(g, StoreOf(g, packed, once, d, c), once, o, d, c, t)
  {
    if d == 0 {
      StartStores(g, packed, once, o, c, t);
    } else {
      var from := Neighbor(g, c, Opposite(d - 1));
      Upstream(g, c, d - 1);
      BufferContents(g, packed, once, o, d - 1, c, t);
      BufferContents(g, packed, once, o, d - 1, from, t);
      if Communicating(g, d - 1) {
        StepStores(g, packed, once, o, d - 1, c, t);
      } else {
        IdleStores(g, packed, once, o, d - 1, c, t);
      }
    }
  }

  // ------------------------------------------------------------ the same ghosts as the plain exchange

  /** Sorting into buffers puts every particle with a communicating plan into the one buffer for that plan. */
  ghost predicate Packs(g: Grid, owned: G.Owned, dir: G.Directory, packed: Coord -> Store) {
    forall c: Coord, b: Buffer, t: nat :: InGrid(g, c) ==>
      Count(packed(c)(b), t) == if OriginOf(g, owned, dir, t).present && PackedAt(OriginOf(g, owned, dir, t), c, b) then 1 else 0
  }

  ghost predicate PackedAt(o: Origin, c: Coord, b: Buffer)
    requires IsWay(o.way)
  {
    o.owner == c && o.way != V3(0, 0, 0) && b == BufferFor(o.way)
  }

  ghost function OriginOf(g: Grid, owned: G.Owned, dir: G.Directory, t: nat): (o: Origin)
    ensures Fits(g, o.way)
  {
    Origin(G.Exists(g, owned, dir, t), dir.owner(t), Itinerary(g, dir.plan(t)))
  }

  /** The entries that buffer `b` gets from the particles `es`. */
  function Classified(g: Grid, es: seq<G.Copy>, b: Buffer): seq<Entry> {
    if es == [] then []
    else
      var last := es[|es| - 1];
      var w := Itinerary(g, last.plan);
      Classified(g, es[..|es| - 1], b)
      + if w != V3(0, 0, 0) && b == BufferFor(w) then [Entry(last.tag, last.pos, last.attr)] else []
  }

  function AllClassified(g: Grid, owned: G.Owned): Coord -> Store {
    (c: Coord) => ((b: Buffer) => Classified(g, owned(c), b))
  }

  lemma {:induction false} ClassifiedCount(g: Grid, es: seq<G.Copy>, b: Buffer, t: nat, w: Way)
    requires IsWay(w) && G.Distinct(es) && forall i :: 0 <= i < |es| && es[i].tag == t ==> Itinerary(g, es[i].plan) == w
    ensures Count(Classified(g, es, b), t) == if t in G.Tags(es) && w != V3(0, 0, 0) && b == BufferFor(w) then 1 else 0
    decreases |es|
  {
    if es != [] {
      var rest, last := es[..|es| - 1], es[|es| - 1];
      ClassifiedCount(g, rest, b, t, w);
      assert G.Tags(es) == G.Tags(rest) + [last.tag];
      assert last.tag !in G.Tags(rest);
      CountJoin(Classified(g, rest, b), Classified(g, es, b)[|Classified(g, rest, b)|..], t);
      assert Classified(g, es, b) == Classified(g, rest, b) + Classified(g, es, b)[|Classified(g, rest, b)|..];
    }
  }

  lemma {:induction false} ClassifiedMembers(g: Grid, es: seq<G.Copy>, b: Buffer, e: Entry)
    requires e in Classified(g, es, b)
    ensures exists i :: 0 <= i < |es| && es[i].tag == e.tag && es[i].pos == e.pos && es[i].attr == e.attr
    decreases |es|
  {
    var rest, last := es[..|es| - 1], es[|es| - 1];
    if e in Classified(g, rest, b) {
      ClassifiedMembers(g, rest, b, e);
      var i :| 0 <= i < |rest| && rest[i].tag == e.tag && rest[i].pos == e.pos && rest[i].attr == e.attr;
      assert es[i] == rest[i];
    }
  }

  /** Sorting the particles into buffers one after the other does that. */
  lemma ClassifiedPacks(g: Grid, owned: G.Owned, dir: G.Directory)
    requires G.Registered(g, owned, dir)
    ensures Packs(g, owned, dir, AllClassified(g, owned)) && PackedFrom(g, owned, AllClassified(g, owned))
  {
    var packed := AllClassified(g, owned);
    forall c: Coord, b: Buffer, t: nat | InGrid(g, c)
      ensures Count(packed(c)(b), t) == if OriginOf(g, owned, dir, t).present && PackedAt(OriginOf(g, owned, dir, t), c, b) then 1 else 0
    {
      var es := owned(c);
      forall i | 0 <= i < |es| && es[i].tag == t
        ensures Itinerary(g, es[i].plan) == Itinerary(g, dir.plan(t))
      {
        assert dir.plan(es[i].tag) == es[i].plan;
      }
      ClassifiedCount(g, es, b, t, Itinerary(g, dir.plan(t)));
    }
    forall c: Coord, b: Buffer, e: Entry | InGrid(g, c) && e in packed(c)(b)
      ensures exists i :: 0 <= i < |owned(c)| && owned(c)[i].tag == e.tag && owned(c)[i].pos == e.pos && owned(c)[i].attr == e.attr
    {
      ClassifiedMembers(g, owned(c), b, e);
    }
  }

  /** Restricted to the grid's communicating directions, a one-way plan visits the same ranks. */
  lemma SameReach(g: Grid, plan: set<Dir>, p: Coord, c: Coord)
    requires InGrid(g, p) && InGrid(g, c) && G.OneWay(g, plan)
    ensures Reached(g, Itinerary(g, plan), 6, p, c) <==> G.Visited(g, plan, 6, p, c)
  {
    forall a: Axis {:trigger c.At(a)}
      ensures ReachedOn(g, Itinerary(g, plan), 6, p, c, a) <==> G.AxisVisited(g, plan, 6, p, c, a)
    {
      assert Itinerary(g, plan).At(a) == AxisWay(g, plan, a);
      assert Communicating(g, 2 * a) && 2 * a in plan ==> Opposite(2 * a) !in plan;
      assert Opposite(2 * a) == 2 * a + 1;
    }
    var w := Itinerary(g, plan);
    assert ReachedOn(g, w, 6, p, c, 0) <==> G.AxisVisited(g, plan, 6, p, c, 0);
    assert ReachedOn(g, w, 6, p, c, 1) <==> G.AxisVisited(g, plan, 6, p, c, 1);
    assert ReachedOn(g, w, 6, p, c, 2) <==> G.AxisVisited(g, plan, 6, p, c, 2);
  }

  lemma {:induction false} PackedStays(g: Grid, packed: Coord -> Store, once: bool, d: nat, c: Coord, b: Buffer)
    requires d <= 6
    ensures packed(c)(b) <= Stored(g, packed, once, d, c, b)
  {
    if d > 0 {
      PackedStays(g, packed, once, d - 1, c, b);
    }
  }

  /** What rank `c` has received into buffer `b`: everything behind its own particles. */
  function Received(g: Grid, packed: Coord -> Store, c: Coord, b: Buffer): seq<Entry> {
    PackedStays(g, packed, false, 6, c, b);
    Stored(g, packed, false, 6, c, b)[|packed(c)(b)|..]
  }

  /** The buffers that can receive: edges, faces, and the final one. */
  function Sink(k: nat): Buffer
    requires k < 19
  {
    if k < 12 then Edge(k) else if k < 18 then Face(k - 12) else Local
  }

  /** The ghosts unpacked from the first `k` receiving buffers. */
  function Unpacked(g: Grid, packed: Coord -> Store, c: Coord, k: nat): seq<Entry>
    requires k <= 19
  {
    if k == 0 then [] else Unpacked(g, packed, c, k - 1) + Received(g, packed, c, Sink(k - 1))
  }

  lemma ReceivedCount(g: Grid, packed: Coord -> Store, o: Origin, c: Coord, b: Buffer, t: nat)
    requires Fits(g, o.way) && InGrid(g, c) && InGrid(g, o.owner)
    requires forall c, b :: InGrid(g, c) ==> Count(packed(c)(b), t) == if o.present && PackedAt(o, c, b) then 1 else 0
    ensures Count(Received(g, packed, c, b), t) ==
            if o.present && c != o.owner && Reached(g, o.way, 6, o.owner, c) && b == Slot(o.way, o.owner, c) then 1 else 0
  {
    BufferContents(g, packed, false, o, 6, c, t);
    PackedStays(g, packed, false, 6, c, b);
    var s := StoreOf(g, packed, false, 6, c);
    assert Count(s(b), t) == if b == Slot(o.way, o.owner, c) && o.present && Keeps(g, false, o.way, 6, o.owner, c) then 1 else 0;
    assert s(b) == packed(c)(b) + Received(g, packed, c, b);
    CountJoin(packed(c)(b), Received(g, packed, c, b), t);
  }

  lemma {:induction false} UnpackedCount(g: Grid, packed: Coord -> Store, o: Origin, c: Coord, k: nat, t: nat)
    requires Fits(g, o.way) && InGrid(g, c) && InGrid(g, o.owner) && k <= 19
    requires forall c, b :: InGrid(g, c) ==> Count(packed(c)(b), t) == if o.present && PackedAt(o, c, b) then 1 else 0
    ensures Count(Unpacked(g, packed, c, k), t) ==
            if o.present && c != o.owner && Reached(g, o.way, 6, o.owner, c)
               && exists j :: 0 <= j < k && Sink(j) == Slot(o.way, o.owner, c)
            then 1 else 0
  {
    if k > 0 {
      UnpackedCount(g, packed, o, c, k - 1, t);
      ReceivedCount(g, packed, o, c, Sink(k - 1), t);
      CountJoin(Unpacked(g, packed, c, k - 1), Received(g, packed, c, Sink(k - 1)), t);
    } else {
      assert Tags(Unpacked(g, packed, c, k)) == [];
    }
  }

  /** Forwarded particles never end up in a corner buffer. */
  lemma SinkFound(w: Way, p: Coord, c: Coord)
    requires IsWay(w) && c != p
    ensures exists j :: 0 <= j < 19 && Sink(j) == Slot(w, p, c)
  {
    match Slot(w, p, c)
    case Corner(i) => WayDecides(Slot(w, p, c)); assert false;
    case Edge(i) => assert Sink(i) == Slot(w, p, c);
    case Face(f) => assert Sink(12 + f) == Slot(w, p, c);
    case Local => assert Sink(18) == Slot(w, p, c);
  }

  /** The fast form refines the simple one: on every rank the buffered exchange delivers exactly the
      tags that forwarding by plans delivers, each as often. */
  lemma BuffersDeliverTheGhosts(dom: Domain, owned: G.Owned, dir: G.Directory, packed: Coord -> Store, c: Coord)
    requires dom.Valid() && InGrid(dom.grid, c) && G.Registered(dom.grid, owned, dir) && Packs(dom.grid, owned, dir, packed)
    ensures multiset(Tags(Unpacked(dom.grid, packed, c, 19))) == multiset(G.Tags(G.Ghosts(dom, owned, c)))
  {
    forall t: nat
      ensures multiset(Tags(Unpacked(dom.grid, packed, c, 19)))[t] == multiset(G.Tags(G.Ghosts(dom, owned, c)))[t]
    {
      SameCount(dom, owned, dir, packed, c, t);
    }
  }

  lemma SameCount(dom: Domain, owned: G.Owned, dir: G.Directory, packed: Coord -> Store, c: Coord, t: nat)
    requires dom.Valid() && InGrid(dom.grid, c) && G.Registered(dom.grid, owned, dir) && Packs(dom.grid, owned, dir, packed)
    ensures Count(Unpacked(dom.grid, packed, c, 19), t) == multiset(G.Tags(G.Ghosts(dom, owned, c)))[t]
  {
    var g, o := dom.grid, OriginOf(dom.grid, owned, dir, t);
    G.GhostsExactlyOnce(dom, owned, dir, c, t);
    if o.present {
      SameReach(g, dir.plan(t), o.owner, c);
      UnpackedCount(g, packed, o, c, 19, t);
      if c != o.owner {
        SinkFound(o.way, o.owner, c);
      }
    } else {
      UnpackedCount(g, packed, o.(owner := c), c, 19, t);
    }
  }

  /** `e` is one of the packed entries of some rank. */
  ghost predicate FromSomeRank(g: Grid, packed: Coord -> Store, e: Entry) {
    exists c: Coord, b: Buffer :: InGrid(g, c) && e in packed(c)(b)
  }

  lemma {:induction false} ForwardedMembers(g: Grid, once: bool, d: Dir, theirs: Store, b: Buffer, k: nat, e: Entry)
    requires k <= 21 && e in Forwarded(g, once, d, theirs, b, k)
    ensures exists b' :: e in theirs(b')
  {
    if e in Forwarded(g, once, d, theirs, b, k - 1) {
      ForwardedMembers(g, once, d, theirs, b, k - 1, e);
    }
  }

  /** Entries are forwarded as they are. */
  lemma {:induction false} EntriesUnchanged(g: Grid, packed: Coord -> Store, once: bool, d: nat, c: Coord, b: Buffer, e: Entry)
    requires InGrid(g, c) && d <= 6 && e in Stored(g, packed, once, d, c, b)
    ensures FromSomeRank(g, packed, e)
    decreases d
  {
    if d > 0 {
      if e in Stored(g, packed, once, d - 1, c, b) {
        EntriesUnchanged(g, packed, once, d - 1, c, b, e);
      } else {
        var from := Neighbor(g, c, Opposite(d - 1));
        var s := StoreOf(g, packed, once, d - 1, from);
        Upstream(g, c, d - 1);
        ForwardedMembers(g, once, d - 1, s, b, 21, e);
        var b' :| e in s(b');
        EntriesUnchanged(g, packed, once, d - 1, from, b', e);
      }
    }
  }

  /** The packed entries describe the local particles. */
  ghost predicate PackedFrom(g: Grid, owned: G.Owned, packed: Coord -> Store) {
    forall c: Coord, b: Buffer, e: Entry :: InGrid(g, c) && e in packed(c)(b) ==>
      exists i :: 0 <= i < |owned(c)| && owned(c)[i].tag == e.tag && owned(c)[i].pos == e.pos && owned(c)[i].attr == e.attr
  }

  /** Wrapping a buffered ghost once, when it is unpacked, gives the position that wrapping at every hop gives. */
  lemma BuffersStoreTheSameImages(dom: Domain, owned: G.Owned, dir: G.Directory, packed: Coord -> Store,
                                  c: Coord, b: Buffer, e: Entry, s: G.Copy)
    requires dom.Valid() && dom.GhostWidthAccepted() && G.Registered(dom.grid, owned, dir) && Geo.Settled(dom, owned)
    requires InGrid(dom.grid, c) && PackedFrom(dom.grid, owned, packed)
    requires e in Stored(dom.grid, packed, false, 6, c, b) && s in G.Held(dom, owned, 6, c) && s.tag == e.tag
    ensures s.pos == G.WrapPos(dom, c, e.pos)
  {
    EntriesUnchanged(dom.grid, packed, false, 6, c, b, e);
    var p, b' :| InGrid(dom.grid, p) && e in packed(p)(b');
    var i :| 0 <= i < |owned(p)| && owned(p)[i].tag == e.tag && owned(p)[i].pos == e.pos;
    Geo.SlotPlaced(dom, owned, dir, c, p, i, s);
    Geo.WrapPosAxes(dom, c, e.pos);
    SameOnEveryAxis(s.pos, G.WrapPos(dom, c, e.pos));
  }

  // ------------------------------------------------------------ migration: a unique destination

  /** The rank at the sum of a plan's offsets. */
  function Target(g: Grid, p: Coord, w: Way): Coord {
    V3(Step(p.x + w.x, g.x), Step(p.y + w.y, g.y), Step(p.z + w.z, g.z))
  }

  /** Without replication a particle is delivered on the one rank at the sum of its plan's offsets, once, and nowhere else. */
  lemma UniqueDestination(g: Grid, owned: G.Owned, dir: G.Directory, packed: Coord -> Store, c: Coord, t: nat)
    requires InGrid(g, c) && InGrid(g, dir.owner(t)) && Packs(g, owned, dir, packed)
    ensures var w := Itinerary(g, dir.plan(t));
            Count(Stored(g, packed, true, 6, c, Local), t) ==
            if G.Exists(g, owned, dir, t) && w != V3(0, 0, 0) && c == Target(g, dir.owner(t), w) then 1 else 0
  {
    var o := OriginOf(g, owned, dir, t);
    BufferContents(g, packed, true, o, 6, c, t);
    var s := StoreOf(g, packed, true, 6, c);
    assert Count(s(Local), t) == if Local == Slot(o.way, o.owner, c) && o.present && Keeps(g, true, o.way, 6, o.owner, c) then 1 else 0;
    WayDecides(Slot(o.way, o.owner, c));
    FinalStop(g, o.way, o.owner, c);
  }

  lemma FinalStop(g: Grid, w: Way, p: Coord, c: Coord)
    requires Fits(g, w) && InGrid(g, p) && InGrid(g, c)
    ensures Left(w, p, c) == V3(0, 0, 0) && Keeps(g, true, w, 6, p, c) <==> w != V3(0, 0, 0) && c == Target(g, p, w)
  {
    assert w.At(0) == w.x && w.At(1) == w.y && w.At(2) == w.z;
  }
}
