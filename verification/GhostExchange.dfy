/** The ghost exchange as a global lock-step transition: in each of the six
    directions every rank forwards, to one neighbour, all copies (its own
    particles and ghosts received earlier) whose plan contains that direction.
    `Held` is the state of one rank after some number of steps. */
module GhostExchange {
  import opened Vectors
  import opened Decomposition
  import opened Box

  /** One slot of the particle arrays: a local particle or a ghost copy of one. */
  datatype Copy = Copy(tag: nat, pos: V3<real>, attr: Attr, plan: set<Dir>)

  /** The local particles of every rank, with their plans. */
  type Owned = Coord -> seq<Copy>

  function Tags(es: seq<Copy>): (ts: seq<nat>)
    ensures |ts| == |es| && forall i :: 0 <= i < |es| ==> ts[i] == es[i].tag
  {
    seq(|es|, i requires 0 <= i < |es| => es[i].tag)
  }

  ghost predicate Distinct(es: seq<Copy>) {
    forall i, j :: 0 <= i < j < |es| ==> es[i].tag != es[j].tag
  }

  /** The send buffer: all slots whose plan contains the direction, in array order. */
  function Sent(es: seq<Copy>, d: Dir): seq<Copy> {
    if es == [] then []
    else
      var last := es[|es| - 1];
      Sent(es[..|es| - 1], d) + if d in last.plan then [last] else []
  }

  function WrapPos(dom: Domain, c: Coord, p: V3<real>): V3<real>
    requires dom.Valid()
  {
    V3(Wrap(dom.grid.x, dom.L.At(0), dom.rGhost, c.x, p.x),
       Wrap(dom.grid.y, dom.L.At(1), dom.rGhost, c.y, p.y),
       Wrap(dom.grid.z, dom.L.At(2), dom.rGhost, c.z, p.z))
  }

  /** What rank `c` stores for a message: the same slots, wrapped into its shifted box. */
  function Received(dom: Domain, c: Coord, message: seq<Copy>): (r: seq<Copy>)
    requires dom.Valid()
    ensures |r| == |message|
    ensures forall i :: 0 <= i < |r| ==> r[i] == message[i].(pos := WrapPos(dom, c, message[i].pos))
  {
    seq(|message|, i requires 0 <= i < |message| => message[i].(pos := WrapPos(dom, c, message[i].pos)))
  }

  /** The slots of rank `c` after the first `d` directions. */
  function Held(dom: Domain, owned: Owned, d: nat, c: Coord): seq<Copy>
    requires dom.Valid() && d <= 6
    decreases d, 0
  {
    if d == 0 then owned(c)
    else if Communicating(dom.grid, d - 1) then
      Held(dom, owned, d - 1, c) + Arriving(dom, owned, d - 1, c)
    else Held(dom, owned, d - 1, c)
  }

  /** The slots that rank `c` receives in direction `d`, from the opposite neighbour. */
  function Arriving(dom: Domain, owned: Owned, d: nat, c: Coord): seq<Copy>
    requires dom.Valid() && d < 6
    decreases d, 1
  {
    Received(dom, c, Sent(Held(dom, owned, d, Neighbor(dom.grid, c, Opposite(d))), d))
  }

  /** The slots after one more direction. */
  lemma NextHeld(dom: Domain, owned: Owned, d: Dir, c: Coord)
    requires dom.Valid()
    ensures Held(dom, owned, d + 1, c) ==
            if Communicating(dom.grid, d) then Held(dom, owned, d, c) + Arriving(dom, owned, d, c) else Held(dom, owned, d, c)
  {
  }

  // ------------------------------------------------------------ which ranks a plan visits

  /** No plan holds both directions of a decomposed axis. */
  ghost predicate OneWay(g: Grid, plan: set<Dir>) {
    forall d: Dir :: Communicating(g, d) && d in plan ==> Opposite(d) !in plan
  }

  predicate Takes(g: Grid, plan: set<Dir>, steps: nat, d: Dir) {
    d < steps && Communicating(g, d) && d in plan
  }

  /** On axis `a`, the first `steps` directions of the plan lead from coordinate p to c. */
  predicate AxisVisited(g: Grid, plan: set<Dir>, steps: nat, p: Coord, c: Coord, a: Axis) {
    || c.At(a) == p.At(a)
    || (Takes(g, plan, steps, 2 * a) && c.At(a) == Step(p.At(a) + 1, g.At(a)))
    || (Takes(g, plan, steps, 2 * a + 1) && c.At(a) == Step(p.At(a) - 1, g.At(a)))
  }

  /** Rank `c` is offset from `p` by some subset of the plan's communicating directions. */
  ghost predicate Visited(g: Grid, plan: set<Dir>, steps: nat, p: Coord, c: Coord) {
    forall a: Axis :: AxisVisited(g, plan, steps, p, c, a)
  }

  lemma VisitedStart(g: Grid, plan: set<Dir>, p: Coord, c: Coord)
    ensures Visited(g, plan, 0, p, c) <==> c == p
  {
    if Visited(g, plan, 0, p, c) {
      assert AxisVisited(g, plan, 0, p, c, 0) && AxisVisited(g, plan, 0, p, c, 1) && AxisVisited(g, plan, 0, p, c, 2);
      SameOnEveryAxis(c, p);
    }
  }

  /** A copy forwarded in direction `d` reaches a rank that had not been visited before. */
  lemma VisitedHop(g: Grid, plan: set<Dir>, d: Dir, p: Coord, from: Coord)
    requires InGrid(g, p) && InGrid(g, from) && OneWay(g, plan)
    requires Communicating(g, d) && d in plan && Visited(g, plan, d, p, from)
    ensures Visited(g, plan, d + 1, p, Neighbor(g, from, d))
    ensures !Visited(g, plan, d, p, Neighbor(g, from, d))
  {
    var c, axis := Neighbor(g, from, d), AxisOf(d);
    NeighborMoves(g, from, d);
    assert Opposite(d) !in plan;
    assert AxisVisited(g, plan, d, p, from, axis);
    forall a: Axis {:trigger c.At(a)}
      ensures AxisVisited(g, plan, d + 1, p, c, a)
    {
      assert AxisVisited(g, plan, d, p, from, a);
    }
    assert !AxisVisited(g, plan, d, p, c, axis);
  }

  /** Every rank visited within d+1 steps was visited before or is the next hop of one that was. */
  lemma VisitedBack(g: Grid, plan: set<Dir>, d: Dir, p: Coord, c: Coord)
    requires InGrid(g, p) && InGrid(g, c) && OneWay(g, plan) && Visited(g, plan, d + 1, p, c)
    ensures Visited(g, plan, d, p, c)
            || (Takes(g, plan, d + 1, d) && Visited(g, plan, d, p, Neighbor(g, c, Opposite(d))))
  {
    var from, axis := Neighbor(g, c, Opposite(d)), AxisOf(d);
    NeighborMoves(g, c, Opposite(d));
    if !Visited(g, plan, d, p, c) {
      var b: Axis :| !AxisVisited(g, plan, d, p, c, b);
      NewOnAxis(g, plan, d, p, c, b);
      forall a: Axis
        ensures AxisVisited(g, plan, d, p, from, a)
      {
        if a != axis {
          assert AxisVisited(g, plan, d + 1, p, c, a) && from.At(a) == c.At(a);
        }
      }
    }
  }

  /** What is newly visited on an axis is one step in direction `d` away. */
  lemma NewOnAxis(g: Grid, plan: set<Dir>, d: Dir, p: Coord, c: Coord, a: Axis)
    requires InGrid(g, p) && InGrid(g, c) && Visited(g, plan, d + 1, p, c) && !AxisVisited(g, plan, d, p, c, a)
    ensures a == AxisOf(d) && Takes(g, plan, d + 1, d) && Neighbor(g, c, Opposite(d)).At(a) == p.At(a)
  {
    assert AxisVisited(g, plan, d + 1, p, c, a);
    NeighborMoves(g, c, Opposite(d));
  }

  lemma VisitedGrows(g: Grid, plan: set<Dir>, d: Dir, p: Coord, c: Coord)
    requires Visited(g, plan, d, p, c)
    ensures Visited(g, plan, d + 1, p, c)
  {
    forall a: Axis {:trigger c.At(a)}
      ensures AxisVisited(g, plan, d + 1, p, c, a)
    {
      assert AxisVisited(g, plan, d, p, c, a);
    }
  }

  /** Without a step in direction `d` the set of visited ranks stays the same. */
  lemma VisitedIdle(g: Grid, plan: set<Dir>, d: Dir, p: Coord, c: Coord)
    requires InGrid(g, p) && InGrid(g, c) && OneWay(g, plan) && !Takes(g, plan, d + 1, d)
    ensures Visited(g, plan, d, p, c) <==> Visited(g, plan, d + 1, p, c)
  {
    if Visited(g, plan, d + 1, p, c) {
      VisitedBack(g, plan, d, p, c);
    } else if Visited(g, plan, d, p, c) {
      VisitedGrows(g, plan, d, p, c);
    }
  }

  // ------------------------------------------------------------ exactly-once delivery

  /** The global directory: the owner and the plan of every tag in the system. */
  datatype Directory = Directory(owner: nat -> Coord, plan: nat -> set<Dir>)

  /** Every local particle is listed once, at its owner, with its plan. */
  ghost predicate Registered(g: Grid, owned: Owned, dir: Directory) {
    && (forall c: Coord, i: int :: InGrid(g, c) && 0 <= i < |owned(c)| ==>
          dir.owner(owned(c)[i].tag) == c && dir.plan(owned(c)[i].tag) == owned(c)[i].plan)
    && (forall c: Coord :: InGrid(g, c) ==> Distinct(owned(c)))
    && (forall t: nat :: OneWay(g, dir.plan(t)))
  }

  ghost predicate Exists(g: Grid, owned: Owned, dir: Directory, t: nat) {
    InGrid(g, dir.owner(t)) && t in Tags(owned(dir.owner(t)))
  }

  lemma {:induction false} SentSelects(es: seq<Copy>, d: Dir)
    ensures forall e :: e in Sent(es, d) <==> e in es && d in e.plan
    ensures Distinct(es) ==> Distinct(Sent(es, d))
    decreases |es|
  {
    if es != [] {
      var rest, last := es[..|es| - 1], es[|es| - 1];
      SentSelects(rest, d);
      assert es == rest + [last];
      if Distinct(es) {
        forall e | e in Sent(rest, d)
          ensures e.tag != last.tag
        {
          assert e in rest;
        }
      }
    }
  }

  /** What rank `c` holds after `d` steps: its own particles first, then one copy of
      exactly the particles whose itinerary has come by. */
  ghost predicate Delivered(dom: Domain, owned: Owned, dir: Directory, d: nat, c: Coord)
    requires dom.Valid() && d <= 6
  {
    var es := Held(dom, owned, d, c);
    && owned(c) <= es
    && Distinct(es)
    && (forall e :: e in es ==>
          && Exists(dom.grid, owned, dir, e.tag)
          && e.plan == dir.plan(e.tag)
          && Visited(dom.grid, dir.plan(e.tag), d, dir.owner(e.tag), c))
    && (forall t: nat :: Exists(dom.grid, owned, dir, t) && Visited(dom.grid, dir.plan(t), d, dir.owner(t), c) ==>
          t in Tags(es))
  }

  lemma TagHeld(es: seq<Copy>, t: nat) returns (e: Copy)
    requires t in Tags(es)
    ensures e in es && e.tag == t
  {
    var i :| 0 <= i < |es| && Tags(es)[i] == t;
    e := es[i];
  }

  lemma HeldTag(es: seq<Copy>, e: Copy)
    requires e in es
    ensures e.tag in Tags(es)
  {
    var i :| 0 <= i < |es| && es[i] == e;
    assert Tags(es)[i] == e.tag;
  }

  /** A slot that arrives comes from a particle whose itinerary had not yet visited `c`. */
  lemma ArrivalIsNew(dom: Domain, owned: Owned, dir: Directory, d: Dir, c: Coord, e: Copy)
    requires dom.Valid() && InGrid(dom.grid, c) && Registered(dom.grid, owned, dir) && Communicating(dom.grid, d)
    requires Delivered(dom, owned, dir, d, Neighbor(dom.grid, c, Opposite(d)))
    requires e in Sent(Held(dom, owned, d, Neighbor(dom.grid, c, Opposite(d))), d)
    ensures Exists(dom.grid, owned, dir, e.tag) && e.plan == dir.plan(e.tag)
    ensures Visited(dom.grid, dir.plan(e.tag), d + 1, dir.owner(e.tag), c)
    ensures !Visited(dom.grid, dir.plan(e.tag), d, dir.owner(e.tag), c)
  {
    var from := Neighbor(dom.grid, c, Opposite(d));
    SentSelects(Held(dom, owned, d, from), d);
    assert e in Held(dom, owned, d, from);
    Upstream(dom.grid, c, d);
    VisitedHop(dom.grid, dir.plan(e.tag), d, dir.owner(e.tag), from);
  }

  /** On arrival no received particle is already present: the assertion that its
      reverse lookup reads NOT_LOCAL always holds. */
  lemma ArrivesNotLocal(dom: Domain, owned: Owned, dir: Directory, d: Dir, c: Coord)
    requires dom.Valid() && InGrid(dom.grid, c) && Registered(dom.grid, owned, dir) && Communicating(dom.grid, d)
    requires Delivered(dom, owned, dir, d, c)
    requires Delivered(dom, owned, dir, d, Neighbor(dom.grid, c, Opposite(d)))
    ensures forall i :: 0 <= i < |Arriving(dom, owned, d, c)| ==>
              Arriving(dom, owned, d, c)[i].tag !in Tags(Held(dom, owned, d, c))
    ensures Distinct(Arriving(dom, owned, d, c))
  {
    var sent := Sent(Held(dom, owned, d, Neighbor(dom.grid, c, Opposite(d))), d);
    var incoming := Arriving(dom, owned, d, c);
    SentSelects(Held(dom, owned, d, Neighbor(dom.grid, c, Opposite(d))), d);
    forall i | 0 <= i < |incoming|
      ensures incoming[i].tag !in Tags(Held(dom, owned, d, c))
    {
      ArrivalIsNew(dom, owned, dir, d, c, sent[i]);
      if sent[i].tag in Tags(Held(dom, owned, d, c)) {
        var e := TagHeld(Held(dom, owned, d, c), sent[i].tag);
      }
    }
  }

  lemma StepDelivers(dom: Domain, owned: Owned, dir: Directory, d: Dir, c: Coord)
    requires dom.Valid() && InGrid(dom.grid, c) && Registered(dom.grid, owned, dir)
    requires Delivered(dom, owned, dir, d, c)
    requires Delivered(dom, owned, dir, d, Neighbor(dom.grid, c, Opposite(d)))
    ensures Delivered(dom, owned, dir, d + 1, c)
  {
    var g, before, after := dom.grid, Held(dom, owned, d, c), Held(dom, owned, d + 1, c);
    if !Communicating(g, d) {
      assert after == before;
      forall t: nat | Exists(g, owned, dir, t)
        ensures Visited(g, dir.plan(t), d, dir.owner(t), c) <==> Visited(g, dir.plan(t), d + 1, dir.owner(t), c)
      {
        VisitedIdle(g, dir.plan(t), d, dir.owner(t), c);
      }
      return;
    }
    var from := Neighbor(g, c, Opposite(d));
    var held, incoming := Held(dom, owned, d, from), Arriving(dom, owned, d, c);
    var sent := Sent(held, d);
    SentSelects(held, d);
    Upstream(g, c, d);
    assert after == before + incoming;
    ArrivesNotLocal(dom, owned, dir, d, c);
    assert Distinct(after) by {
      forall i, j | 0 <= i < j < |after|
        ensures after[i].tag != after[j].tag
      {
        if i < |before| <= j {
          assert after[j] == incoming[j - |before|] && after[i].tag == Tags(before)[i];
        }
      }
    }
    forall e | e in after
      ensures Exists(g, owned, dir, e.tag) && e.plan == dir.plan(e.tag)
      ensures Visited(g, dir.plan(e.tag), d + 1, dir.owner(e.tag), c)
    {
      if e in before {
        VisitedGrows(g, dir.plan(e.tag), d, dir.owner(e.tag), c);
      } else {
        var i :| 0 <= i < |sent| && incoming[i] == e;
        assert sent[i] in sent;
        ArrivalIsNew(dom, owned, dir, d, c, sent[i]);
      }
    }
    forall t: nat | Exists(g, owned, dir, t) && Visited(g, dir.plan(t), d + 1, dir.owner(t), c)
      ensures t in Tags(after)
    {
      VisitedBack(g, dir.plan(t), d, dir.owner(t), c);
      if Visited(g, dir.plan(t), d, dir.owner(t), c) {
        var e := TagHeld(before, t);
        HeldTag(after, e);
      } else {
        var e := TagHeld(held, t);
        assert e in sent;
        var i :| 0 <= i < |sent| && sent[i] == e;
        assert incoming[i] in after && incoming[i].tag == t;
        HeldTag(after, incoming[i]);
      }
    }
  }

  /** Delivery after any number of steps, on every rank of any grid. */
  lemma {:induction false} Delivery(dom: Domain, owned: Owned, dir: Directory, d: nat, c: Coord)
    requires dom.Valid() && InGrid(dom.grid, c) && Registered(dom.grid, owned, dir) && d <= 6
    ensures Delivered(dom, owned, dir, d, c)
  {
    if d == 0 {
      forall t: nat
        ensures Visited(dom.grid, dir.plan(t), 0, dir.owner(t), c) <==> c == dir.owner(t)
      {
        VisitedStart(dom.grid, dir.plan(t), dir.owner(t), c);
      }
      forall e | e in owned(c)
        ensures e.tag in Tags(owned(c))
      {
        HeldTag(owned(c), e);
      }
    } else {
      NeighborMoves(dom.grid, c, Opposite(d - 1));
      Delivery(dom, owned, dir, d - 1, c);
      Delivery(dom, owned, dir, d - 1, Neighbor(dom.grid, c, Opposite(d - 1)));
      StepDelivers(dom, owned, dir, d - 1, c);
    }
  }

  /** The ghosts of rank `c` when the exchange is complete. */
  function Ghosts(dom: Domain, owned: Owned, c: Coord): seq<Copy>
    requires dom.Valid()
  {
    var es := Held(dom, owned, 6, c);
    if |owned(c)| <= |es| then es[|owned(c)|..] else []
  }

  lemma {:induction false} DistinctCount(es: seq<Copy>, t: nat)
    requires Distinct(es)
    ensures multiset(Tags(es))[t] == if t in Tags(es) then 1 else 0
    decreases |es|
  {
    if es != [] {
      var rest, last := es[..|es| - 1], es[|es| - 1];
      assert Tags(es) == Tags(rest) + [last.tag];
      DistinctCount(rest, t);
    }
  }

  /** A particle becomes a ghost, exactly once, on precisely the ranks that lie off its
      owner by a non-empty subset of its plan's communicating directions - and nowhere else. */
  lemma GhostsExactlyOnce(dom: Domain, owned: Owned, dir: Directory, c: Coord, t: nat)
    requires dom.Valid() && InGrid(dom.grid, c) && Registered(dom.grid, owned, dir)
    ensures multiset(Tags(Ghosts(dom, owned, c)))[t] ==
            if Exists(dom.grid, owned, dir, t) && c != dir.owner(t) && Visited(dom.grid, dir.plan(t), 6, dir.owner(t), c)
            then 1 else 0
  {
    Delivery(dom, owned, dir, 6, c);
    var es, ghosts := Held(dom, owned, 6, c), Ghosts(dom, owned, c);
    assert es == owned(c) + ghosts;
    assert Tags(es) == Tags(owned(c)) + Tags(ghosts);
    DistinctCount(es, t);
    DistinctCount(owned(c), t);
    assert t in Tags(owned(c)) ==> dir.owner(t) == c;
    assert c == dir.owner(t) ==> Visited(dom.grid, dir.plan(t), 6, dir.owner(t), c);
    if t in Tags(es) {
      var e := TagHeld(es, t);
    }
  }
}
