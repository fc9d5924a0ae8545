/** The routing table of the buffered communicator. Particles are sorted into one buffer per
    corner, edge and face of the sub-domain instead of carrying a plan; the table says into which
    buffer of the neighbour each buffer is forwarded in each of the six directions. */
module Routing {
  import opened Vectors
  import opened Decomposition

  type CornerIndex = i: int | 0 <= i < 8
  type EdgeIndex = i: int | 0 <= i < 12

  /** `Local` is where particles end up that need not be forwarded. */
  datatype Buffer = Corner(corner: CornerIndex) | Edge(edge: EdgeIndex) | Face(face: Dir) | Local

  /** A plan without opposite directions: on each axis +1, -1 or 0 for neither. */
  type Way = V3<int>

  function CornerWay(i: CornerIndex): Way {
    match i
    case 0 => V3(1, 1, 1)
    case 1 => V3(1, 1, -1)
    case 2 => V3(1, -1, 1)
    case 3 => V3(1, -1, -1)
    case 4 => V3(-1, 1, 1)
    case 5 => V3(-1, 1, -1)
    case 6 => V3(-1, -1, 1)
    case 7 => V3(-1, -1, -1)
  }

  function EdgeWay(i: EdgeIndex): Way {
    match i
    case 0 => V3(1, 1, 0)
    case 1 => V3(1, -1, 0)
    case 2 => V3(1, 0, 1)
    case 3 => V3(1, 0, -1)
    case 4 => V3(-1, 1, 0)
    case 5 => V3(-1, -1, 0)
    case 6 => V3(-1, 0, 1)
    case 7 => V3(-1, 0, -1)
    case 8 => V3(0, 1, 1)
    case 9 => V3(0, 1, -1)
    case 10 => V3(0, -1, 1)
    case 11 => V3(0, -1, -1)
  }

  function FaceWay(d: Dir): Way {
    match d
    case 0 => V3(1, 0, 0)
    case 1 => V3(-1, 0, 0)
    case 2 => V3(0, 1, 0)
    case 3 => V3(0, -1, 0)
    case 4 => V3(0, 0, 1)
    case 5 => V3(0, 0, -1)
  }

  /** The plan that being in a buffer stands for. */
  function WayOf(b: Buffer): Way {
    match b
    case Corner(i) => CornerWay(i)
    case Edge(i) => EdgeWay(i)
    case Face(d) => FaceWay(d)
    case Local => V3(0, 0, 0)
  }

  predicate IsWay(w: Way) {
    -1 <= w.x <= 1 && -1 <= w.y <= 1 && -1 <= w.z <= 1
  }

  predicate Has(w: Way, d: Dir) {
    w.At(AxisOf(d)) == Sign(d)
  }

  /** `v` has no direction that `w` does not have. */
  predicate Within(v: Way, w: Way) {
    (v.x == 0 || v.x == w.x) && (v.y == 0 || v.y == w.y) && (v.z == 0 || v.z == w.z)
  }

  /** What remains of a plan after the directions up to and including `d`'s axis. */
  function Rest(w: Way, a: Axis): Way {
    V3(0, if a < 1 then w.y else 0, if a < 2 then w.z else 0)
  }

  /** The one buffer that stands for a plan. */
  function BufferFor(w: Way): (b: Buffer)
    requires IsWay(w)
    ensures WayOf(b) == w
  {
    var east, north, up := if w.x == 1 then 0 else 1, if w.y == 1 then 0 else 1, if w.z == 1 then 0 else 1;
    if w.x != 0 && w.y != 0 && w.z != 0 then Corner(4 * east + 2 * north + up)
    else if w.x != 0 && w.y != 0 then Edge(4 * east + north)
    else if w.x != 0 && w.z != 0 then Edge(4 * east + 2 + up)
    else if w.y != 0 && w.z != 0 then Edge(8 + 2 * north + up)
    else if w.x != 0 then Face(east)
    else if w.y != 0 then Face(2 + north)
    else if w.z != 0 then Face(4 + up)
    else Local
  }

  /** Buffers and plans without opposite directions correspond one to one. */
  lemma WayDecides(b: Buffer)
    ensures IsWay(WayOf(b)) && BufferFor(WayOf(b)) == b
  {
  }

  datatype Option<T> = None | Some(value: T)

  /** Where the particles of a buffer are to be forwarded in direction `d`: a buffer that does not
      have the direction stays; one that has it goes to the buffer for what remains of its plan. */
  function Destination(g: Grid, d: Dir, b: Buffer): Option<Buffer> {
    WayDecides(b);
    if Communicating(g, d) && Has(WayOf(b), d) then Some(BufferFor(Rest(WayOf(b), AxisOf(d)))) else None
  }

  // ------------------------------------------------------------ construction of the table

  /** True entries of the route tables. */
  type Table = set<(Dir, Buffer, Buffer)>

  ghost predicate RoutesDirection(g: Grid, t: Table, d: Dir) {
    forall b, b' :: (d, b, b') in t <==> Destination(g, d, b) == Some(b')
  }

  /** The first edge within the plan that is not sent in this or a previous direction. */
  method FirstEdge(d: Dir, w: Way) returns (found: bool, edge: EdgeIndex)
    requires IsWay(w) && Has(w, d)
    ensures found <==> Rest(w, AxisOf(d)).y != 0 && Rest(w, AxisOf(d)).z != 0
    ensures found ==> EdgeWay(edge) == Rest(w, AxisOf(d))
  {
    found, edge := false, 0;
    ghost var r := Rest(w, AxisOf(d));
    var j := 0;
    while j < 12
      invariant 0 <= j <= 12
      invariant !found && edge == 0
      invariant forall k: EdgeIndex :: k < j ==> EdgeWay(k) != r
    {
      EdgeIsRest(d, w, j);
      if Within(EdgeWay(j), w) {
        var active := NotYetSent(d, j);
        if active {
          found, edge := true, j;
          return;
        }
      }
      j := j + 1;
    }
    if r.y != 0 && r.z != 0 {
      WayDecides(BufferFor(r));
    }
  }

  /** None of the plan's directions comes at or before `d`. */
  predicate Unsent(w: Way, d: Dir) {
    && w.x != 1 && (d >= 1 ==> w.x != -1)
    && (d >= 2 ==> w.y != 1) && (d >= 3 ==> w.y != -1)
    && (d >= 4 ==> w.z != 1) && (d >= 5 ==> w.z != -1)
  }

  method NotYetSent(d: Dir, j: EdgeIndex) returns (active: bool)
    ensures active <==> Unsent(EdgeWay(j), d)
  {
    active := true;
    for k := 0 to 6
      invariant active <==> k == 0 || Unsent(EdgeWay(j), if k <= d then k - 1 else d)
    {
      if k <= d && Has(EdgeWay(j), k) {
        active := false;
      }
    }
  }

  /** An edge within the plan whose directions all come later is what remains of the plan. */
  lemma EdgeIsRest(d: Dir, w: Way, j: EdgeIndex)
    requires IsWay(w) && Has(w, d)
    ensures Within(EdgeWay(j), w) && Unsent(EdgeWay(j), d) <==> EdgeWay(j) == Rest(w, AxisOf(d))
    ensures EdgeWay(j) == Rest(w, AxisOf(d)) ==> EdgeWay(j).y != 0 && EdgeWay(j).z != 0
  {
  }

  /** The first face of the plan that comes later and does not lead back. */
  method FirstFace(d: Dir, w: Way) returns (found: bool, face: Dir)
    requires IsWay(w) && Has(w, d) && (Rest(w, AxisOf(d)).y == 0 || Rest(w, AxisOf(d)).z == 0)
    ensures found <==> Rest(w, AxisOf(d)) != V3(0, 0, 0)
    ensures found ==> FaceWay(face) == Rest(w, AxisOf(d))
  {
    found, face := false, 0;
    var next := d + if d % 2 == 1 then 1 else 2;
    for j := next to 6
      invariant !found
      invariant forall k: Dir :: next <= k < j ==> !Has(w, k)
    {
      if Has(w, j) {
        found, face := true, j;
        FaceIsRest(d, w, j);
        return;
      }
    }
    NoFace(d, w);
  }

  lemma FaceIsRest(d: Dir, w: Way, j: Dir)
    requires IsWay(w) && Has(w, d) && (Rest(w, AxisOf(d)).y == 0 || Rest(w, AxisOf(d)).z == 0)
    requires j >= d + (if d % 2 == 1 then 1 else 2) && Has(w, j)
    ensures FaceWay(j) == Rest(w, AxisOf(d))
  {
  }

  lemma NoFace(d: Dir, w: Way)
    requires IsWay(w) && Has(w, d)
    requires forall k: Dir :: k >= d + (if d % 2 == 1 then 1 else 2) ==> !Has(w, k)
    ensures Rest(w, AxisOf(d)) == V3(0, 0, 0)
  {
    assert d < 2 ==> !Has(w, 2) && !Has(w, 3);
    assert d < 4 ==> !Has(w, 4) && !Has(w, 5);
  }

  /** The table entries of one buffer: none or one. */
  function Entries(g: Grid, d: Dir, b: Buffer): Table {
    if Destination(g, d, b).Some? then {(d, b, Destination(g, d, b).value)} else {}
  }

  lemma EntryFor(g: Grid, d: Dir, b: Buffer, b': Buffer)
    requires Communicating(g, d) && Has(WayOf(b), d) && WayOf(b') == Rest(WayOf(b), AxisOf(d))
    ensures Entries(g, d, b) == {(d, b, b')}
  {
    WayDecides(b');
  }

  method RouteCorner(g: Grid, d: Dir, i: CornerIndex, t: Table) returns (r: Table)
    requires Communicating(g, d)
    ensures r == t + Entries(g, d, Corner(i))
  {
    r := t;
    if !Has(CornerWay(i), d) {
      return;
    }
    WayDecides(Corner(i));
    var sent, edge := FirstEdge(d, CornerWay(i));
    if sent {
      EntryFor(g, d, Corner(i), Edge(edge));
      r := r + {(d, Corner(i), Edge(edge))};
      return;
    }
    var onward, face := FirstFace(d, CornerWay(i));
    if onward {
      EntryFor(g, d, Corner(i), Face(face));
      r := r + {(d, Corner(i), Face(face))};
    } else {
      EntryFor(g, d, Corner(i), Local);
      r := r + {(d, Corner(i), Local)};
    }
  }

  method RouteEdge(g: Grid, d: Dir, i: EdgeIndex, t: Table) returns (r: Table)
    requires Communicating(g, d)
    ensures r == t + Entries(g, d, Edge(i))
  {
    r := t;
    if !Has(EdgeWay(i), d) {
      return;
    }
    WayDecides(Edge(i));
    var onward, face := FirstFace(d, EdgeWay(i));
    if onward {
      EntryFor(g, d, Edge(i), Face(face));
      r := r + {(d, Edge(i), Face(face))};
    } else {
      EntryFor(g, d, Edge(i), Local);
      r := r + {(d, Edge(i), Local)};
    }
  }

  /** The entries of the first corners, edges and faces. */
  ghost predicate Filled(g: Grid, t: Table, before: Table, d: Dir, corners: int, edges: int, faces: int) {
    forall e: Dir, b: Buffer, b': Buffer ::
      (e, b, b') in t <==>
        || (e, b, b') in before
        || (e == d && Destination(g, d, b) == Some(b')
            && match b
               case Corner(i) => i < corners
               case Edge(i) => i < edges
               case Face(f) => f < faces
               case Local => false)
  }

  method RouteDirection(g: Grid, d: Dir, before: Table) returns (t: Table)
    requires Communicating(g, d)
    ensures Filled(g, t, before, d, 8, 12, 6)
  {
    t := before;
    for i := 0 to 8
      invariant Filled(g, t, before, d, i, 0, 0)
    {
      t := RouteCorner(g, d, i, t);
    }
    for i := 0 to 12
      invariant Filled(g, t, before, d, 8, i, 0)
    {
      t := RouteEdge(g, d, i, t);
    }
    for f := 0 to 6
      invariant Filled(g, t, before, d, 8, 12, f)
    {
      if Has(FaceWay(f), d) {
        EntryFor(g, d, Face(f), Local);
        t := t + {(d, Face(f), Local)};
      }
    }
  }

  /** The table routes every buffer, in every direction, to the buffer for the rest of its plan,
      and has no other entries. */
  method SetupRoutingTable(g: Grid) returns (t: Table)
    ensures forall d: Dir :: RoutesDirection(g, t, d)
  {
    t := {};
    for d := 0 to 6
      invariant forall e: Dir :: e < d ==> RoutesDirection(g, t, e)
      invariant forall e: Dir, b, b' :: (e, b, b') in t ==> e < d
    {
      if Communicating(g, d) {
        ghost var before := t;
        t := RouteDirection(g, d, t);
        FilledRoutes(g, t, before, d);
      }
    }
  }

  lemma FilledRoutes(g: Grid, t: Table, before: Table, d: Dir)
    requires Filled(g, t, before, d, 8, 12, 6) && forall e: Dir, b, b' :: (e, b, b') in before ==> e < d
    requires forall e: Dir :: e < d ==> RoutesDirection(g, before, e)
    ensures forall e: Dir :: e < d + 1 ==> RoutesDirection(g, t, e)
  {
    forall e: Dir | e < d + 1
      ensures RoutesDirection(g, t, e)
    {
      forall b, b'
        ensures (e, b, b') in t <==> Destination(g, e, b) == Some(b')
      {
        assert e < d ==> RoutesDirection(g, before, e);
      }
    }
  }
}
