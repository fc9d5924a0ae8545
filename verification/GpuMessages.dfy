/** The two steps of one direction of the buffered exchange. In step one a rank tells its neighbour the sizes of its
    buffers and how much will arrive in which buffer. In step two both sides post the messages on their own: the sender
    by the sizes of its buffers, the receiver by the sizes that it has been told; a tag that both count separately
    says which message belongs to which request. */
module GpuMessages {
  import opened Vectors
  import opened Decomposition
  import opened Routing
  import opened GpuExchange

  /** Numbers of particles per buffer; buffers that are not listed have none. */
  type Sizes = map<Buffer, nat>

  function At(m: Sizes, b: Buffer): nat {
    if b in m then m[b] else 0
  }

  /** The buffers of one rank; those that are not listed are empty. */
  type Contents = map<Buffer, seq<Entry>>

  function Held(m: Contents, b: Buffer): seq<Entry> {
    if b in m then m[b] else []
  }

  function AsStore(m: Contents): Store {
    (b: Buffer) => Held(m, b)
  }

  function SizeOf(s: Store): Buffer -> nat {
    (b: Buffer) => |s(b)|
  }

  /** What the first `k` messages bring for buffer `b`. */
  function Announced(g: Grid, once: bool, d: Dir, sizes: Buffer -> nat, b: Buffer, k: nat): nat
    requires k <= 21
  {
    if k == 0 then 0
    else Announced(g, once, d, sizes, b, k - 1) + if Sends(g, once, d, Source(d, k - 1), b) then sizes(Source(d, k - 1)) else 0
  }

  /** What is announced is what is sent. */
  lemma {:induction false} AnnouncedIsSent(g: Grid, once: bool, d: Dir, theirs: Store, b: Buffer, k: nat)
    requires k <= 21
    ensures Announced(g, once, d, SizeOf(theirs), b, k) == |Forwarded(g, once, d, theirs, b, k)|
  {
    if k > 0 {
      AnnouncedIsSent(g, once, d, theirs, b, k - 1);
    }
  }

  // ------------------------------------------------------------ looking for the destination

  /** Buffers looked at so far: the first edges, the first faces, and perhaps the final one. */
  predicate Covered(b: Buffer, edges: nat, faces: nat, final: bool) {
    match b
    case Corner(_) => false
    case Edge(i) => i < edges
    case Face(f) => f < faces
    case Local => final
  }

  predicate Looked(destination: Option<Buffer>, edges: nat, faces: nat, final: bool) {
    destination.Some? && Covered(destination.value, edges, faces, final)
  }

  /** The buffer that the neighbour puts a message into, if there is one. */
  function Route(g: Grid, once: bool, d: Dir, src: Buffer): (r: Option<Buffer>)
    ensures forall b :: r == Some(b) <==> Sends(g, once, d, src, b)
  {
    var destination := Destination(g, d, src);
    if destination.Some? && Sends(g, once, d, src, destination.value) then destination else None
  }

  /** Edges are forwarded to faces or delivered. */
  lemma EdgeGoesOn(g: Grid, d: Dir, i: EdgeIndex)
    ensures Destination(g, d, Edge(i)).Some? ==>
              Destination(g, d, Edge(i)).value.Face? || Destination(g, d, Edge(i)).value.Local?
  {
    WayDecides(Edge(i));
  }

  lemma FaceIsDelivered(g: Grid, d: Dir)
    requires Communicating(g, d)
    ensures Destination(g, d, Face(d)) == Some(Local)
  {
    WayDecides(Local);
  }

  /** The loops over the routing table look at every buffer that the message may go to. */
  lemma CornerLooked(g: Grid, once: bool, d: Dir, i: CornerIndex)
    ensures Looked(Destination(g, d, Corner(i)), 12, if once then 0 else 6, !once) <==> Route(g, once, d, Corner(i)).Some?
  {
    WayDecides(Corner(i));
  }

  lemma EdgeLooked(g: Grid, once: bool, d: Dir, i: EdgeIndex)
    ensures Looked(Destination(g, d, Edge(i)), 0, 6, !once) <==> Route(g, once, d, Edge(i)).Some?
  {
    EdgeGoesOn(g, d, i);
  }

  // ------------------------------------------------------------ step one

  /** `n` more for the destination, if it has been looked at. */
  function AddIf(m: Sizes, destination: Option<Buffer>, looked: bool, n: nat): Sizes {
    if looked && destination.Some? then m[destination.value := At(m, destination.value) + n] else m
  }

  /** `after` is `before` with the size of buffer `src` added where it is sent, and nowhere else. */
  ghost predicate Added(g: Grid, once: bool, d: Dir, before: Sizes, src: Buffer, n: nat, after: Sizes) {
    forall b: Buffer :: At(after, b) == At(before, b) + if Sends(g, once, d, src, b) then n else 0
  }

  method AddCorner(g: Grid, t: Table, d: Dir, i: CornerIndex, n: nat, once: bool, before: Sizes) returns (m: Sizes)
    requires RoutesDirection(g, t, d)
    ensures Added(g, once, d, before, Corner(i), n, m)
  {
    m := before;
    CornerLooked(g, once, d, i);
    for j := 0 to 12
      invariant m == AddIf(before, Destination(g, d, Corner(i)), Looked(Destination(g, d, Corner(i)), j, 0, false), n)
    {
      if (d, Corner(i), Edge(j)) in t {
        m := m[Edge(j) := At(m, Edge(j)) + n];
      }
    }
    if once {
      return;
    }
    for j := 0 to 6
      invariant m == AddIf(before, Destination(g, d, Corner(i)), Looked(Destination(g, d, Corner(i)), 12, j, false), n)
    {
      if (d, Corner(i), Face(j)) in t {
        m := m[Face(j) := At(m, Face(j)) + n];
      }
    }
    if (d, Corner(i), Local) in t {
      m := m[Local := At(m, Local) + n];
    }
  }

  method AddEdge(g: Grid, t: Table, d: Dir, i: EdgeIndex, n: nat, once: bool, before: Sizes) returns (m: Sizes)
    requires RoutesDirection(g, t, d)
    ensures Added(g, once, d, before, Edge(i), n, m)
  {
    m := before;
    EdgeLooked(g, once, d, i);
    EdgeGoesOn(g, d, i);
    for j := 0 to 6
      invariant m == AddIf(before, Destination(g, d, Edge(i)), Looked(Destination(g, d, Edge(i)), 0, j, false), n)
    {
      if (d, Edge(i), Face(j)) in t {
        m := m[Face(j) := At(m, Face(j)) + n];
      }
    }
    if once {
      return;
    }
    if (d, Edge(i), Local) in t {
      m := m[Local := At(m, Local) + n];
    }
  }

  /** Total up the sizes of the messages for every buffer of the neighbour. */
  method StepOne(g: Grid, t: Table, d: Dir, sizes: Buffer -> nat, once: bool) returns (announced: Sizes)
    requires RoutesDirection(g, t, d) && Communicating(g, d)
    ensures forall b: Buffer :: At(announced, b) == Announced(g, once, d, sizes, b, 21)
  {
    announced := map[];
    for i := 0 to 8
      invariant forall b: Buffer :: At(announced, b) == Announced(g, once, d, sizes, b, i)
    {
      assert Source(d, i) == Corner(i);
      announced := AddCorner(g, t, d, i, sizes(Corner(i)), once, announced);
    }
    for i := 0 to 12
      invariant forall b: Buffer :: At(announced, b) == Announced(g, once, d, sizes, b, 8 + i)
    {
      assert Source(d, 8 + i) == Edge(i);
      announced := AddEdge(g, t, d, i, sizes(Edge(i)), once, announced);
    }
    FaceIsDelivered(g, d);
    assert Source(d, 20) == Face(d) && forall b: Buffer :: Sends(g, once, d, Face(d), b) <==> b == Local;
    ghost var soFar := announced;
    if (d, Face(d), Local) in t {
      announced := announced[Local := At(announced, Local) + sizes(Face(d))];
    }
    forall b: Buffer
      ensures At(announced, b) == Announced(g, once, d, sizes, b, 21)
    {
      assert At(soFar, b) == Announced(g, once, d, sizes, b, 20);
    }
  }

  // ------------------------------------------------------------ step two: what is posted

  datatype Message = Message(tag: nat, data: seq<Entry>)

  /** A posted receive: the message goes to `size` places of the buffer from `offset` on. */
  datatype Receive = Receive(tag: nat, into: Buffer, offset: nat, size: nat)

  /** What a rank has posted so far: the next tag, the messages, the receives, and how much the latter bring per buffer. */
  datatype Posted = Posted(tag: nat, sends: seq<Message>, receives: seq<Receive>, received: Sizes)

  function Nothing(): Posted {
    Posted(0, [], [], map[])
  }

  /** One pair of buffers in the routing table: `data` is sent and `n` particles are to be received into `b`, behind what
      the buffer holds. Nothing is posted for empty messages; a tag is used up in any case. */
  function Next(q: Posted, own: Sizes, b: Buffer, data: seq<Entry>, n: nat): Posted {
    Posted(q.tag + 1,
           if |data| > 0 then q.sends + [Message(q.tag, data)] else q.sends,
           if n > 0 then q.receives + [Receive(q.tag, b, At(own, b) + At(q.received, b), n)] else q.receives,
           q.received[b := At(q.received, b) + n])
  }

  function NextIf(q: Posted, own: Sizes, destination: Option<Buffer>, looked: bool, data: seq<Entry>, n: nat): Posted {
    if looked && destination.Some? then Next(q, own, destination.value, data, n) else q
  }

  /** One buffer in the order in which they are dealt with: the buffer of the neighbour it goes to, if any, its contents, and
      the size that this rank has been told of the upstream neighbour's buffer. */
  datatype Turn = Turn(route: Option<Buffer>, data: seq<Entry>, n: nat)

  /** The turns of a direction, on a rank whose buffers are `mine` and which has been told the sizes `remote`. */
  function Turns(g: Grid, once: bool, d: Dir, mine: Store, remote: Buffer -> nat): (ts: seq<Turn>)
    ensures |ts| == 21
    ensures forall k :: 0 <= k < 21 ==> ts[k] == Turn(Route(g, once, d, Source(d, k)), mine(Source(d, k)), remote(Source(d, k)))
  {
    seq(21, k requires 0 <= k < 21 => Turn(Route(g, once, d, Source(d, k)), mine(Source(d, k)), remote(Source(d, k))))
  }

  /** What has been posted after the first `k` turns by a rank whose buffers hold `own` particles. */
  function Queue(own: Sizes, ts: seq<Turn>, k: nat): Posted
    requires k <= |ts|
  {
    if k == 0 then Nothing()
    else NextIf(Queue(own, ts, k - 1), own, ts[k - 1].route, ts[k - 1].route.Some?, ts[k - 1].data, ts[k - 1].n)
  }

  /** One rank during step two. */
  class Exchanger {
    const own: Sizes
    var tag: nat
    var sends: seq<Message>
    var receives: seq<Receive>
    var received: Sizes

    constructor (own: Sizes)
      ensures this.own == own && State() == Nothing()
    {
      this.own := own;
      tag, sends, receives, received := 0, [], [], map[];
    }

    function State(): Posted
      reads this
    {
      Posted(tag, sends, receives, received)
    }

    method Post(b: Buffer, data: seq<Entry>, n: nat)
      modifies this
      ensures State() == Next(old(State()), own, b, data, n)
    {
      var offset := At(own, b) + At(received, b);
      if |data| > 0 {
        sends := sends + [Message(tag, data)];
      }
      if n > 0 {
        receives := receives + [Receive(tag, b, offset, n)];
      }
      tag := tag + 1;
      received := received[b := At(received, b) + n];
    }

    method FromCorner(g: Grid, t: Table, d: Dir, i: CornerIndex, data: seq<Entry>, n: nat, once: bool)
      requires RoutesDirection(g, t, d)
      modifies this
      ensures var route := Route(g, once, d, Corner(i)); State() == NextIf(old(State()), own, route, route.Some?, data, n)
    {
      CornerLooked(g, once, d, i);
      ghost var destination := Destination(g, d, Corner(i));
      for j := 0 to 12
        invariant State() == NextIf(old(State()), own, destination, Looked(destination, j, 0, false), data, n)
      {
        if (d, Corner(i), Edge(j)) in t {
          Post(Edge(j), data, n);
        }
      }
      if once {
        return;
      }
      for j := 0 to 6
        invariant State() == NextIf(old(State()), own, destination, Looked(destination, 12, j, false), data, n)
      {
        if (d, Corner(i), Face(j)) in t {
          Post(Face(j), data, n);
        }
      }
      if (d, Corner(i), Local) in t {
        Post(Local, data, n);
      }
    }

    method FromEdge(g: Grid, t: Table, d: Dir, i: EdgeIndex, data: seq<Entry>, n: nat, once: bool)
      requires RoutesDirection(g, t, d)
      modifies this
      ensures var route := Route(g, once, d, Edge(i)); State() == NextIf(old(State()), own, route, route.Some?, data, n)
    {
      EdgeLooked(g, once, d, i);
      EdgeGoesOn(g, d, i);
      ghost var destination := Destination(g, d, Edge(i));
      for j := 0 to 6
        invariant State() == NextIf(old(State()), own, destination, Looked(destination, 0, j, false), data, n)
      {
        if (d, Edge(i), Face(j)) in t {
          Post(Face(j), data, n);
        }
      }
      if once {
        return;
      }
      if (d, Edge(i), Local) in t {
        Post(Local, data, n);
      }
    }

    /** Post all messages and receives of one direction. The requests fit into the thirteen that are set aside for each. */
    method StepTwo(g: Grid, t: Table, d: Dir, mine: Store, remote: Buffer -> nat, once: bool)
      requires RoutesDirection(g, t, d) && Communicating(g, d) && State() == Nothing()
      modifies this
      ensures var ts := Turns(g, once, d, mine, remote); State() == Queue(own, ts, |ts|)
      ensures |sends| <= 13 && |receives| <= 13
    {
      ghost var ts := Turns(g, once, d, mine, remote);
      for i := 0 to 8
        invariant State() == Queue(own, ts, i)
      {
        assert Source(d, i) == Corner(i);
        FromCorner(g, t, d, i, mine(Corner(i)), remote(Corner(i)), once);
      }
      for i := 0 to 12
        invariant State() == Queue(own, ts, 8 + i)
      {
        assert Source(d, 8 + i) == Edge(i);
        FromEdge(g, t, d, i, mine(Edge(i)), remote(Edge(i)), once);
      }
      FaceIsDelivered(g, d);
      assert Source(d, 20) == Face(d) && ts[20].route == Some(Local);
      if (d, Face(d), Local) in t {
        Post(Local, mine(Face(d)), remote(Face(d)));
      }
      assert State() == Queue(own, ts, |ts|);
      FewRequests(g, once, d, own, mine, remote);
    }
  }

  // ------------------------------------------------------------ how many

  function Past(k: nat, i: nat): nat {
    if k > i then 1 else 0
  }

  /** How many of the first `k` sources have the direction: of eight corners and twelve edges four each, and the face. */
  function Messages(d: Dir, k: nat): (n: nat)
    ensures n <= 9
  {
    (match d
     case 0 => Past(k, 0) + Past(k, 1) + Past(k, 2) + Past(k, 3) + Past(k, 8) + Past(k, 9) + Past(k, 10) + Past(k, 11)
     case 1 => Past(k, 4) + Past(k, 5) + Past(k, 6) + Past(k, 7) + Past(k, 12) + Past(k, 13) + Past(k, 14) + Past(k, 15)
     case 2 => Past(k, 0) + Past(k, 1) + Past(k, 4) + Past(k, 5) + Past(k, 8) + Past(k, 12) + Past(k, 16) + Past(k, 17)
     case 3 => Past(k, 2) + Past(k, 3) + Past(k, 6) + Past(k, 7) + Past(k, 9) + Past(k, 13) + Past(k, 18) + Past(k, 19)
     case 4 => Past(k, 0) + Past(k, 2) + Past(k, 4) + Past(k, 6) + Past(k, 10) + Past(k, 14) + Past(k, 16) + Past(k, 18)
     case 5 => Past(k, 1) + Past(k, 3) + Past(k, 5) + Past(k, 7) + Past(k, 11) + Past(k, 15) + Past(k, 17) + Past(k, 19))
    + Past(k, 20)
  }

  predicate Listed(d: Dir, k: nat) {
    || k == 20
    || match d
       case 0 => k < 4 || 8 <= k < 12
       case 1 => 4 <= k < 8 || 12 <= k < 16
       case 2 => k in {0, 1, 4, 5, 8, 12, 16, 17}
       case 3 => k in {2, 3, 6, 7, 9, 13, 18, 19}
       case 4 => k in {0, 2, 4, 6, 10, 14, 16, 18}
       case 5 => k in {1, 3, 5, 7, 11, 15, 17, 19}
  }

  lemma ListedTouches(d: Dir, k: nat)
    requires k < 21
    ensures Listed(d, k) <==> Has(WayOf(Source(d, k)), d)
  {
    if k < 8 {
      assert Source(d, k) == Corner(k);
    } else if k < 20 {
      assert Source(d, k) == Edge(k - 8);
    }
  }

  lemma OneMoreListed(d: Dir, k: nat)
    ensures Messages(d, k + 1) == Messages(d, k) + if Listed(d, k) then 1 else 0
  {
    match d
    case 0 =>
    case 1 =>
    case 2 =>
    case 3 =>
    case 4 =>
    case 5 =>
  }

  lemma MessagesCount(d: Dir, k: nat)
    requires k < 21
    ensures Messages(d, k + 1) == Messages(d, k) + if Has(WayOf(Source(d, k)), d) then 1 else 0
  {
    ListedTouches(d, k);
    OneMoreListed(d, k);
  }

  /** How many of the first `k` buffers are sent: the tag of the next one. */
  function TagAt(ts: seq<Turn>, k: nat): nat
    requires k <= |ts|
  {
    if k == 0 then 0 else TagAt(ts, k - 1) + if ts[k - 1].route.Some? then 1 else 0
  }

  lemma {:induction false} FewTags(g: Grid, once: bool, d: Dir, ts: seq<Turn>, k: nat)
    requires k <= 21 <= |ts| && forall j :: 0 <= j < 21 ==> ts[j].route == Route(g, once, d, Source(d, j))
    ensures TagAt(ts, k) <= Messages(d, k)
  {
    if k > 0 {
      FewTags(g, once, d, ts, k - 1);
      MessagesCount(d, k - 1);
    }
  }

  lemma FewRequests(g: Grid, once: bool, d: Dir, own: Sizes, mine: Store, remote: Buffer -> nat)
    ensures var ts := Turns(g, once, d, mine, remote);
            |Queue(own, ts, |ts|).sends| <= 9 && |Queue(own, ts, |ts|).receives| <= 9
  {
    var ts := Turns(g, once, d, mine, remote);
    Numbered(own, ts, |ts|);
    FewTags(g, once, d, ts, |ts|);
  }

  /** Tags count the turns with a route, whatever there is to send and to receive. */
  lemma {:induction false} Numbered(own: Sizes, ts: seq<Turn>, k: nat)
    requires k <= |ts|
    ensures var q := Queue(own, ts, k); q.tag == TagAt(ts, k) && |q.sends| <= q.tag && |q.receives| <= q.tag
  {
    if k > 0 {
      Numbered(own, ts, k - 1);
    }
  }

  lemma {:induction false} TagsGrow(ts: seq<Turn>, j: nat, k: nat)
    requires j <= k <= |ts|
    ensures TagAt(ts, j) <= TagAt(ts, k)
  {
    if j < k {
      TagsGrow(ts, j, k - 1);
    }
  }

  /** The turns of two ranks have the same routes, since these depend on the direction alone. */
  predicate SameRoutes(ts: seq<Turn>, us: seq<Turn>) {
    |ts| == |us| && forall k :: 0 <= k < |ts| ==> ts[k].route == us[k].route
  }

  /** Hence both count tags alike. */
  lemma {:induction false} SameTagAt(ts: seq<Turn>, us: seq<Turn>, k: nat)
    requires SameRoutes(ts, us) && k <= |ts|
    ensures TagAt(ts, k) == TagAt(us, k)
  {
    if k > 0 {
      SameTagAt(ts, us, k - 1);
    }
  }

  // ------------------------------------------------------------ sender and receiver agree

  /** What the transport compares: tag and size. */
  datatype Envelope = Envelope(tag: nat, size: nat)

  function SendEnvelopes(ms: seq<Message>): (es: seq<Envelope>)
    ensures |es| == |ms| && forall i :: 0 <= i < |ms| ==> es[i] == Envelope(ms[i].tag, |ms[i].data|)
  {
    seq(|ms|, i requires 0 <= i < |ms| => Envelope(ms[i].tag, |ms[i].data|))
  }

  function ReceiveEnvelopes(rs: seq<Receive>): (es: seq<Envelope>)
    ensures |es| == |rs| && forall i :: 0 <= i < |rs| ==> es[i] == Envelope(rs[i].tag, rs[i].size)
  {
    seq(|rs|, i requires 0 <= i < |rs| => Envelope(rs[i].tag, rs[i].size))
  }

  predicate Below(es: seq<Envelope>, tag: nat) {
    forall i :: 0 <= i < |es| ==> es[i].tag < tag
  }

  function With(es: seq<Envelope>, tag: nat, size: nat): seq<Envelope> {
    if size > 0 then es + [Envelope(tag, size)] else es
  }

  lemma Envelopes(own: Sizes, ts: seq<Turn>, k: nat)
    requires k < |ts|
    ensures var q, q', sent := Queue(own, ts, k), Queue(own, ts, k + 1), ts[k].route.Some?;
            && SendEnvelopes(q'.sends) == (if sent then With(SendEnvelopes(q.sends), q.tag, |ts[k].data|) else SendEnvelopes(q.sends))
            && ReceiveEnvelopes(q'.receives) ==
               (if sent then With(ReceiveEnvelopes(q.receives), q.tag, ts[k].n) else ReceiveEnvelopes(q.receives))
  {
  }

  /** Tags increase, so that no two messages of a step can be confused. */
  lemma {:induction false} TagsBelow(own: Sizes, ts: seq<Turn>, k: nat)
    requires k <= |ts|
    ensures var q := Queue(own, ts, k); Below(SendEnvelopes(q.sends), q.tag) && Below(ReceiveEnvelopes(q.receives), q.tag)
  {
    if k > 0 {
      TagsBelow(own, ts, k - 1);
      Envelopes(own, ts, k - 1);
    }
  }

  lemma WithBelow(es: seq<Envelope>, tag: nat, n: nat)
    requires Below(es, tag)
    ensures Below(With(es, tag, n), tag) <==> n == 0
  {
    if n > 0 {
      assert With(es, tag, n)[|es|].tag == tag;
    }
  }

  lemma OneMore(es: seq<Envelope>, fs: seq<Envelope>, tag: nat, n: nat, m: nat)
    requires Below(es, tag) && Below(fs, tag)
    ensures With(es, tag, n) == With(fs, tag, m) <==> es == fs && n == m
  {
    var es', fs' := With(es, tag, n), With(fs, tag, m);
    WithBelow(es, tag, n);
    WithBelow(fs, tag, m);
    if es' == fs' && n > 0 {
      assert es == es'[..|es|] && fs == fs'[..|fs|] && es'[|es|].size == n && fs'[|fs|].size == m;
    }
  }

  lemma MatchNext(es: seq<Envelope>, fs: seq<Envelope>, es': seq<Envelope>, fs': seq<Envelope>, sent: bool, tag: nat, n: nat, m: nat)
    requires Below(es, tag) && Below(fs, tag)
    requires es' == (if sent then With(es, tag, n) else es) && fs' == (if sent then With(fs, tag, m) else fs)
    ensures es' == fs' <==> es == fs && (sent ==> n == m)
  {
    OneMore(es, fs, tag, n, m);
  }

  /** The receiver has been told the size of what the sender sends in this turn. */
  predicate ToldOf(there: Turn, here: Turn) {
    here.route.Some? ==> here.n == |there.data|
  }

  ghost predicate Told(theirs: seq<Turn>, ts: seq<Turn>, k: nat)
    requires k <= |ts| && k <= |theirs|
  {
    forall j :: 0 <= j < k ==> ToldOf(theirs[j], ts[j])
  }

  ghost predicate Match(own: Sizes, ts: seq<Turn>, own': Sizes, theirs: seq<Turn>, k: nat)
    requires k <= |ts| && k <= |theirs|
  {
    SendEnvelopes(Queue(own', theirs, k).sends) == ReceiveEnvelopes(Queue(own, ts, k).receives)
  }

  /** The messages of the sender and the receives of the receiver match one to one - same tags, same sizes, same order -
      if and only if the receiver has been told the right size of every buffer that is sent. */
  lemma {:induction false} Pairing(own: Sizes, ts: seq<Turn>, own': Sizes, theirs: seq<Turn>, k: nat)
    requires SameRoutes(theirs, ts) && k <= |ts|
    ensures Match(own, ts, own', theirs, k) <==> Told(theirs, ts, k)
  {
    if k > 0 {
      Pairing(own, ts, own', theirs, k - 1);
      PairingStep(own, ts, own', theirs, k - 1);
      assert Told(theirs, ts, k) <==> Told(theirs, ts, k - 1) && ToldOf(theirs[k - 1], ts[k - 1]);
    }
  }

  lemma PairingStep(own: Sizes, ts: seq<Turn>, own': Sizes, theirs: seq<Turn>, k: nat)
    requires SameRoutes(theirs, ts) && k < |ts|
    ensures Match(own, ts, own', theirs, k + 1) <==> Match(own, ts, own', theirs, k) && ToldOf(theirs[k], ts[k])
  {
    Envelopes(own, ts, k);
    Envelopes(own', theirs, k);
    TagsBelow(own, ts, k);
    TagsBelow(own', theirs, k);
    Numbered(own, ts, k);
    Numbered(own', theirs, k);
    SameTagAt(theirs, ts, k);
    MatchNext(SendEnvelopes(Queue(own', theirs, k).sends), ReceiveEnvelopes(Queue(own, ts, k).receives),
              SendEnvelopes(Queue(own', theirs, k + 1).sends), ReceiveEnvelopes(Queue(own, ts, k + 1).receives),
              ts[k].route.Some?, TagAt(ts, k), |theirs[k].data|, ts[k].n);
  }

  // ------------------------------------------------------------ step two: what arrives

  /** The data of the message with this tag; nothing is sent for empty data. */
  function DataOf(sends: seq<Message>, tag: nat): seq<Entry> {
    if sends == [] then []
    else if sends[|sends| - 1].tag == tag then sends[|sends| - 1].data
    else DataOf(sends[..|sends| - 1], tag)
  }

  lemma {:induction false} NoData(sends: seq<Message>, tag: nat)
    requires Below(SendEnvelopes(sends), tag)
    ensures DataOf(sends, tag) == []
  {
    if sends != [] {
      assert SendEnvelopes(sends)[|sends| - 1].tag < tag;
      NoData(sends[..|sends| - 1], tag);
    }
  }

  function WithMessage(sends: seq<Message>, tag: nat, data: seq<Entry>): seq<Message> {
    if |data| > 0 then sends + [Message(tag, data)] else sends
  }

  lemma DataNext(sends: seq<Message>, tag: nat, data: seq<Entry>, t: nat)
    requires t == tag ==> DataOf(sends, t) == []
    ensures DataOf(WithMessage(sends, tag, data), t) == if t == tag then data else DataOf(sends, t)
  {
    if |data| > 0 {
      assert WithMessage(sends, tag, data)[..|sends|] == sends;
    }
  }

  /** The tag of a turn leads to the data of its buffer. */
  lemma {:induction false} DataFound(own: Sizes, ts: seq<Turn>, j: nat, k: nat)
    requires j < k <= |ts| && ts[j].route.Some?
    ensures DataOf(Queue(own, ts, k).sends, TagAt(ts, j)) == ts[j].data
  {
    var q := Queue(own, ts, k - 1);
    Numbered(own, ts, k - 1);
    assert ts[k - 1].route.Some? ==> Queue(own, ts, k).sends == WithMessage(q.sends, q.tag, ts[k - 1].data);
    if k == j + 1 {
      TagsBelow(own, ts, j);
      NoData(q.sends, q.tag);
    } else {
      TagsGrow(ts, j + 1, k - 1);
      DataFound(own, ts, j, k - 1);
    }
    DataNext(q.sends, q.tag, ts[k - 1].data, TagAt(ts, j));
  }

  /** What the first `k` turns bring for buffer `b`. */
  function Incoming(ts: seq<Turn>, b: Buffer, k: nat): nat
    requires k <= |ts|
  {
    if k == 0 then 0 else Incoming(ts, b, k - 1) + if ts[k - 1].route == Some(b) then ts[k - 1].n else 0
  }

  lemma {:induction false} ReceivedIsIncoming(own: Sizes, ts: seq<Turn>, b: Buffer, k: nat)
    requires k <= |ts|
    ensures At(Queue(own, ts, k).received, b) == Incoming(ts, b, k)
  {
    if k > 0 {
      ReceivedIsIncoming(own, ts, b, k - 1);
    }
  }

  lemma {:induction false} IncomingIsAnnounced(g: Grid, once: bool, d: Dir, mine: Store, remote: Buffer -> nat, b: Buffer, k: nat)
    requires k <= 21
    ensures Incoming(Turns(g, once, d, mine, remote), b, k) == Announced(g, once, d, remote, b, k)
  {
    if k > 0 {
      IncomingIsAnnounced(g, once, d, mine, remote, b, k - 1);
    }
  }

  /** The receives bring as much per buffer as was announced for the sizes they were posted with. */
  lemma ReceivedIsAnnounced(g: Grid, once: bool, d: Dir, own: Sizes, mine: Store, remote: Buffer -> nat, b: Buffer)
    ensures var ts := Turns(g, once, d, mine, remote); At(Queue(own, ts, |ts|).received, b) == Announced(g, once, d, remote, b, 21)
  {
    var ts := Turns(g, once, d, mine, remote);
    ReceivedIsIncoming(own, ts, b, |ts|);
    IncomingIsAnnounced(g, once, d, mine, remote, b, 21);
  }

  /** The request writes behind the old data of its buffer and within the places it will have. */
  predicate InRange(own: Sizes, received: Sizes, r: Receive) {
    At(own, r.into) <= r.offset && r.offset + r.size <= At(own, r.into) + At(received, r.into)
  }

  predicate Before(r: Receive, s: Receive) {
    r.into == s.into ==> r.offset + r.size <= s.offset
  }

  /** No two requests write to the same place, and none overwrites what is there already. */
  ghost predicate Apart(own: Sizes, q: Posted) {
    && (forall i :: 0 <= i < |q.receives| ==> InRange(own, q.received, q.receives[i]))
    && (forall i, j :: 0 <= i < j < |q.receives| ==> Before(q.receives[i], q.receives[j]))
  }

  lemma {:induction false} RequestsApart(own: Sizes, ts: seq<Turn>, k: nat)
    requires k <= |ts|
    ensures Apart(own, Queue(own, ts, k))
  {
    if k > 0 {
      RequestsApart(own, ts, k - 1);
      if ts[k - 1].route.Some? {
        OneMoreApart(own, Queue(own, ts, k - 1), ts[k - 1].route.value, ts[k - 1].data, ts[k - 1].n);
      }
    }
  }

  lemma OneMoreApart(own: Sizes, q: Posted, b: Buffer, data: seq<Entry>, n: nat)
    requires Apart(own, q)
    ensures Apart(own, Next(q, own, b, data, n))
  {
    var q' := Next(q, own, b, data, n);
    forall i | 0 <= i < |q'.receives|
      ensures InRange(own, q'.received, q'.receives[i])
    {
      if i < |q.receives| {
        assert InRange(own, q.received, q.receives[i]);
      }
    }
    forall i, j | 0 <= i < j < |q'.receives|
      ensures Before(q'.receives[i], q'.receives[j])
    {
      assert InRange(own, q.received, q.receives[i]);
      if j < |q.receives| {
        assert Before(q.receives[i], q.receives[j]);
      }
    }
  }

  /** The message has been written to its place. */
  predicate Arrived(m: Contents, r: Receive, data: seq<Entry>) {
    r.offset + r.size <= |Held(m, r.into)| && Held(m, r.into)[r.offset..r.offset + r.size] == data
  }

  /** The buffer has grown by what is to be received, and starts with what it held before. */
  predicate GrownFrom(before: Contents, received: Sizes, m: Contents, b: Buffer) {
    |Held(m, b)| == |Held(before, b)| + At(received, b) && Held(before, b) <= Held(m, b)
  }

  /** All messages have arrived. */
  ghost predicate Landed(before: Contents, q: Posted, sends: seq<Message>, m: Contents) {
    && (forall b: Buffer :: GrownFrom(before, q.received, m, b))
    && forall i :: 0 <= i < |q.receives| ==> Arrived(m, q.receives[i], DataOf(sends, q.receives[i].tag))
  }

  ghost predicate Counts(own: Sizes, m: Contents) {
    forall b: Buffer :: At(own, b) == |Held(m, b)|
  }

  const BLANK: Entry := Entry(0, V3(0.0, 0.0, 0.0), Attr(0.0, 0.0))

  function Enlarged(before: Contents, received: Sizes): Contents {
    map b | b in before.Keys + received.Keys :: Held(before, b) + seq(At(received, b), _ => BLANK)
  }

  function Written(m: Contents, r: Receive, data: seq<Entry>): Contents
    requires r.offset + r.size <= |Held(m, r.into)|
  {
    m[r.into := Held(m, r.into)[..r.offset] + data + Held(m, r.into)[r.offset + r.size..]]
  }

  lemma WrittenGrown(before: Contents, own: Sizes, received: Sizes, m: Contents, r: Receive, data: seq<Entry>, b: Buffer)
    requires Counts(own, before) && InRange(own, received, r) && |data| == r.size
    requires GrownFrom(before, received, m, b) && GrownFrom(before, received, m, r.into)
    ensures GrownFrom(before, received, Written(m, r, data), b)
  {
    if b == r.into {
      var s, s' := Held(m, b), Held(Written(m, r, data), b);
      assert At(own, b) == |Held(before, b)|;
      assert s'[..|Held(before, b)|] == s[..|Held(before, b)|];
    }
  }

  /** Writing one message leaves those that have arrived before alone. */
  lemma WrittenArrived(m: Contents, r: Receive, data: seq<Entry>, r': Receive, data': seq<Entry>)
    requires r.offset + r.size <= |Held(m, r.into)| && |data| == r.size && Arrived(m, r', data')
    requires Before(r, r') || Before(r', r)
    ensures Arrived(Written(m, r, data), r, data) && Arrived(Written(m, r, data), r', data')
  {
    var s, s' := Held(m, r.into), Held(Written(m, r, data), r.into);
    assert s'[r.offset..r.offset + r.size] == data;
    if r.into == r'.into {
      assert s'[r'.offset..r'.offset + r'.size] == s[r'.offset..r'.offset + r'.size];
    }
  }

  function UpTo(n: nat): (s: set<nat>)
    ensures forall i: int :: i in s <==> 0 <= i < n
  {
    if n == 0 then {} else UpTo(n - 1) + {n - 1}
  }

  /** Wait until all requests are complete, in whatever order that happens. */
  method WaitAll(before: Contents, ghost own: Sizes, q: Posted, sends: seq<Message>) returns (m: Contents)
    requires Counts(own, before) && Apart(own, q)
    requires forall i :: 0 <= i < |q.receives| ==> |DataOf(sends, q.receives[i].tag)| == q.receives[i].size
    ensures Landed(before, q, sends, m)
  {
    m := Enlarged(before, q.received);
    var pending := UpTo(|q.receives|);
    while pending != {}
      invariant forall i :: i in pending ==> 0 <= i < |q.receives|
      invariant forall b: Buffer :: GrownFrom(before, q.received, m, b)
      invariant forall i :: 0 <= i < |q.receives| && i !in pending ==> Arrived(m, q.receives[i], DataOf(sends, q.receives[i].tag))
    {
      var i :| i in pending;
      m := Complete(before, own, q, sends, m, i, pending);
      pending := pending - {i};
    }
  }

  method Complete(before: Contents, ghost own: Sizes, q: Posted, sends: seq<Message>, m: Contents, i: nat, ghost pending: set<nat>)
    returns (m': Contents)
    requires Counts(own, before) && Apart(own, q) && i in pending && i < |q.receives|
    requires |DataOf(sends, q.receives[i].tag)| == q.receives[i].size
    requires forall b: Buffer :: GrownFrom(before, q.received, m, b)
    requires forall j :: 0 <= j < |q.receives| && j !in pending ==> Arrived(m, q.receives[j], DataOf(sends, q.receives[j].tag))
    ensures forall b: Buffer :: GrownFrom(before, q.received, m', b)
    ensures Arrived(m', q.receives[i], DataOf(sends, q.receives[i].tag))
    ensures forall j :: 0 <= j < |q.receives| && j !in pending ==> Arrived(m', q.receives[j], DataOf(sends, q.receives[j].tag))
  {
    var r, data := q.receives[i], DataOf(sends, q.receives[i].tag);
    assert InRange(own, q.received, r) && At(own, r.into) == |Held(before, r.into)|;
    assert GrownFrom(before, q.received, m, r.into);
    m' := Written(m, r, data);
    forall b: Buffer
      ensures GrownFrom(before, q.received, m', b)
    {
      WrittenGrown(before, own, q.received, m, r, data, b);
    }
    assert Arrived(m', r, data) by {
      assert Held(m', r.into)[r.offset..r.offset + r.size] == data;
    }
    forall j | 0 <= j < |q.receives| && j !in pending
      ensures Arrived(m', q.receives[j], DataOf(sends, q.receives[j].tag))
    {
      assert if i < j then Before(q.receives[i], q.receives[j]) else Before(q.receives[j], q.receives[i]);
      WrittenArrived(m, r, data, q.receives[j], DataOf(sends, q.receives[j].tag));
    }
  }

  // ------------------------------------------------------------ step two delivers

  /** Every receive finds a message of its size. */
  lemma SizesMatch(own: Sizes, ts: seq<Turn>, own': Sizes, theirs: seq<Turn>, i: nat)
    requires SameRoutes(theirs, ts) && Told(theirs, ts, |ts|) && i < |Queue(own, ts, |ts|).receives|
    ensures var r := Queue(own, ts, |ts|).receives[i]; |DataOf(Queue(own', theirs, |ts|).sends, r.tag)| == r.size
  {
    var j := PostedIn(own, ts, i, |ts|);
    SameTagAt(theirs, ts, j);
    DataFound(own', theirs, j, |ts|);
    assert ToldOf(theirs[j], ts[j]);
  }

  /** The turn in which a receive was posted. */
  lemma {:induction false} PostedIn(own: Sizes, ts: seq<Turn>, i: nat, k: nat) returns (j: nat)
    requires k <= |ts| && i < |Queue(own, ts, k).receives|
    ensures j < k && ts[j].route.Some?
    ensures Queue(own, ts, k).receives[i].tag == TagAt(ts, j) && Queue(own, ts, k).receives[i].size == ts[j].n
  {
    Numbered(own, ts, k - 1);
    if i < |Queue(own, ts, k - 1).receives| {
      j := PostedIn(own, ts, i, k - 1);
    } else {
      j := k - 1;
    }
  }

  lemma {:induction false} QueueGrows(own: Sizes, ts: seq<Turn>, j: nat, k: nat)
    requires j <= k <= |ts|
    ensures Queue(own, ts, j).receives <= Queue(own, ts, k).receives
  {
    if j < k {
      QueueGrows(own, ts, j, k - 1);
    }
  }

  /** The receive that is posted in turn `k`. */
  lemma ReceiveOf(own: Sizes, ts: seq<Turn>, k: nat, b: Buffer)
    requires k < |ts| && ts[k].route == Some(b) && ts[k].n > 0
    ensures var i, all := |Queue(own, ts, k).receives|, Queue(own, ts, |ts|).receives;
            i < |all| && all[i] == Receive(TagAt(ts, k), b, At(own, b) + Incoming(ts, b, k), ts[k].n)
  {
    Numbered(own, ts, k);
    ReceivedIsIncoming(own, ts, b, k);
    QueueGrows(own, ts, k + 1, |ts|);
    assert |Queue(own, ts, k + 1).receives| == |Queue(own, ts, k).receives| + 1;
  }

  /** What the sender's turns put into buffer `b`. */
  function Outgoing(theirs: seq<Turn>, b: Buffer, k: nat): seq<Entry>
    requires k <= |theirs|
  {
    if k == 0 then [] else Outgoing(theirs, b, k - 1) + if theirs[k - 1].route == Some(b) then theirs[k - 1].data else []
  }

  lemma {:induction false} OutgoingIsForwarded(g: Grid, once: bool, d: Dir, theirs: Store, remote: Buffer -> nat, b: Buffer, k: nat)
    requires k <= 21
    ensures Outgoing(Turns(g, once, d, theirs, remote), b, k) == Forwarded(g, once, d, theirs, b, k)
  {
    if k > 0 {
      OutgoingIsForwarded(g, once, d, theirs, remote, b, k - 1);
    }
  }

  /** What has landed in turn `k`, behind what the turns before have brought. */
  lemma TurnLanded(before: Contents, own: Sizes, ts: seq<Turn>, own': Sizes, theirs: seq<Turn>, m: Contents, b: Buffer, k: nat)
    requires SameRoutes(theirs, ts) && k < |ts| && ToldOf(theirs[k], ts[k]) && ts[k].route == Some(b)
    requires Landed(before, Queue(own, ts, |ts|), Queue(own', theirs, |ts|).sends, m)
    requires At(own, b) + Incoming(ts, b, k) <= |Held(m, b)|
    ensures var n, data := At(own, b) + Incoming(ts, b, k), theirs[k].data;
            n + |data| <= |Held(m, b)| && Held(m, b)[n..n + |data|] == data
  {
    if ts[k].n > 0 {
      ReceiveOf(own, ts, k, b);
      SameTagAt(theirs, ts, k);
      DataFound(own', theirs, k, |ts|);
      var i, all := |Queue(own, ts, k).receives|, Queue(own, ts, |ts|).receives;
      assert Arrived(m, all[i], theirs[k].data);
    }
  }

  predicate StartsWith(s: seq<Entry>, n: nat, es: seq<Entry>, fs: seq<Entry>) {
    n <= |s| && s[..n] == es + fs
  }

  lemma Extend(s: seq<Entry>, n: nat, data: seq<Entry>, es: seq<Entry>, fs: seq<Entry>)
    requires StartsWith(s, n, es, fs) && n + |data| <= |s| && s[n..n + |data|] == data
    ensures StartsWith(s, n + |data|, es, fs + data)
  {
    assert s[..n + |data|] == s[..n] + data;
    assert es + fs + data == es + (fs + data);
  }

  /** What buffer `b` starts with when the messages of the first `k` turns have landed. */
  ghost predicate Begins(before: Contents, own: Sizes, ts: seq<Turn>, theirs: seq<Turn>, m: Contents, b: Buffer, k: nat)
    requires k <= |ts| && k <= |theirs|
  {
    StartsWith(Held(m, b), At(own, b) + Incoming(ts, b, k), Held(before, b), Outgoing(theirs, b, k))
  }

  lemma BeginsNext(before: Contents, own: Sizes, ts: seq<Turn>, own': Sizes, theirs: seq<Turn>, m: Contents, b: Buffer, k: nat)
    requires SameRoutes(theirs, ts) && k < |ts| && ToldOf(theirs[k], ts[k])
    requires Landed(before, Queue(own, ts, |ts|), Queue(own', theirs, |ts|).sends, m)
    requires Begins(before, own, ts, theirs, m, b, k)
    ensures Begins(before, own, ts, theirs, m, b, k + 1)
  {
    if ts[k].route == Some(b) {
      TurnLanded(before, own, ts, own', theirs, m, b, k);
      Extend(Held(m, b), At(own, b) + Incoming(ts, b, k), theirs[k].data, Held(before, b), Outgoing(theirs, b, k));
      assert Incoming(ts, b, k + 1) == Incoming(ts, b, k) + |theirs[k].data|;
    } else {
      assert Outgoing(theirs, b, k + 1) == Outgoing(theirs, b, k);
    }
  }

  lemma {:induction false} LandedSoFar(before: Contents, own: Sizes, ts: seq<Turn>, own': Sizes, theirs: seq<Turn>, m: Contents,
                                       b: Buffer, k: nat)
    requires SameRoutes(theirs, ts) && k <= |ts| && Counts(own, before) && Told(theirs, ts, |ts|)
    requires Landed(before, Queue(own, ts, |ts|), Queue(own', theirs, |ts|).sends, m)
    ensures Begins(before, own, ts, theirs, m, b, k)
  {
    if k == 0 {
      assert At(own, b) == |Held(before, b)|;
      assert GrownFrom(before, Queue(own, ts, |ts|).received, m, b);
      assert Held(m, b)[..At(own, b)] == Held(before, b) == Held(before, b) + [];
    } else {
      LandedSoFar(before, own, ts, own', theirs, m, b, k - 1);
      assert ToldOf(theirs[k - 1], ts[k - 1]);
      BeginsNext(before, own, ts, own', theirs, m, b, k - 1);
    }
  }

  /** Once all messages have landed, in whatever order, every buffer holds what it held before followed by what the
      specification forwards into it. */
  lemma Delivered(g: Grid, once: bool, d: Dir, before: Contents, own: Sizes, mine: Store, remote: Buffer -> nat,
                  own': Sizes, theirs: Store, remote': Buffer -> nat, m: Contents, b: Buffer)
    requires Counts(own, before) && Told(Turns(g, once, d, theirs, remote'), Turns(g, once, d, mine, remote), 21)
    requires var ts, us := Turns(g, once, d, mine, remote), Turns(g, once, d, theirs, remote');
             Landed(before, Queue(own, ts, |ts|), Queue(own', us, |us|).sends, m)
    ensures Held(m, b) == Held(before, b) + Forwarded(g, once, d, theirs, b, 21)
  {
    var ts, us := Turns(g, once, d, mine, remote), Turns(g, once, d, theirs, remote');
    LandedSoFar(before, own, ts, own', us, m, b, |ts|);
    OutgoingIsForwarded(g, once, d, theirs, remote', b, 21);
    ReceivedIsIncoming(own, ts, b, |ts|);
    assert GrownFrom(before, Queue(own, ts, |ts|).received, m, b) && At(own, b) == |Held(before, b)|;
    assert Held(m, b)[..|Held(m, b)|] == Held(m, b);
  }
}
