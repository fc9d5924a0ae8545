/** The buffered exchange on all ranks in lock step, and the update that refreshes the ghosts through the same buffers
    without telling any sizes again. */
module GpuUpdate {
  import opened Vectors
  import opened Decomposition
  import opened Routing
  import opened GpuExchange
  import opened GpuMessages

  function OfRanks(g: Grid, all: seq<Contents>): Coord -> Store {
    (c: Coord) => AsStore(if InGrid(g, c) && 0 <= Index(g, c) < |all| then all[Index(g, c)] else map[])
  }

  /** The buffers of rank `c` are those of the specification after `d` directions. */
  ghost predicate AsSpecified(g: Grid, m: Contents, packed: Coord -> Store, once: bool, d: nat, c: Coord)
    requires d <= 6
  {
    forall b: Buffer :: Held(m, b) == Stored(g, packed, once, d, c, b)
  }

  /** So are those of the first ranks. */
  ghost predicate FirstSpecified(g: Grid, some: seq<Contents>, packed: Coord -> Store, once: bool, d: nat)
    requires d <= 6
  {
    forall r: nat :: r < |some| ==> AsSpecified(g, some[r], packed, once, d, Triple(g, r))
  }

  lemma OneMoreSpecified(g: Grid, some: seq<Contents>, m: Contents, packed: Coord -> Store, once: bool, d: nat)
    requires d <= 6 && FirstSpecified(g, some, packed, once, d) && AsSpecified(g, m, packed, once, d, Triple(g, |some|))
    ensures FirstSpecified(g, some + [m], packed, once, d)
  {
    forall r: nat | r < |some| + 1
      ensures AsSpecified(g, (some + [m])[r], packed, once, d, Triple(g, r))
    {
      assert (some + [m])[r] == if r < |some| then some[r] else m;
    }
  }

  ghost predicate AllSpecified(g: Grid, all: seq<Contents>, packed: Coord -> Store, once: bool, d: nat)
    requires d <= 6
  {
    |all| == NumRanks(g) && FirstSpecified(g, all, packed, once, d)
  }

  ghost predicate AllCounted(own: seq<Sizes>, all: seq<Contents>) {
    |own| == |all| && forall r :: 0 <= r < |all| ==> Counts(own[r], all[r])
  }

  /** These are the sizes of the buffers that rank `c` receives from in direction `d`. */
  ghost predicate SizesFrom(g: Grid, packed: Coord -> Store, once: bool, d: Dir, c: Coord, remote: Buffer -> nat) {
    forall b: Buffer :: remote(b) == |Stored(g, packed, once, d, Neighbor(g, c, Opposite(d)), b)|
  }

  /** These are the numbers by which the buffers of rank `c` grow in direction `d`. */
  ghost predicate GrowthOf(g: Grid, packed: Coord -> Store, once: bool, d: Dir, c: Coord, received: Sizes) {
    forall b: Buffer :: |Stored(g, packed, once, d + 1, c, b)| == |Stored(g, packed, once, d, c, b)| + At(received, b)
  }

  /** What a rank learns in step one: the sizes of the buffers it receives from, and how much will arrive per buffer. */
  datatype Info = Info(remote: Buffer -> nat, received: Sizes)

  ghost predicate Informed(g: Grid, packed: Coord -> Store, once: bool, d: Dir, c: Coord, i: Info) {
    SizesFrom(g, packed, once, d, c, i.remote) && GrowthOf(g, packed, once, d, c, i.received)
  }

  ghost predicate AllInformed(g: Grid, packed: Coord -> Store, once: bool, d: Dir, infos: seq<Info>) {
    |infos| == NumRanks(g) && forall r: nat :: r < |infos| ==> Informed(g, packed, once, d, Triple(g, r), infos[r])
  }

  lemma SourceIndex(g: Grid, r: nat, d: Dir)
    requires r < NumRanks(g)
    ensures var from := NeighborRank(g, r, Opposite(d));
            0 <= from < NumRanks(g) && Triple(g, from) == Neighbor(g, Triple(g, r), Opposite(d))
  {
    CoordOfRank(g, r);
    NeighborMoves(g, Triple(g, r), Opposite(d));
    RankOfCoord(g, Neighbor(g, Triple(g, r), Opposite(d)));
  }

  // ------------------------------------------------------------ step one on all ranks

  lemma SentSizes(g: Grid, theirs: Contents, packed: Coord -> Store, once: bool, d: Dir, c: Coord)
    requires AsSpecified(g, theirs, packed, once, d, Neighbor(g, c, Opposite(d)))
    ensures SizesFrom(g, packed, once, d, c, SizeOf(AsStore(theirs)))
  {
    forall b: Buffer
      ensures SizeOf(AsStore(theirs))(b) == |Stored(g, packed, once, d, Neighbor(g, c, Opposite(d)), b)|
    {
      assert Held(theirs, b) == Stored(g, packed, once, d, Neighbor(g, c, Opposite(d)), b);
    }
  }

  lemma {:induction false} SameAnnounced(g: Grid, once: bool, d: Dir, sizes: Buffer -> nat, sizes': Buffer -> nat, b: Buffer, k: nat)
    requires k <= 21 && forall b' :: sizes(b') == sizes'(b')
    ensures Announced(g, once, d, sizes, b, k) == Announced(g, once, d, sizes', b, k)
  {
    if k > 0 {
      SameAnnounced(g, once, d, sizes, sizes', b, k - 1);
    }
  }

  lemma AnnouncedIsGrowth(g: Grid, packed: Coord -> Store, once: bool, d: Dir, c: Coord, remote: Buffer -> nat, announced: Sizes)
    requires Communicating(g, d) && SizesFrom(g, packed, once, d, c, remote)
    requires forall b: Buffer :: At(announced, b) == Announced(g, once, d, remote, b, 21)
    ensures GrowthOf(g, packed, once, d, c, announced)
  {
    var theirs := StoreOf(g, packed, once, d, Neighbor(g, c, Opposite(d)));
    forall b: Buffer
      ensures |Stored(g, packed, once, d + 1, c, b)| == |Stored(g, packed, once, d, c, b)| + At(announced, b)
    {
      assert forall b' :: SizeOf(theirs)(b') == remote(b');
      SameAnnounced(g, once, d, SizeOf(theirs), remote, b, 21);
      AnnouncedIsSent(g, once, d, theirs, b, 21);
    }
  }

  /** What rank `r` is told by its upstream neighbour. */
  method Tell(g: Grid, t: Table, d: Dir, all: seq<Contents>, r: nat, once: bool, ghost packed: Coord -> Store) returns (info: Info)
    requires RoutesDirection(g, t, d) && Communicating(g, d) && AllSpecified(g, all, packed, once, d) && r < |all|
    ensures Informed(g, packed, once, d, Triple(g, r), info)
  {
    SourceIndex(g, r, d);
    var from := NeighborRank(g, r, Opposite(d));
    assert AsSpecified(g, all[from], packed, once, d, Triple(g, from));
    var remote := SizeOf(AsStore(all[from]));
    var announced := StepOne(g, t, d, remote, once);
    SentSizes(g, all[from], packed, once, d, Triple(g, r));
    AnnouncedIsGrowth(g, packed, once, d, Triple(g, r), remote, announced);
    info := Info(remote, announced);
  }

  /** Every rank tells the next one its sizes and what will arrive. */
  method TellAll(g: Grid, t: Table, d: Dir, all: seq<Contents>, once: bool, ghost packed: Coord -> Store) returns (infos: seq<Info>)
    requires RoutesDirection(g, t, d) && Communicating(g, d) && AllSpecified(g, all, packed, once, d)
    ensures AllInformed(g, packed, once, d, infos)
  {
    infos := [];
    for r := 0 to |all|
      invariant |infos| == r && forall q: nat :: q < r ==> Informed(g, packed, once, d, Triple(g, q), infos[q])
    {
      var info := Tell(g, t, d, all, r, once, packed);
      infos := infos + [info];
    }
  }

  // ------------------------------------------------------------ step two on all ranks

  /** What rank `r` posts in direction `d`. */
  ghost predicate HasPosted(g: Grid, once: bool, d: Dir, own: Sizes, mine: Contents, remote: Buffer -> nat, q: Posted) {
    q == Queue(own, Turns(g, once, d, AsStore(mine), remote), |Turns(g, once, d, AsStore(mine), remote)|)
  }

  ghost predicate AllPosted(g: Grid, once: bool, d: Dir, own: seq<Sizes>, all: seq<Contents>, infos: seq<Info>, posted: seq<Posted>) {
    && |own| == |infos| == |posted| == |all|
    && forall r :: 0 <= r < |all| ==> HasPosted(g, once, d, own[r], all[r], infos[r].remote, posted[r])
  }

  method PostAll(g: Grid, t: Table, d: Dir, all: seq<Contents>, own: seq<Sizes>, infos: seq<Info>, once: bool)
    returns (posted: seq<Posted>)
    requires RoutesDirection(g, t, d) && Communicating(g, d) && |own| == |infos| == |all|
    ensures AllPosted(g, once, d, own, all, infos, posted)
  {
    posted := [];
    for r := 0 to |all|
      invariant |posted| == r
      invariant forall q :: 0 <= q < r ==> HasPosted(g, once, d, own[q], all[q], infos[q].remote, posted[q])
    {
      var exchanger := new Exchanger(own[r]);
      exchanger.StepTwo(g, t, d, AsStore(all[r]), infos[r].remote, once);
      posted := posted + [exchanger.State()];
    }
  }

  /** A rank that has been told the right sizes: its requests are met by the messages of the upstream neighbour. */
  lemma RequestsAreMet(g: Grid, packed: Coord -> Store, once: bool, d: Dir, c: Coord, own: Sizes, mine: Contents, remote: Buffer -> nat,
                       q: Posted, own': Sizes, theirs: Contents, remote': Buffer -> nat, p: Posted)
    requires HasPosted(g, once, d, own, mine, remote, q) && HasPosted(g, once, d, own', theirs, remote', p)
    requires SizesFrom(g, packed, once, d, c, remote) && AsSpecified(g, theirs, packed, once, d, Neighbor(g, c, Opposite(d)))
    ensures var ts, us := Turns(g, once, d, AsStore(mine), remote), Turns(g, once, d, AsStore(theirs), remote');
            SameRoutes(us, ts) && Told(us, ts, 21)
    ensures SendEnvelopes(p.sends) == ReceiveEnvelopes(q.receives) && Apart(own, q)
    ensures forall i :: 0 <= i < |q.receives| ==> |DataOf(p.sends, q.receives[i].tag)| == q.receives[i].size
  {
    var ts, us := Turns(g, once, d, AsStore(mine), remote), Turns(g, once, d, AsStore(theirs), remote');
    forall k | 0 <= k < 21
      ensures ToldOf(us[k], ts[k])
    {
      assert Held(theirs, Source(d, k)) == Stored(g, packed, once, d, Neighbor(g, c, Opposite(d)), Source(d, k));
    }
    Pairing(own, ts, own', us, |ts|);
    RequestsApart(own, ts, |ts|);
    forall i | 0 <= i < |q.receives|
      ensures |DataOf(p.sends, q.receives[i].tag)| == q.receives[i].size
    {
      SizesMatch(own, ts, own', us, i);
    }
  }

  lemma StepSpecified(g: Grid, packed: Coord -> Store, once: bool, d: Dir, c: Coord, mine: Contents, theirs: Contents, m: Contents)
    requires Communicating(g, d) && AsSpecified(g, mine, packed, once, d, c)
    requires AsSpecified(g, theirs, packed, once, d, Neighbor(g, c, Opposite(d)))
    requires forall b: Buffer :: Held(m, b) == Held(mine, b) + Forwarded(g, once, d, AsStore(theirs), b, 21)
    ensures AsSpecified(g, m, packed, once, d + 1, c)
  {
    var s := StoreOf(g, packed, once, d, Neighbor(g, c, Opposite(d)));
    forall b: Buffer
      ensures AsStore(theirs)(b) == s(b)
    {
    }
    forall b: Buffer
      ensures Held(m, b) == Stored(g, packed, once, d + 1, c, b)
    {
      ForwardedSame(g, once, d, AsStore(theirs), s, b, 21);
      assert Held(mine, b) == Stored(g, packed, once, d, c, b);
    }
  }

  lemma {:induction false} ForwardedSame(g: Grid, once: bool, d: Dir, s: Store, s': Store, b: Buffer, k: nat)
    requires k <= 21 && forall b :: s(b) == s'(b)
    ensures Forwarded(g, once, d, s, b, k) == Forwarded(g, once, d, s', b, k)
  {
    if k > 0 {
      ForwardedSame(g, once, d, s, s', b, k - 1);
    }
  }

  /** One rank waits for its messages. */
  method Collect(g: Grid, once: bool, d: Dir, ghost packed: Coord -> Store, ghost c: Coord,
                 ghost own: Sizes, mine: Contents, ghost remote: Buffer -> nat, q: Posted,
                 ghost own': Sizes, ghost theirs: Contents, ghost remote': Buffer -> nat, p: Posted) returns (m: Contents)
    requires Communicating(g, d) && Counts(own, mine) && AsSpecified(g, mine, packed, once, d, c)
    requires HasPosted(g, once, d, own, mine, remote, q) && HasPosted(g, once, d, own', theirs, remote', p)
    requires SizesFrom(g, packed, once, d, c, remote) && AsSpecified(g, theirs, packed, once, d, Neighbor(g, c, Opposite(d)))
    ensures AsSpecified(g, m, packed, once, d + 1, c)
  {
    RequestsAreMet(g, packed, once, d, c, own, mine, remote, q, own', theirs, remote', p);
    m := WaitAll(mine, own, q, p.sends);
    forall b: Buffer
      ensures Held(m, b) == Held(mine, b) + Forwarded(g, once, d, AsStore(theirs), b, 21)
    {
      Delivered(g, once, d, mine, own, AsStore(mine), remote, own', AsStore(theirs), remote', m, b);
    }
    StepSpecified(g, packed, once, d, c, mine, theirs, m);
  }

  method CollectAt(g: Grid, d: Dir, all: seq<Contents>, ghost own: seq<Sizes>, ghost infos: seq<Info>, posted: seq<Posted>, r: nat,
                   once: bool, ghost packed: Coord -> Store) returns (m: Contents)
    requires Communicating(g, d) && AllSpecified(g, all, packed, once, d) && AllCounted(own, all) && r < |all|
    requires AllInformed(g, packed, once, d, infos) && AllPosted(g, once, d, own, all, infos, posted)
    ensures AsSpecified(g, m, packed, once, d + 1, Triple(g, r))
  {
    SourceIndex(g, r, d);
    var from := NeighborRank(g, r, Opposite(d));
    assert HasPosted(g, once, d, own[from], all[from], infos[from].remote, posted[from]);
    assert AsSpecified(g, all[from], packed, once, d, Triple(g, from)) && Informed(g, packed, once, d, Triple(g, r), infos[r]);
    m := Collect(g, once, d, packed, Triple(g, r), own[r], all[r], infos[r].remote, posted[r],
                 own[from], all[from], infos[from].remote, posted[from]);
  }

  /** One more rank waits for its messages. */
  method CollectNext(g: Grid, d: Dir, all: seq<Contents>, ghost own: seq<Sizes>, ghost infos: seq<Info>, posted: seq<Posted>,
                     some: seq<Contents>, once: bool, ghost packed: Coord -> Store) returns (more: seq<Contents>)
    requires Communicating(g, d) && AllSpecified(g, all, packed, once, d) && AllCounted(own, all)
    requires AllInformed(g, packed, once, d, infos) && AllPosted(g, once, d, own, all, infos, posted)
    requires |some| < |all| && FirstSpecified(g, some, packed, once, d + 1)
    ensures |more| == |some| + 1 && FirstSpecified(g, more, packed, once, d + 1)
  {
    var m := CollectAt(g, d, all, own, infos, posted, |some|, once, packed);
    OneMoreSpecified(g, some, m, packed, once, d + 1);
    more := some + [m];
  }

  method CollectAll(g: Grid, d: Dir, all: seq<Contents>, ghost own: seq<Sizes>, ghost infos: seq<Info>, posted: seq<Posted>,
                    once: bool, ghost packed: Coord -> Store) returns (next: seq<Contents>)
    requires Communicating(g, d) && AllSpecified(g, all, packed, once, d) && AllCounted(own, all)
    requires AllInformed(g, packed, once, d, infos) && AllPosted(g, once, d, own, all, infos, posted)
    ensures AllSpecified(g, next, packed, once, d + 1)
  {
    next := [];
    for r := 0 to |all|
      invariant |next| == r && FirstSpecified(g, next, packed, once, d + 1)
    {
      next := CollectNext(g, d, all, own, infos, posted, next, once, packed);
    }
  }

  /** The counters of the buffers are increased by what has been received. */
  function Sum(m: Sizes, m': Sizes): (r: Sizes)
    ensures forall b: Buffer :: At(r, b) == At(m, b) + At(m', b)
  {
    map b | b in m.Keys + m'.Keys :: At(m, b) + At(m', b)
  }

  lemma CountedNext(g: Grid, packed: Coord -> Store, once: bool, d: Dir, c: Coord, own: Sizes, received: Sizes, mine: Contents, m: Contents)
    requires Counts(own, mine) && AsSpecified(g, mine, packed, once, d, c) && AsSpecified(g, m, packed, once, d + 1, c)
    requires GrowthOf(g, packed, once, d, c, received)
    ensures Counts(Sum(own, received), m)
  {
    forall b: Buffer
      ensures At(Sum(own, received), b) == |Held(m, b)|
    {
      assert At(own, b) == |Held(mine, b)| && Held(mine, b) == Stored(g, packed, once, d, c, b);
      assert Held(m, b) == Stored(g, packed, once, d + 1, c, b);
    }
  }

  method CountAll(g: Grid, d: Dir, ghost all: seq<Contents>, ghost next: seq<Contents>, own: seq<Sizes>, infos: seq<Info>, once: bool,
                  ghost packed: Coord -> Store) returns (own': seq<Sizes>)
    requires AllSpecified(g, all, packed, once, d) && AllSpecified(g, next, packed, once, d + 1)
    requires AllCounted(own, all) && AllInformed(g, packed, once, d, infos)
    ensures AllCounted(own', next)
  {
    own' := seq(|own|, r requires 0 <= r < |own| => Sum(own[r], infos[r].received));
    forall r: nat | r < |next|
      ensures Counts(own'[r], next[r])
    {
      assert Counts(own[r], all[r]) && Informed(g, packed, once, d, Triple(g, r), infos[r]);
      CountedNext(g, packed, once, d, Triple(g, r), own[r], infos[r].received, all[r], next[r]);
    }
  }

  /** Step two of one direction on all ranks, with what each has been told, now or earlier. */
  method StepTwoAll(g: Grid, t: Table, d: Dir, all: seq<Contents>, own: seq<Sizes>, infos: seq<Info>, once: bool,
                    ghost packed: Coord -> Store) returns (next: seq<Contents>, own': seq<Sizes>)
    requires RoutesDirection(g, t, d) && Communicating(g, d) && AllSpecified(g, all, packed, once, d)
    requires AllCounted(own, all) && AllInformed(g, packed, once, d, infos)
    ensures AllSpecified(g, next, packed, once, d + 1) && AllCounted(own', next)
  {
    var posted := PostAll(g, t, d, all, own, infos, once);
    next := CollectAll(g, d, all, own, infos, posted, once, packed);
    own' := CountAll(g, d, all, next, own, infos, once, packed);
  }

  // ------------------------------------------------------------ the whole exchange

  /** What a rank remembers of an exchange, by direction. */
  type Memory = map<Dir, Info>

  ghost predicate Remembers(g: Grid, m: Memory, packed: Coord -> Store, once: bool, d: nat, c: Coord) {
    forall e: Dir :: e < d && Communicating(g, e) ==> e in m && Informed(g, packed, once, e, c, m[e])
  }

  ghost predicate AllRemember(g: Grid, ms: seq<Memory>, packed: Coord -> Store, once: bool, d: nat) {
    |ms| == NumRanks(g) && forall r: nat :: r < |ms| ==> Remembers(g, ms[r], packed, once, d, Triple(g, r))
  }

  method NoteAll(g: Grid, ms: seq<Memory>, d: Dir, infos: seq<Info>, once: bool, ghost packed: Coord -> Store) returns (ms': seq<Memory>)
    requires AllRemember(g, ms, packed, once, d) && AllInformed(g, packed, once, d, infos)
    ensures AllRemember(g, ms', packed, once, d + 1)
  {
    ms' := seq(|ms|, r requires 0 <= r < |ms| => ms[r][d := infos[r]]);
    forall r: nat | r < |ms|
      ensures Remembers(g, ms'[r], packed, once, d + 1, Triple(g, r))
    {
      assert Remembers(g, ms[r], packed, once, d, Triple(g, r)) && Informed(g, packed, once, d, Triple(g, r), infos[r]);
    }
  }

  lemma NothingNew(g: Grid, ms: seq<Memory>, packed: Coord -> Store, once: bool, d: Dir)
    requires AllRemember(g, ms, packed, once, d) && !Communicating(g, d)
    ensures AllRemember(g, ms, packed, once, d + 1)
  {
    forall r: nat | r < |ms|
      ensures Remembers(g, ms[r], packed, once, d + 1, Triple(g, r))
    {
      assert Remembers(g, ms[r], packed, once, d, Triple(g, r));
    }
  }

  function CountsOf(m: Contents): (r: Sizes)
    ensures Counts(r, m)
  {
    map b | b in m :: |m[b]|
  }

  method StartCounts(start: seq<Contents>) returns (own: seq<Sizes>)
    ensures AllCounted(own, start)
  {
    own := seq(|start|, r requires 0 <= r < |start| => CountsOf(start[r]));
  }

  lemma StartSpecified(g: Grid, start: seq<Contents>, once: bool)
    requires |start| == NumRanks(g)
    ensures AllSpecified(g, start, OfRanks(g, start), once, 0)
  {
    forall r: nat | r < |start|
      ensures AsSpecified(g, start[r], OfRanks(g, start), once, 0, Triple(g, r))
    {
      CoordOfRank(g, r);
    }
  }

  lemma IdleSpecified(g: Grid, all: seq<Contents>, packed: Coord -> Store, once: bool, d: Dir)
    requires !Communicating(g, d) && AllSpecified(g, all, packed, once, d)
    ensures AllSpecified(g, all, packed, once, d + 1)
  {
    forall r: nat | r < |all|
      ensures AsSpecified(g, all[r], packed, once, d + 1, Triple(g, r))
    {
      assert AsSpecified(g, all[r], packed, once, d, Triple(g, r));
    }
  }

  /** The six directions on all ranks. The buffers end up with exactly what the specification says, and every rank
      remembers the sizes of all messages. */
  method BufferedExchange(g: Grid, t: Table, start: seq<Contents>, once: bool) returns (all: seq<Contents>, memories: seq<Memory>)
    requires |start| == NumRanks(g) && forall d: Dir :: RoutesDirection(g, t, d)
    ensures AllSpecified(g, all, OfRanks(g, start), once, 6)
    ensures AllRemember(g, memories, OfRanks(g, start), once, 6)
  {
    ghost var packed := OfRanks(g, start);
    all, memories := start, seq(|start|, _ => map[]);
    var own := StartCounts(start);
    StartSpecified(g, start, once);
    for d := 0 to 6
      invariant AllSpecified(g, all, packed, once, d) && AllCounted(own, all) && AllRemember(g, memories, packed, once, d)
    {
      if Communicating(g, d) {
        all, own, memories := ExchangeDirection(g, t, d, all, own, memories, once, packed);
      } else {
        IdleSpecified(g, all, packed, once, d);
        NothingNew(g, memories, packed, once, d);
      }
    }
  }

  method ExchangeDirection(g: Grid, t: Table, d: Dir, all: seq<Contents>, own: seq<Sizes>, memories: seq<Memory>, once: bool,
                           ghost packed: Coord -> Store)
    returns (next: seq<Contents>, own': seq<Sizes>, memories': seq<Memory>)
    requires RoutesDirection(g, t, d) && Communicating(g, d)
    requires AllSpecified(g, all, packed, once, d) && AllCounted(own, all) && AllRemember(g, memories, packed, once, d)
    ensures AllSpecified(g, next, packed, once, d + 1) && AllCounted(own', next) && AllRemember(g, memories', packed, once, d + 1)
  {
    var infos := TellAll(g, t, d, all, once, packed);
    memories' := NoteAll(g, memories, d, infos, once, packed);
    next, own' := StepTwoAll(g, t, d, all, own, infos, once, packed);
  }

  // ------------------------------------------------------------ refreshing ghosts through the same buffers

  ghost predicate SameNames(s: Store, s': Store) {
    forall b: Buffer :: Tags(s(b)) == Tags(s'(b))
  }

  ghost predicate SameTags(packed: Coord -> Store, packed': Coord -> Store) {
    forall c: Coord :: SameNames(packed(c), packed'(c))
  }

  /** An update sends other data through the same buffers. Every message has the size that step one of the
      last exchange announced, and every slot of every buffer still names the same tag. */
  lemma UpdateReplaysExchange(g: Grid, packed: Coord -> Store, packed': Coord -> Store, once: bool, d: nat, c: Coord, b: Buffer)
    requires d <= 6 && SameTags(packed, packed')
    ensures Tags(Stored(g, packed, once, d, c, b)) == Tags(Stored(g, packed', once, d, c, b))
    ensures |Stored(g, packed, once, d, c, b)| == |Stored(g, packed', once, d, c, b)|
  {
    SameNamesAt(g, packed, packed', once, d, c);
    var s, s' := StoreOf(g, packed, once, d, c), StoreOf(g, packed', once, d, c);
    assert |Tags(s(b))| == |s(b)| && |Tags(s'(b))| == |s'(b)|;
  }

  lemma {:induction false} SameNamesAt(g: Grid, packed: Coord -> Store, packed': Coord -> Store, once: bool, d: nat, c: Coord)
    requires d <= 6 && SameTags(packed, packed')
    ensures SameNames(StoreOf(g, packed, once, d, c), StoreOf(g, packed', once, d, c))
    decreases d
  {
    if d == 0 {
      SameNamesAtStart(g, packed, packed', once, c);
    } else {
      SameNamesAt(g, packed, packed', once, d - 1, c);
      SameNamesAt(g, packed, packed', once, d - 1, Neighbor(g, c, Opposite(d - 1)));
      ReplayStep(g, packed, packed', once, d - 1, c);
    }
  }

  lemma SameNamesAtStart(g: Grid, packed: Coord -> Store, packed': Coord -> Store, once: bool, c: Coord)
    requires SameNames(packed(c), packed'(c))
    ensures SameNames(StoreOf(g, packed, once, 0, c), StoreOf(g, packed', once, 0, c))
  {
    var s, s', t, t' := StoreOf(g, packed, once, 0, c), StoreOf(g, packed', once, 0, c), packed(c), packed'(c);
    forall b: Buffer ensures Tags(s(b)) == Tags(s'(b)) {
      assert s(b) == t(b) && s'(b) == t'(b);
    }
  }

  lemma ReplayStep(g: Grid, packed: Coord -> Store, packed': Coord -> Store, once: bool, d: Dir, c: Coord)
    requires SameNames(StoreOf(g, packed, once, d, c), StoreOf(g, packed', once, d, c))
    requires var from := Neighbor(g, c, Opposite(d));
             SameNames(StoreOf(g, packed, once, d, from), StoreOf(g, packed', once, d, from))
    ensures SameNames(StoreOf(g, packed, once, d + 1, c), StoreOf(g, packed', once, d + 1, c))
  {
    var s, s' := StoreOf(g, packed, once, d, c), StoreOf(g, packed', once, d, c);
    var from := Neighbor(g, c, Opposite(d));
    var f, f' := StoreOf(g, packed, once, d, from), StoreOf(g, packed', once, d, from);
    var t, t' := StoreOf(g, packed, once, d + 1, c), StoreOf(g, packed', once, d + 1, c);
    forall b: Buffer ensures Tags(t(b)) == Tags(t'(b)) {
      if Communicating(g, d) {
        ForwardedTags(g, once, d, f, f', b, 21);
        AppendTags(s(b), Forwarded(g, once, d, f, b, 21));
        AppendTags(s'(b), Forwarded(g, once, d, f', b, 21));
      } else {
        assert Stored(g, packed, once, d + 1, c, b) == s(b);
        assert Stored(g, packed', once, d + 1, c, b) == s'(b);
      }
    }
  }

  lemma AppendTags(es: seq<Entry>, fs: seq<Entry>)
    ensures Tags(es + fs) == Tags(es) + Tags(fs)
  {
  }

  lemma {:induction false} ForwardedTags(g: Grid, once: bool, d: Dir, s: Store, s': Store, b: Buffer, k: nat)
    requires k <= 21 && SameNames(s, s')
    ensures Tags(Forwarded(g, once, d, s, b, k)) == Tags(Forwarded(g, once, d, s', b, k))
  {
    if k > 0 {
      ForwardedTags(g, once, d, s, s', b, k - 1);
      var src := Source(d, k - 1);
      AppendTags(Forwarded(g, once, d, s, b, k - 1), if Sends(g, once, d, src, b) then s(src) else []);
      AppendTags(Forwarded(g, once, d, s', b, k - 1), if Sends(g, once, d, src, b) then s'(src) else []);
    } else {
      assert Forwarded(g, once, d, s, b, k) == Forwarded(g, once, d, s', b, k);
    }
  }

  // ------------------------------------------------------------ the update

  lemma SameSizesFrom(g: Grid, packed: Coord -> Store, packed': Coord -> Store, once: bool, d: Dir, c: Coord, remote: Buffer -> nat)
    requires SameTags(packed, packed') && SizesFrom(g, packed, once, d, c, remote)
    ensures SizesFrom(g, packed', once, d, c, remote)
  {
    forall b: Buffer
      ensures remote(b) == |Stored(g, packed', once, d, Neighbor(g, c, Opposite(d)), b)|
    {
      UpdateReplaysExchange(g, packed, packed', once, d, Neighbor(g, c, Opposite(d)), b);
    }
  }

  lemma SameGrowth(g: Grid, packed: Coord -> Store, packed': Coord -> Store, once: bool, d: Dir, c: Coord, received: Sizes)
    requires SameTags(packed, packed') && GrowthOf(g, packed, once, d, c, received)
    ensures GrowthOf(g, packed', once, d, c, received)
  {
    forall b: Buffer
      ensures |Stored(g, packed', once, d + 1, c, b)| == |Stored(g, packed', once, d, c, b)| + At(received, b)
    {
      UpdateReplaysExchange(g, packed, packed', once, d, c, b);
      UpdateReplaysExchange(g, packed, packed', once, d + 1, c, b);
    }
  }

  /** What the ranks remember holds for the new data, too. */
  method Recall(g: Grid, ms: seq<Memory>, once: bool, d: Dir, ghost packed: Coord -> Store, ghost packed': Coord -> Store)
    returns (infos: seq<Info>)
    requires SameTags(packed, packed') && AllRemember(g, ms, packed, once, 6) && Communicating(g, d)
    ensures AllInformed(g, packed', once, d, infos)
  {
    forall r: nat | r < |ms|
      ensures d in ms[r] && Informed(g, packed', once, d, Triple(g, r), ms[r][d])
    {
      assert Remembers(g, ms[r], packed, once, 6, Triple(g, r)) && Informed(g, packed, once, d, Triple(g, r), ms[r][d]);
      SameSizesFrom(g, packed, packed', once, d, Triple(g, r), ms[r][d].remote);
      SameGrowth(g, packed, packed', once, d, Triple(g, r), ms[r][d].received);
    }
    infos := seq(|ms|, r requires 0 <= r < |ms| && d in ms[r] => ms[r][d]);
  }

  /** Other data for the same particles is sent through the same buffers, with the sizes of the last exchange: no sizes are
      told. All messages find their requests, and the buffers end up with what an exchange of the new data would put there. */
  method UpdateBuffers(g: Grid, t: Table, start: seq<Contents>, memories: seq<Memory>, once: bool, ghost packed: Coord -> Store)
    returns (all: seq<Contents>)
    requires |start| == NumRanks(g) && forall d: Dir :: RoutesDirection(g, t, d)
    requires AllRemember(g, memories, packed, once, 6) && SameTags(packed, OfRanks(g, start))
    ensures AllSpecified(g, all, OfRanks(g, start), once, 6)
  {
    ghost var packed' := OfRanks(g, start);
    all := start;
    var own := StartCounts(start);
    StartSpecified(g, start, once);
    for d := 0 to 6
      invariant AllSpecified(g, all, packed', once, d) && AllCounted(own, all)
    {
      if Communicating(g, d) {
        var infos := Recall(g, memories, once, d, packed, packed');
        all, own := StepTwoAll(g, t, d, all, own, infos, once, packed');
      } else {
        IdleSpecified(g, all, packed', once, d);
      }
    }
  }
}
