/** The global lock-step operations over all ranks. */
module Communicator {
  import opened Vectors
  import opened Decomposition
  import opened Box
  import opened Sequences
  import opened Ranks
  import M = Migration
  import B = Bonds

  // ------------------------------------------------------------ all ranks in lock step

  /** Per-rank values as a function of the grid position. */
  function FromRanks<T>(g: Grid, values: seq<seq<T>>): Coord -> seq<T> {
    (c: Coord) => if InGrid(g, c) && 0 <= Index(g, c) < |values| then values[Index(g, c)] else []
  }

  lemma RankValue<T>(g: Grid, values: seq<seq<T>>, r: nat)
    requires |values| == NumRanks(g) && r < |values|
    ensures InGrid(g, Triple(g, r)) && FromRanks(g, values)(Triple(g, r)) == values[r]
  {
    CoordOfRank(g, r);
  }

  /** One object per MPI rank, each at its position in the grid. */
  ghost predicate Cluster(g: Grid, ranks: seq<Rank>) {
    && |ranks| == NumRanks(g)
    && (forall r :: 0 <= r < |ranks| ==> ranks[r].coord == Triple(g, r) && InGrid(g, ranks[r].coord))
    && (forall r, q :: 0 <= r < q < |ranks| ==> ranks[r] != ranks[q])
  }

  /** The rank's arrays and bond table are those that the specification gives after `d` directions. */
  ghost predicate After(rank: Rank, dom: Domain, start: M.Population, tables: B.BondTables, d: nat)
    requires dom.Valid() && d <= 6
    reads rank
  {
    && rank.LocalOnly()
    && rank.Particles() == M.Local(dom, start, d, rank.coord)
    && rank.bonds == B.BondsAt(dom, start, tables, d, rank.coord)
  }

  ghost predicate AllAfter(ranks: seq<Rank>, dom: Domain, start: M.Population, tables: B.BondTables, d: nat)
    requires dom.Valid() && d <= 6
    reads ranks
  {
    forall r :: 0 <= r < |ranks| ==> After(ranks[r], dom, start, tables, d)
  }

  /** What a rank has put into its send buffers. */
  ghost predicate HasSent(rank: Rank, dom: Domain, start: M.Population, tables: B.BondTables, d: Dir,
                          message: seq<M.Particle>, bondMessage: seq<B.Bond>, removed: seq<bool>)
    requires dom.Valid()
    reads rank
  {
    var ps := M.Local(dom, start, d, rank.coord);
    && rank.LocalOnly()
    && rank.bonds == B.BondsAt(dom, start, tables, d, rank.coord)
    && rank.Particles() == M.Kept(dom, rank.coord, ps, d)
    && message == M.Leaving(dom, rank.coord, ps, d)
    && bondMessage == Filter(rank.bonds, B.Touches(message))
    && |removed| == |rank.bonds|
    && forall i :: 0 <= i < |rank.bonds| ==> removed[i] == !B.Touches(rank.Particles())(rank.bonds[i])
  }

  /** Nothing that arrives is already local. */
  lemma ArrivalsNotLocal(rank: Rank, dom: Domain, start: M.Population, ros: M.Roster, d: Dir, message: seq<M.Particle>)
    requires dom.Valid() && InGrid(dom.grid, rank.coord) && M.Listed(dom.grid, start, ros) && Communicating(dom.grid, d)
    requires rank.LocalOnly()
    requires rank.Particles() == M.Kept(dom, rank.coord, M.Local(dom, start, d, rank.coord), d)
    requires var from := Neighbor(dom.grid, rank.coord, Opposite(d));
             message == M.Leaving(dom, from, M.Local(dom, start, d, from), d)
    ensures M.DistinctTags(message) && forall i :: 0 <= i < |message| ==> message[i].tag !in rank.rtag
  {
    Upstream(dom.grid, rank.coord, d);
    M.Tracking(dom, start, ros, d, rank.coord);
    M.Tracking(dom, start, ros, d, Neighbor(dom.grid, rank.coord, Opposite(d)));
    M.NoClash(dom, start, ros, d, rank.coord);
    ghost var ps := rank.Particles();
    assert forall k :: 0 <= k < rank.n ==> ps[k].tag == rank.tag[k];
  }

  /** The collected messages of one direction, as values. */
  ghost predicate Sent(dom: Domain, ranks: seq<Rank>, start: M.Population, tables: B.BondTables, d: Dir,
                       messages: seq<seq<M.Particle>>, bondMessages: seq<seq<B.Bond>>)
    requires dom.Valid()
  {
    && |messages| == |bondMessages| == |ranks|
    && forall q :: 0 <= q < |ranks| ==>
         && messages[q] == M.Leaving(dom, ranks[q].coord, M.Local(dom, start, d, ranks[q].coord), d)
         && bondMessages[q] == Filter(B.BondsAt(dom, start, tables, d, ranks[q].coord), B.Touches(messages[q]))
  }

  /** The rank number that rank `r` receives from belongs to its neighbour opposite to the sending direction. */
  lemma SourceRank(g: Grid, ranks: seq<Rank>, r: nat, d: Dir)
    requires Cluster(g, ranks) && r < |ranks|
    ensures var from := NeighborRank(g, r, Opposite(d));
            0 <= from < |ranks| && ranks[from].coord == Neighbor(g, ranks[r].coord, Opposite(d))
  {
    var c := Neighbor(g, ranks[r].coord, Opposite(d));
    Upstream(g, ranks[r].coord, d);
    RankOfCoord(g, c);
  }

  lemma ReceivesFrom(dom: Domain, ranks: seq<Rank>, start: M.Population, tables: B.BondTables, d: Dir,
                     messages: seq<seq<M.Particle>>, bondMessages: seq<seq<B.Bond>>, r: nat)
    requires dom.Valid() && Cluster(dom.grid, ranks) && r < |ranks|
    requires Sent(dom, ranks, start, tables, d, messages, bondMessages)
    ensures var from := NeighborRank(dom.grid, r, Opposite(d));
            var c := Neighbor(dom.grid, ranks[r].coord, Opposite(d));
            && 0 <= from < |ranks|
            && messages[from] == M.Leaving(dom, c, M.Local(dom, start, d, c), d)
            && bondMessages[from] == Filter(B.BondsAt(dom, start, tables, d, c), B.Touches(messages[from]))
  {
    SourceRank(dom.grid, ranks, r, d);
  }

  method SendAll(dom: Domain, ranks: seq<Rank>, d: Dir, ghost start: M.Population, ghost tables: B.BondTables)
    returns (messages: seq<seq<M.Particle>>, bondMessages: seq<seq<B.Bond>>, masks: seq<seq<bool>>)
    requires dom.Valid() && Cluster(dom.grid, ranks) && AllAfter(ranks, dom, start, tables, d)
    modifies ranks
    ensures Sent(dom, ranks, start, tables, d, messages, bondMessages) && |masks| == |ranks|
    ensures forall q :: 0 <= q < |ranks| ==> HasSent(ranks[q], dom, start, tables, d, messages[q], bondMessages[q], masks[q])
  {
    messages, bondMessages, masks := [], [], [];
    for r := 0 to |ranks|
      invariant |messages| == |bondMessages| == |masks| == r
      invariant forall q :: 0 <= q < r ==> HasSent(ranks[q], dom, start, tables, d, messages[q], bondMessages[q], masks[q])
      invariant forall q :: r <= q < |ranks| ==> After(ranks[q], dom, start, tables, d)
    {
      var message, bondMessage, removed := ranks[r].Send(dom, d);
      messages, bondMessages, masks := messages + [message], bondMessages + [bondMessage], masks + [removed];
    }
  }

  /** The receiving half of one direction on one rank. */
  method ReceiveOne(dom: Domain, rank: Rank, d: Dir, message: seq<M.Particle>, bondMessage: seq<B.Bond>, removed: seq<bool>,
                    ghost start: M.Population, ghost tables: B.BondTables, ghost ros: M.Roster, ghost own: (seq<M.Particle>, seq<B.Bond>))
    requires dom.Valid() && InGrid(dom.grid, rank.coord) && M.Listed(dom.grid, start, ros) && Communicating(dom.grid, d)
    requires HasSent(rank, dom, start, tables, d, own.0, own.1, removed)
    requires var from := Neighbor(dom.grid, rank.coord, Opposite(d));
             && message == M.Leaving(dom, from, M.Local(dom, start, d, from), d)
             && bondMessage == Filter(B.BondsAt(dom, start, tables, d, from), B.Touches(message))
    modifies rank
    ensures After(rank, dom, start, tables, d + 1)
  {
    ArrivalsNotLocal(rank, dom, start, ros, d, message);
    NextTables(dom, start, tables, d, rank.coord);
    ghost var kept := B.Touches(rank.Particles());
    rank.AppendReceived(dom, message);
    rank.UnpackRemoveBonds(bondMessage, removed, kept);
    assert rank.Particles() == M.Local(dom, start, d + 1, rank.coord);
  }

  /** The definitions of a rank's next particles and bonds, spelled out for a communicating direction. */
  lemma NextTables(dom: Domain, start: M.Population, tables: B.BondTables, d: Dir, c: Coord)
    requires dom.Valid() && Communicating(dom.grid, d)
    ensures var from := Neighbor(dom.grid, c, Opposite(d));
            var kept, message := M.Kept(dom, c, M.Local(dom, start, d, c), d), M.Leaving(dom, from, M.Local(dom, start, d, from), d);
            && M.Local(dom, start, d + 1, c) == kept + M.ArriveAll(dom, c, message)
            && B.BondsAt(dom, start, tables, d + 1, c) ==
               B.Merged(Filter(B.BondsAt(dom, start, tables, d, c), B.Touches(kept)),
                        Filter(B.BondsAt(dom, start, tables, d, from), B.Touches(message)))
  {
  }

  /** The receiving half of one direction on all ranks: everybody takes the message of the neighbour
      opposite to the sending direction. */
  method ReceiveAll(dom: Domain, ranks: seq<Rank>, d: Dir, messages: seq<seq<M.Particle>>,
                    bondMessages: seq<seq<B.Bond>>, masks: seq<seq<bool>>,
                    ghost start: M.Population, ghost tables: B.BondTables, ghost ros: M.Roster)
    requires dom.Valid() && Cluster(dom.grid, ranks) && Communicating(dom.grid, d) && M.Listed(dom.grid, start, ros)
    requires Sent(dom, ranks, start, tables, d, messages, bondMessages) && |masks| == |ranks|
    requires forall q :: 0 <= q < |ranks| ==> HasSent(ranks[q], dom, start, tables, d, messages[q], bondMessages[q], masks[q])
    modifies ranks
    ensures AllAfter(ranks, dom, start, tables, d + 1)
  {
    for r := 0 to |ranks|
      invariant forall q :: 0 <= q < r ==> After(ranks[q], dom, start, tables, d + 1)
      invariant forall q :: r <= q < |ranks| ==>
                  HasSent(ranks[q], dom, start, tables, d, messages[q], bondMessages[q], masks[q])
    {
      ReceivesFrom(dom, ranks, start, tables, d, messages, bondMessages, r);
      var from := NeighborRank(dom.grid, r, Opposite(d));
      label before:
      ReceiveOne(dom, ranks[r], d, messages[from], bondMessages[from], masks[r], start, tables, ros,
                 (messages[r], bondMessages[r]));
      forall q | 0 <= q < |ranks| && q != r
        ensures q < r ==> After(ranks[q], dom, start, tables, d + 1)
        ensures q > r ==> HasSent(ranks[q], dom, start, tables, d, messages[q], bondMessages[q], masks[q])
      {
        assert ranks[q] != ranks[r];
        assert unchanged@before(ranks[q]);
      }
    }
  }

  /** One direction of the migration on all ranks: everybody sends, then everybody receives. */
  method MigrateDirection(dom: Domain, ranks: seq<Rank>, d: Dir,
                          ghost start: M.Population, ghost tables: B.BondTables, ghost ros: M.Roster)
    requires dom.Valid() && Cluster(dom.grid, ranks) && Communicating(dom.grid, d) && M.Listed(dom.grid, start, ros)
    requires AllAfter(ranks, dom, start, tables, d)
    modifies ranks
    ensures AllAfter(ranks, dom, start, tables, d + 1)
  {
    var messages, bondMessages, masks := SendAll(dom, ranks, d, start, tables);
    ReceiveAll(dom, ranks, d, messages, bondMessages, masks, start, tables, ros);
  }

  ghost function Locals(ranks: seq<Rank>): (r: seq<seq<M.Particle>>)
    requires forall q :: 0 <= q < |ranks| ==> ranks[q].Shape()
    reads ranks
    ensures |r| == |ranks| && forall q :: 0 <= q < |ranks| ==> r[q] == ranks[q].Particles()
  {
    seq(|ranks|, q requires 0 <= q < |ranks| && ranks[q].Shape() reads ranks => ranks[q].Particles())
  }

  ghost function BondLists(ranks: seq<Rank>): (r: seq<seq<B.Bond>>)
    reads ranks
    ensures |r| == |ranks| && forall q :: 0 <= q < |ranks| ==> r[q] == ranks[q].bonds
  {
    seq(|ranks|, q requires 0 <= q < |ranks| reads ranks => ranks[q].bonds)
  }

  lemma IdleDirection(dom: Domain, ranks: seq<Rank>, d: Dir, start: M.Population, tables: B.BondTables)
    requires dom.Valid() && !Communicating(dom.grid, d) && AllAfter(ranks, dom, start, tables, d)
    ensures AllAfter(ranks, dom, start, tables, d + 1)
  {
    forall r | 0 <= r < |ranks|
      ensures After(ranks[r], dom, start, tables, d + 1)
    {
      assert After(ranks[r], dom, start, tables, d);
    }
  }

  /** The ghosts of all ranks are forgotten before anything is sent. */
  method WipeAll(dom: Domain, ranks: seq<Rank>)
    requires dom.Valid() && Cluster(dom.grid, ranks)
    requires forall r :: 0 <= r < |ranks| ==> ranks[r].Shape() && ranks[r].RtagOk()
    modifies ranks
    ensures AllAfter(ranks, dom, old(FromRanks(dom.grid, Locals(ranks))), old(FromRanks(dom.grid, BondLists(ranks))), 0)
  {
    ghost var locals, lists := Locals(ranks), BondLists(ranks);
    for r := 0 to |ranks|
      invariant forall q :: r <= q < |ranks| ==> old(allocated(ranks[q])) && unchanged(ranks[q])
      invariant forall q :: 0 <= q < r ==> Wiped(ranks[q], locals[q], lists[q])
    {
      ranks[r].WipeGhosts();
    }
    forall r | 0 <= r < |ranks|
      ensures After(ranks[r], dom, FromRanks(dom.grid, locals), FromRanks(dom.grid, lists), 0)
    {
      assert Wiped(ranks[r], locals[r], lists[r]);
      RankValue(dom.grid, locals, r);
      RankValue(dom.grid, lists, r);
    }
  }

  ghost predicate Wiped(rank: Rank, ps: seq<M.Particle>, bonds: seq<B.Bond>)
    reads rank
  {
    rank.LocalOnly() && rank.Particles() == ps && rank.bonds == bonds
  }

  method NextDirection(dom: Domain, ranks: seq<Rank>, d: Dir, ghost start: M.Population, ghost tables: B.BondTables, ghost ros: M.Roster)
    requires dom.Valid() && Cluster(dom.grid, ranks) && M.Listed(dom.grid, start, ros) && AllAfter(ranks, dom, start, tables, d)
    modifies ranks
    ensures AllAfter(ranks, dom, start, tables, d + 1)
  {
    if Communicating(dom.grid, d) {
      MigrateDirection(dom, ranks, d, start, tables, ros);
    } else {
      IdleDirection(dom, ranks, d, start, tables);
    }
  }

  method AllDirections(dom: Domain, ranks: seq<Rank>, ghost start: M.Population, ghost tables: B.BondTables, ghost ros: M.Roster)
    requires dom.Valid() && Cluster(dom.grid, ranks) && M.Listed(dom.grid, start, ros) && AllAfter(ranks, dom, start, tables, 0)
    modifies ranks
    ensures AllAfter(ranks, dom, start, tables, 6)
  {
    for d := 0 to 6
      invariant AllAfter(ranks, dom, start, tables, d)
    {
      NextDirection(dom, ranks, d, start, tables, ros);
    }
  }

  /** Migration of all particles and bonds: the ghosts are forgotten, then the six directions follow. */
  method MigrateParticles(dom: Domain, ranks: seq<Rank>, ghost ros: M.Roster)
    requires dom.Valid() && Cluster(dom.grid, ranks)
    requires forall r :: 0 <= r < |ranks| ==> ranks[r].Shape() && ranks[r].RtagOk()
    requires M.Listed(dom.grid, FromRanks(dom.grid, Locals(ranks)), ros)
    modifies ranks
    ensures AllAfter(ranks, dom, old(FromRanks(dom.grid, Locals(ranks))), old(FromRanks(dom.grid, BondLists(ranks))), 6)
  {
    ghost var start, tables := FromRanks(dom.grid, Locals(ranks)), FromRanks(dom.grid, BondLists(ranks));
    WipeAll(dom, ranks);
    AllDirections(dom, ranks, start, tables, ros);
  }
}
