/** Ghost exchange and ghost update on all ranks in lock step, working on the
    ranks' arrays, and their agreement with the specification. */
module GhostCommunicator {
  import opened Vectors
  import opened Decomposition
  import opened Box
  import opened Ranks
  import opened Communicator
  import B = Bonds
  import BG = BondGhosts
  import M = Migration
  import G = GhostExchange
  import Geo = GhostGeometry
  import U = GhostUpdate

  // ------------------------------------------------------------ exchange

  /** What rank `c` has remembered about direction `e`. */
  ghost predicate Remembers(rank: Rank, dom: Domain, owned: G.Owned, e: Dir)
    requires dom.Valid()
    reads rank
  {
    && e in rank.copied && rank.copied[e] == G.Tags(G.Sent(G.Held(dom, owned, e, rank.coord), e))
    && e in rank.received && rank.received[e] == |G.Arriving(dom, owned, e, rank.coord)|
  }

  /** The slots of the rank are those of the specification after `d` directions, the reverse lookup is
      exact, and every direction so far is remembered. */
  ghost predicate Holds(rank: Rank, dom: Domain, owned: G.Owned, d: nat)
    requires dom.Valid() && d <= 6
    reads rank
  {
    && rank.Shape() && |rank.plan| == |rank.tag| && rank.RtagOk()
    && rank.n == |owned(rank.coord)|
    && rank.Slots() == G.Held(dom, owned, d, rank.coord)
    && forall e: Dir :: e < d && Communicating(dom.grid, e) ==> Remembers(rank, dom, owned, e)
  }

  ghost predicate AllHold(ranks: seq<Rank>, dom: Domain, owned: G.Owned, d: nat)
    requires dom.Valid() && d <= 6
    reads ranks
  {
    forall r :: 0 <= r < |ranks| ==> Holds(ranks[r], dom, owned, d)
  }

  /** Holds, and has packed its message for direction `d`. */
  ghost predicate HasPacked(rank: Rank, dom: Domain, owned: G.Owned, d: Dir)
    requires dom.Valid()
    reads rank
  {
    Holds(rank, dom, owned, d) && d in rank.copied && rank.copied[d] == G.Tags(G.Sent(G.Held(dom, owned, d, rank.coord), d))
  }

  method PackAll(dom: Domain, ranks: seq<Rank>, d: Dir, ghost owned: G.Owned) returns (messages: seq<seq<G.Copy>>)
    requires dom.Valid() && Cluster(dom.grid, ranks) && AllHold(ranks, dom, owned, d)
    modifies ranks`copied
    ensures |messages| == |ranks|
    ensures forall r :: 0 <= r < |ranks| ==> messages[r] == G.Sent(G.Held(dom, owned, d, ranks[r].coord), d)
    ensures forall r :: 0 <= r < |ranks| ==> HasPacked(ranks[r], dom, owned, d)
  {
    messages := [];
    for r := 0 to |ranks|
      invariant |messages| == r
      invariant forall q :: 0 <= q < r ==> messages[q] == G.Sent(G.Held(dom, owned, d, ranks[q].coord), d)
      invariant forall q :: 0 <= q < r ==> HasPacked(ranks[q], dom, owned, d)
      invariant forall q :: r <= q < |ranks| ==> Holds(ranks[q], dom, owned, d)
    {
      label before:
      var message := PackOne(dom, ranks[r], d, owned);
      forall q | 0 <= q < |ranks| && q != r
        ensures q < r ==> HasPacked(ranks[q], dom, owned, d)
        ensures q > r ==> Holds(ranks[q], dom, owned, d)
      {
        assert ranks[q] != ranks[r];
        assert unchanged@before(ranks[q]);
      }
      messages := messages + [message];
    }
  }

  method PackOne(dom: Domain, rank: Rank, d: Dir, ghost owned: G.Owned) returns (message: seq<G.Copy>)
    requires dom.Valid() && Holds(rank, dom, owned, d)
    modifies rank`copied
    ensures HasPacked(rank, dom, owned, d) && message == G.Sent(G.Held(dom, owned, d, rank.coord), d)
  {
    message := rank.PackGhosts(d);
    assert rank.Slots() == old(rank.Slots());
    forall e: Dir | e < d && Communicating(dom.grid, e)
      ensures Remembers(rank, dom, owned, e)
    {
      assert old(Remembers(rank, dom, owned, e));
    }
  }

  /** None of the received slots is local yet: this follows from the delivery order. */
  lemma ReadyToAppend(dom: Domain, rank: Rank, d: Dir, message: seq<G.Copy>, owned: G.Owned, dir: G.Directory)
    requires dom.Valid() && InGrid(dom.grid, rank.coord) && G.Registered(dom.grid, owned, dir) && Communicating(dom.grid, d)
    requires Holds(rank, dom, owned, d)
    requires message == G.Sent(G.Held(dom, owned, d, Neighbor(dom.grid, rank.coord, Opposite(d))), d)
    ensures G.Distinct(message) && forall i :: 0 <= i < |message| ==> message[i].tag !in rank.rtag
    ensures |G.Arriving(dom, owned, d, rank.coord)| == |message|
    ensures G.Held(dom, owned, d + 1, rank.coord) == G.Held(dom, owned, d, rank.coord) + G.Received(dom, rank.coord, message)
  {
    var c := rank.coord;
    Upstream(dom.grid, c, d);
    G.Delivery(dom, owned, dir, d, c);
    G.Delivery(dom, owned, dir, d, Neighbor(dom.grid, c, Opposite(d)));
    G.ArrivesNotLocal(dom, owned, dir, d, c);
    NotInLookup(rank, G.Held(dom, owned, d, c), message, G.Arriving(dom, owned, d, c));
  }

  method ReceiveGhosts(dom: Domain, rank: Rank, d: Dir, message: seq<G.Copy>, ghost owned: G.Owned, ghost dir: G.Directory)
    requires dom.Valid() && InGrid(dom.grid, rank.coord) && G.Registered(dom.grid, owned, dir) && Communicating(dom.grid, d)
    requires HasPacked(rank, dom, owned, d)
    requires message == G.Sent(G.Held(dom, owned, d, Neighbor(dom.grid, rank.coord, Opposite(d))), d)
    modifies rank`tag, rank`pos, rank`attr, rank`plan, rank`rtag, rank`received
    ensures Holds(rank, dom, owned, d + 1)
  {
    ReadyToAppend(dom, rank, d, message, owned, dir);
    rank.AppendGhosts(dom, d, message);
    assert rank.Slots() == G.Held(dom, owned, d + 1, rank.coord);
    assert Remembers(rank, dom, owned, d);
    forall e: Dir | e < d + 1 && Communicating(dom.grid, e)
      ensures Remembers(rank, dom, owned, e)
    {
      assert e < d ==> old(Remembers(rank, dom, owned, e));
    }
  }

  lemma NotInLookup(rank: Rank, held: seq<G.Copy>, message: seq<G.Copy>, arriving: seq<G.Copy>)
    requires rank.Shape() && |rank.plan| == |rank.tag| && rank.RtagOk() && rank.Slots() == held
    requires |arriving| == |message| && forall i :: 0 <= i < |message| ==> arriving[i].tag == message[i].tag
    requires forall i :: 0 <= i < |arriving| ==> arriving[i].tag !in G.Tags(held)
    requires G.Distinct(arriving)
    ensures forall i :: 0 <= i < |message| ==> message[i].tag !in rank.rtag
    ensures G.Distinct(message)
  {
    assert forall k :: 0 <= k < |held| ==> G.Tags(held)[k] == rank.tag[k];
  }

  method ReceiveAllGhosts(dom: Domain, ranks: seq<Rank>, d: Dir, messages: seq<seq<G.Copy>>, ghost owned: G.Owned, ghost dir: G.Directory)
    requires dom.Valid() && Cluster(dom.grid, ranks) && G.Registered(dom.grid, owned, dir) && Communicating(dom.grid, d)
    requires |messages| == |ranks|
    requires forall r :: 0 <= r < |ranks| ==> messages[r] == G.Sent(G.Held(dom, owned, d, ranks[r].coord), d)
    requires forall r :: 0 <= r < |ranks| ==> HasPacked(ranks[r], dom, owned, d)
    modifies ranks`tag, ranks`pos, ranks`attr, ranks`plan, ranks`rtag, ranks`received
    ensures AllHold(ranks, dom, owned, d + 1)
  {
    for r := 0 to |ranks|
      invariant forall q :: 0 <= q < r ==> Holds(ranks[q], dom, owned, d + 1)
      invariant forall q :: r <= q < |ranks| ==> HasPacked(ranks[q], dom, owned, d)
    {
      SourceRank(dom.grid, ranks, r, d);
      var from := NeighborRank(dom.grid, r, Opposite(d));
      label before:
      ReceiveGhosts(dom, ranks[r], d, messages[from], owned, dir);
      forall q | 0 <= q < |ranks| && q != r
        ensures q < r ==> Holds(ranks[q], dom, owned, d + 1)
        ensures q > r ==> HasPacked(ranks[q], dom, owned, d)
      {
        assert ranks[q] != ranks[r];
        assert unchanged@before(ranks[q]);
      }
    }
  }

  method ExchangeDirection(dom: Domain, ranks: seq<Rank>, d: Dir, ghost owned: G.Owned, ghost dir: G.Directory)
    requires dom.Valid() && Cluster(dom.grid, ranks) && G.Registered(dom.grid, owned, dir) && Communicating(dom.grid, d)
    requires AllHold(ranks, dom, owned, d)
    modifies ranks`tag, ranks`pos, ranks`attr, ranks`plan, ranks`rtag, ranks`received, ranks`copied
    ensures AllHold(ranks, dom, owned, d + 1)
  {
    var messages := PackAll(dom, ranks, d, owned);
    ReceiveAllGhosts(dom, ranks, d, messages, owned, dir);
  }

  lemma IdleExchange(dom: Domain, ranks: seq<Rank>, d: Dir, owned: G.Owned)
    requires dom.Valid() && !Communicating(dom.grid, d) && AllHold(ranks, dom, owned, d)
    ensures AllHold(ranks, dom, owned, d + 1)
  {
    forall r | 0 <= r < |ranks|
      ensures Holds(ranks[r], dom, owned, d + 1)
    {
      assert Holds(ranks[r], dom, owned, d);
    }
  }

  // ------------------------------------------------------------ plans of all ranks

  /** The local particles of a rank with the plans that the exchange gives them. */
  ghost function MarkedSlots(dom: Domain, rank: Rank): (es: seq<G.Copy>)
    requires dom.Valid() && rank.LocalOnly()
    reads rank
    ensures |es| == rank.n
    ensures forall i :: 0 <= i < |es| ==>
              es[i] == G.Copy(rank.tag[i], rank.pos[i], rank.attr[i],
                              Geo.MarkedPlan(dom, rank.coord, rank.pos[i], rank.InIncomplete(rank.bonds, rank.tag[i])))
  {
    seq(rank.n, i requires 0 <= i < rank.n && rank.LocalOnly() reads rank =>
      G.Copy(rank.tag[i], rank.pos[i], rank.attr[i],
             Geo.MarkedPlan(dom, rank.coord, rank.pos[i], rank.InIncomplete(rank.bonds, rank.tag[i]))))
  }

  ghost function AllMarked(dom: Domain, ranks: seq<Rank>): (slots: seq<seq<G.Copy>>)
    requires dom.Valid() && forall r :: 0 <= r < |ranks| ==> ranks[r].LocalOnly()
    reads ranks
    ensures |slots| == |ranks| && forall r :: 0 <= r < |ranks| ==> slots[r] == MarkedSlots(dom, ranks[r])
  {
    seq(|ranks|, r requires 0 <= r < |ranks| && ranks[r].LocalOnly() reads ranks => MarkedSlots(dom, ranks[r]))
  }

  method MarkOne(dom: Domain, rank: Rank, ghost es: seq<G.Copy>)
    requires dom.Valid() && rank.LocalOnly() && es == MarkedSlots(dom, rank)
    modifies rank`plan
    ensures HasSlots(rank, es)
  {
    rank.MarkPlans(dom);
  }

  method MarkAll(dom: Domain, ranks: seq<Rank>)
    requires dom.Valid() && Cluster(dom.grid, ranks) && forall r :: 0 <= r < |ranks| ==> ranks[r].LocalOnly()
    modifies ranks`plan
    ensures forall r :: 0 <= r < |ranks| ==> HasSlots(ranks[r], old(AllMarked(dom, ranks))[r])
  {
    ghost var slots := AllMarked(dom, ranks);
    for r := 0 to |ranks|
      invariant forall q :: 0 <= q < r ==> HasSlots(ranks[q], slots[q])
      invariant forall q :: r <= q < |ranks| ==> unchanged(ranks[q])
    {
      MarkOne(dom, ranks[r], slots[r]);
    }
  }

  ghost predicate HasSlots(rank: Rank, es: seq<G.Copy>)
    reads rank
  {
    rank.LocalOnly() && |rank.plan| == |rank.tag| && rank.Slots() == es
  }

  /** Every particle is local to one rank only: the one that `owner` names. */
  ghost predicate OneOwner(ranks: seq<Rank>, owner: nat -> Coord)
    reads ranks
  {
    forall r, i :: 0 <= r < |ranks| && 0 <= i < |ranks[r].tag| ==> owner(ranks[r].tag[i]) == ranks[r].coord
  }

  ghost function PlanOf(es: seq<G.Copy>, t: nat): (plan: set<Dir>)
    ensures G.Distinct(es) ==> forall i :: 0 <= i < |es| && es[i].tag == t ==> es[i].plan == plan
    ensures plan == {} || exists i :: 0 <= i < |es| && es[i].plan == plan
  {
    if exists i :: 0 <= i < |es| && es[i].tag == t then
      var i :| 0 <= i < |es| && es[i].tag == t;
      es[i].plan
    else {}
  }

  /** Particles with one owner each and one-way plans form a directory. */
  lemma DirectoryExists(g: Grid, owned: G.Owned, owner: nat -> Coord) returns (dir: G.Directory)
    requires forall c: Coord :: InGrid(g, c) ==> G.Distinct(owned(c))
    requires forall c: Coord, i: int :: InGrid(g, c) && 0 <= i < |owned(c)| ==> owner(owned(c)[i].tag) == c
    requires forall c: Coord, i: int :: 0 <= i < |owned(c)| ==> G.OneWay(g, owned(c)[i].plan)
    ensures G.Registered(g, owned, dir) && dir.owner == owner
  {
    dir := G.Directory(owner, t => PlanOf(owned(owner(t)), t));
  }

  /** The marked particles of all ranks can be exchanged. */
  lemma MarkedRegistered(dom: Domain, ranks: seq<Rank>, owner: nat -> Coord) returns (dir: G.Directory)
    requires dom.Valid() && dom.GhostWidthAccepted() && Cluster(dom.grid, ranks) && OneOwner(ranks, owner)
    requires forall r :: 0 <= r < |ranks| ==> ranks[r].LocalOnly()
    ensures G.Registered(dom.grid, FromRanks(dom.grid, AllMarked(dom, ranks)), dir) && dir.owner == owner
  {
    var owned := FromRanks(dom.grid, AllMarked(dom, ranks));
    forall c: Coord | InGrid(dom.grid, c)
      ensures G.Distinct(owned(c))
      ensures forall i :: 0 <= i < |owned(c)| ==> owner(owned(c)[i].tag) == c && G.OneWay(dom.grid, owned(c)[i].plan)
    {
      RankOfCoord(dom.grid, c);
      var r := Index(dom.grid, c);
      assert ranks[r].LocalOnly() && ranks[r].coord == c;
      forall i | 0 <= i < |owned(c)|
        ensures owner(owned(c)[i].tag) == c && G.OneWay(dom.grid, owned(c)[i].plan)
      {
        assert owner(ranks[r].tag[i]) == c;
        Geo.MarkedPlanIsOneWay(dom, c, ranks[r].pos[i], ranks[r].InIncomplete(ranks[r].bonds, ranks[r].tag[i]));
      }
    }
    dir := DirectoryExists(dom.grid, owned, owner);
  }

  /** The complete exchange: construct the plans, then send ghosts in the six directions. */
  method ExchangeGhosts(dom: Domain, ranks: seq<Rank>, ghost owner: nat -> Coord) returns (ghost dir: G.Directory)
    requires dom.Valid() && dom.GhostWidthAccepted() && Cluster(dom.grid, ranks)
    requires (forall r :: 0 <= r < |ranks| ==> ranks[r].LocalOnly()) && OneOwner(ranks, owner)
    modifies ranks`tag, ranks`pos, ranks`attr, ranks`plan, ranks`rtag, ranks`received, ranks`copied
    ensures G.Registered(dom.grid, FromRanks(dom.grid, old(AllMarked(dom, ranks))), dir) && dir.owner == owner
    ensures AllHold(ranks, dom, FromRanks(dom.grid, old(AllMarked(dom, ranks))), 6)
  {
    ghost var slots := AllMarked(dom, ranks);
    ghost var owned := FromRanks(dom.grid, slots);
    dir := MarkedRegistered(dom, ranks, owner);
    MarkAll(dom, ranks);
    StartHolds(dom, ranks, slots);
    for d := 0 to 6
      invariant AllHold(ranks, dom, owned, d)
    {
      if Communicating(dom.grid, d) {
        ExchangeDirection(dom, ranks, d, owned, dir);
      } else {
        IdleExchange(dom, ranks, d, owned);
      }
    }
  }

  lemma StartHolds(dom: Domain, ranks: seq<Rank>, slots: seq<seq<G.Copy>>)
    requires dom.Valid() && Cluster(dom.grid, ranks) && |slots| == |ranks|
    requires forall r :: 0 <= r < |ranks| ==> HasSlots(ranks[r], slots[r])
    ensures AllHold(ranks, dom, FromRanks(dom.grid, slots), 0)
  {
    forall r | 0 <= r < |ranks|
      ensures Holds(ranks[r], dom, FromRanks(dom.grid, slots), 0)
    {
      assert HasSlots(ranks[r], slots[r]);
      RankValue(dom.grid, slots, r);
    }
  }

  // ------------------------------------------------------------ update

  /** The rank remembers `l`, and its positions are `ps`. */
  ghost predicate Refreshing(rank: Rank, l: U.Lists, ps: seq<V3<real>>)
    reads rank
  {
    rank.Shape() && rank.RtagOk() && rank.Remembered() == l && rank.pos == ps
  }

  ghost predicate AllRefreshing(ranks: seq<Rank>, dom': Domain, lists: Coord -> U.Lists, pos: Coord -> seq<V3<real>>, d: nat)
    requires dom'.Valid() && d <= 6
    reads ranks
  {
    forall r :: 0 <= r < |ranks| ==>
      Refreshing(ranks[r], lists(ranks[r].coord), U.Refreshed(dom', lists, pos, d, ranks[r].coord))
  }

  /** Every remembered tag can still be looked up. */
  ghost predicate Known(l: U.Lists, d: Dir, size: nat) {
    forall k :: 0 <= k < |l.copied[d]| ==> l.copied[d][k] in l.rtag && l.rtag[l.copied[d][k]] < size
  }

  lemma RememberedKnown(dom: Domain, owned: G.Owned, l: U.Lists, d: Dir, c: Coord)
    requires dom.Valid() && U.LeftAt(dom, owned, l, c) && Communicating(dom.grid, d)
    ensures Known(l, d, |G.Held(dom, owned, 6, c)|)
  {
    var es := G.Held(dom, owned, d, c);
    G.SentSelects(es, d);
    U.HeldPrefix(dom, owned, d, 6, c);
    forall k | 0 <= k < |l.copied[d]|
      ensures l.copied[d][k] in l.rtag && l.rtag[l.copied[d][k]] < |G.Held(dom, owned, 6, c)|
    {
      var e := G.Sent(es, d)[k];
      assert e in es;
      var i :| 0 <= i < |es| && es[i] == e;
      assert G.Held(dom, owned, 6, c)[i].tag == l.copied[d][k];
    }
  }

  /** What rank `c` packs for direction `d` of an update. */
  ghost function UpdateMessage(dom': Domain, lists: Coord -> U.Lists, pos: Coord -> seq<V3<real>>, d: Dir, c: Coord): (m: seq<V3<real>>)
    requires dom'.Valid()
    ensures |m| == |lists(c).copied[d]|
  {
    U.Packed(lists(c), U.Refreshed(dom', lists, pos, d, c), lists(c).copied[d])
  }

  method PackOnePositions(rank: Rank, d: Dir, ghost l: U.Lists, ghost ps: seq<V3<real>>) returns (message: seq<V3<real>>)
    requires Refreshing(rank, l, ps) && Known(l, d, |ps|)
    ensures message == U.Packed(l, ps, l.copied[d])
  {
    message := rank.PackPositions(d);
  }

  /** The message for rank `c` fits into the slots that the exchange had appended in this direction. */
  lemma MessageFits(dom: Domain, owned: G.Owned, from: U.Lists, l: U.Lists, d: Dir, c: Coord)
    requires dom.Valid() && InGrid(dom.grid, c) && Communicating(dom.grid, d)
    requires U.LeftAt(dom, owned, l, c) && U.LeftAt(dom, owned, from, Neighbor(dom.grid, c, Opposite(d)))
    ensures |from.copied[d]| == l.received[d]
    ensures U.StartIndex(dom.grid, l, d) + l.received[d] == U.StartIndex(dom.grid, l, d + 1) <= |G.Held(dom, owned, 6, c)|
  {
    U.StartIsLength(dom, owned, l, d + 1, c);
    U.HeldPrefix(dom, owned, d + 1, 6, c);
  }

  method RefreshOne(dom': Domain, rank: Rank, start: nat, message: seq<V3<real>>, ghost l: U.Lists, ghost ps: seq<V3<real>>)
    requires dom'.Valid() && Refreshing(rank, l, ps) && start + |message| <= |ps|
    modifies rank`pos
    ensures Refreshing(rank, l, U.Overwrite(ps, start, U.WrapAll(dom', rank.coord, message)))
  {
    rank.OverwritePositions(dom', start, message);
  }

  /** The positions of rank `c` after one more direction. */
  lemma NextPositions(dom': Domain, lists: Coord -> U.Lists, pos: Coord -> seq<V3<real>>, d: Dir, c: Coord)
    requires dom'.Valid()
    ensures U.Refreshed(dom', lists, pos, d + 1, c) ==
            if Communicating(dom'.grid, d) then
              U.Overwrite(U.Refreshed(dom', lists, pos, d, c), U.StartIndex(dom'.grid, lists(c), d),
                          U.WrapAll(dom', c, UpdateMessage(dom', lists, pos, d, Neighbor(dom'.grid, c, Opposite(d)))))
            else U.Refreshed(dom', lists, pos, d, c)
  {
  }

  lemma {:induction false} SameLength(dom': Domain, lists: Coord -> U.Lists, pos: Coord -> seq<V3<real>>, d: nat, c: Coord)
    requires dom'.Valid() && d <= 6
    ensures |U.Refreshed(dom', lists, pos, d, c)| == |pos(c)|
  {
    if d > 0 {
      SameLength(dom', lists, pos, d - 1, c);
    }
  }

  /** All that direction `d` of an update relies on. */
  ghost predicate Prepared(g: Grid, lists: Coord -> U.Lists, pos: Coord -> seq<V3<real>>, d: Dir) {
    forall c: Coord :: InGrid(g, c) ==>
      && Known(lists(c), d, |pos(c)|)
      && U.StartIndex(g, lists(c), d) + |lists(Neighbor(g, c, Opposite(d))).copied[d]| <= |pos(c)|
  }

  /** Every rank has packed its message. */
  ghost predicate AllPacked(ranks: seq<Rank>, dom': Domain, lists: Coord -> U.Lists, pos: Coord -> seq<V3<real>>, d: Dir,
                            messages: seq<seq<V3<real>>>)
    requires dom'.Valid()
  {
    |messages| == |ranks| && FirstPacked(ranks, dom', lists, pos, d, messages)
  }

  /** The first ranks have. */
  ghost predicate FirstPacked(ranks: seq<Rank>, dom': Domain, lists: Coord -> U.Lists, pos: Coord -> seq<V3<real>>, d: Dir,
                              messages: seq<seq<V3<real>>>)
    requires dom'.Valid()
  {
    |messages| <= |ranks| && forall r :: 0 <= r < |messages| ==> messages[r] == UpdateMessage(dom', lists, pos, d, ranks[r].coord)
  }

  method PackRefreshed(ghost dom': Domain, rank: Rank, d: Dir, ghost lists: Coord -> U.Lists, ghost pos: Coord -> seq<V3<real>>)
    returns (message: seq<V3<real>>)
    requires dom'.Valid() && InGrid(dom'.grid, rank.coord) && Prepared(dom'.grid, lists, pos, d)
    requires Refreshing(rank, lists(rank.coord), U.Refreshed(dom', lists, pos, d, rank.coord))
    ensures message == UpdateMessage(dom', lists, pos, d, rank.coord)
  {
    ghost var c := rank.coord;
    SameLength(dom', lists, pos, d, c);
    message := PackOnePositions(rank, d, lists(c), U.Refreshed(dom', lists, pos, d, c));
  }

  method PackNext(ghost dom': Domain, ranks: seq<Rank>, d: Dir, ghost lists: Coord -> U.Lists, ghost pos: Coord -> seq<V3<real>>,
                  messages: seq<seq<V3<real>>>) returns (more: seq<seq<V3<real>>>)
    requires dom'.Valid() && Cluster(dom'.grid, ranks) && Prepared(dom'.grid, lists, pos, d)
    requires AllRefreshing(ranks, dom', lists, pos, d) && |messages| < |ranks| && FirstPacked(ranks, dom', lists, pos, d, messages)
    ensures |more| == |messages| + 1 && FirstPacked(ranks, dom', lists, pos, d, more)
  {
    var message := PackRefreshed(dom', ranks[|messages|], d, lists, pos);
    more := messages + [message];
  }

  method PackAllPositions(dom': Domain, ranks: seq<Rank>, d: Dir, ghost lists: Coord -> U.Lists, ghost pos: Coord -> seq<V3<real>>)
    returns (messages: seq<seq<V3<real>>>)
    requires dom'.Valid() && Cluster(dom'.grid, ranks) && Prepared(dom'.grid, lists, pos, d)
    requires AllRefreshing(ranks, dom', lists, pos, d)
    ensures AllPacked(ranks, dom', lists, pos, d, messages)
  {
    messages := [];
    for r := 0 to |ranks|
      invariant |messages| == r && FirstPacked(ranks, dom', lists, pos, d, messages)
    {
      messages := PackNext(dom', ranks, d, lists, pos, messages);
    }
  }

  /** Receiving `message` from slot `start` on takes the positions of rank `c` from `now` to `next`. */
  ghost predicate Receives(dom': Domain, c: Coord, start: nat, message: seq<V3<real>>, now: seq<V3<real>>, next: seq<V3<real>>)
    requires dom'.Valid()
  {
    && start + |message| <= |now|
    && next == U.Overwrite(now, start, U.WrapAll(dom', c, message))
  }

  /** Every rank overwrites the ghosts it received in this direction. */
  method OverwriteEvery(dom': Domain, ranks: seq<Rank>, d: Dir, starts: seq<nat>, messages: seq<seq<V3<real>>>,
                        ghost lists: Coord -> U.Lists, ghost now: Coord -> seq<V3<real>>, ghost next: Coord -> seq<V3<real>>)
    requires dom'.Valid() && Cluster(dom'.grid, ranks) && |messages| == |starts| == |ranks|
    requires forall r :: 0 <= r < |ranks| ==> Refreshing(ranks[r], lists(ranks[r].coord), now(ranks[r].coord))
    requires forall r :: 0 <= r < |ranks| ==>
               var from := NeighborRank(dom'.grid, r, Opposite(d));
               0 <= from < |ranks| && Receives(dom', ranks[r].coord, starts[r], messages[from], now(ranks[r].coord), next(ranks[r].coord))
    modifies ranks`pos
    ensures forall r :: 0 <= r < |ranks| ==> Refreshing(ranks[r], lists(ranks[r].coord), next(ranks[r].coord))
  {
    for r := 0 to |ranks|
      invariant forall q :: 0 <= q < |ranks| ==>
                  Refreshing(ranks[q], lists(ranks[q].coord), if q < r then next(ranks[q].coord) else now(ranks[q].coord))
    {
      var from := NeighborRank(dom'.grid, r, Opposite(d));
      RefreshOne(dom', ranks[r], starts[r], messages[from], lists(ranks[r].coord), now(ranks[r].coord));
    }
  }

  ghost function RefreshedAfter(dom': Domain, lists: Coord -> U.Lists, pos: Coord -> seq<V3<real>>, d: nat): Coord -> seq<V3<real>>
    requires dom'.Valid() && d <= 6
  {
    (c: Coord) => U.Refreshed(dom', lists, pos, d, c)
  }

  /** The message from the rank upstream is the one that the specification overwrites with. */
  lemma ReceivesNext(dom': Domain, ranks: seq<Rank>, r: nat, d: Dir, start: nat, messages: seq<seq<V3<real>>>,
                     lists: Coord -> U.Lists, pos: Coord -> seq<V3<real>>)
    requires dom'.Valid() && Communicating(dom'.grid, d) && Cluster(dom'.grid, ranks) && r < |ranks|
    requires Prepared(dom'.grid, lists, pos, d) && AllPacked(ranks, dom', lists, pos, d, messages)
    requires start == U.StartIndex(dom'.grid, lists(ranks[r].coord), d)
    ensures var from, c := NeighborRank(dom'.grid, r, Opposite(d)), ranks[r].coord;
            && 0 <= from < |ranks|
            && Receives(dom', c, start, messages[from], U.Refreshed(dom', lists, pos, d, c), U.Refreshed(dom', lists, pos, d + 1, c))
  {
    var c := ranks[r].coord;
    SourceRank(dom'.grid, ranks, r, d);
    SameLength(dom', lists, pos, d, c);
    NextPositions(dom', lists, pos, d, c);
  }

  method OverwriteAll(dom': Domain, ranks: seq<Rank>, d: Dir, starts: seq<nat>, messages: seq<seq<V3<real>>>,
                      ghost lists: Coord -> U.Lists, ghost pos: Coord -> seq<V3<real>>)
    requires dom'.Valid() && Communicating(dom'.grid, d) && Cluster(dom'.grid, ranks)
    requires Prepared(dom'.grid, lists, pos, d) && AllRefreshing(ranks, dom', lists, pos, d)
    requires |starts| == |ranks| && AllPacked(ranks, dom', lists, pos, d, messages)
    requires forall r :: 0 <= r < |ranks| ==> starts[r] == U.StartIndex(dom'.grid, lists(ranks[r].coord), d)
    modifies ranks`pos
    ensures AllRefreshing(ranks, dom', lists, pos, d + 1)
  {
    ghost var now, next := RefreshedAfter(dom', lists, pos, d), RefreshedAfter(dom', lists, pos, d + 1);
    forall r: nat | r < |ranks|
      ensures var from := NeighborRank(dom'.grid, r, Opposite(d));
              0 <= from < |ranks| && Receives(dom', ranks[r].coord, starts[r], messages[from], now(ranks[r].coord), next(ranks[r].coord))
    {
      ReceivesNext(dom', ranks, r, d, starts[r], messages, lists, pos);
    }
    OverwriteEvery(dom', ranks, d, starts, messages, lists, now, next);
  }

  /** The rank still has what the exchange of `owned` left behind; only positions may have changed since. */
  ghost predicate Remembering(rank: Rank, dom: Domain, owned: G.Owned)
    requires dom.Valid()
    reads rank
  {
    && rank.Shape() && rank.RtagOk()
    && rank.tag == G.Tags(G.Held(dom, owned, 6, rank.coord))
    && U.LeftAt(dom, owned, rank.Remembered(), rank.coord)
  }

  lemma ExchangeIsRemembered(rank: Rank, dom: Domain, owned: G.Owned)
    requires dom.Valid() && Holds(rank, dom, owned, 6)
    ensures Remembering(rank, dom, owned)
  {
    var l := rank.Remembered();
    forall d: Dir | Communicating(dom.grid, d)
      ensures l.copied[d] == G.Tags(G.Sent(G.Held(dom, owned, d, rank.coord), d))
      ensures l.received[d] == |G.Arriving(dom, owned, d, rank.coord)|
    {
      assert Remembers(rank, dom, owned, d);
    }
    assert forall i :: 0 <= i < |rank.tag| ==> rank.Slots()[i].tag == rank.tag[i];
  }

  /** The local particles with the positions that they have now. */
  function Moved(es: seq<G.Copy>, ps: seq<V3<real>>): (r: seq<G.Copy>)
    ensures |r| == |es|
    ensures forall i :: 0 <= i < |es| ==> r[i] == if i < |ps| then es[i].(pos := ps[i]) else es[i]
  {
    seq(|es|, i requires 0 <= i < |es| => if i < |ps| then es[i].(pos := ps[i]) else es[i])
  }

  function AllMoved(owned: G.Owned, pos: Coord -> seq<V3<real>>): G.Owned {
    c => Moved(owned(c), pos(c))
  }

  ghost function PositionArrays(ranks: seq<Rank>): (r: seq<seq<V3<real>>>)
    reads ranks
    ensures |r| == |ranks| && forall q :: 0 <= q < |ranks| ==> r[q] == ranks[q].pos
  {
    seq(|ranks|, q requires 0 <= q < |ranks| reads ranks => ranks[q].pos)
  }

  ghost function Memories(ranks: seq<Rank>): (r: seq<U.Lists>)
    reads ranks
    ensures |r| == |ranks| && forall q :: 0 <= q < |ranks| ==> r[q] == ranks[q].Remembered()
  {
    seq(|ranks|, q requires 0 <= q < |ranks| reads ranks => ranks[q].Remembered())
  }

  function ListsOf(g: Grid, values: seq<U.Lists>): Coord -> U.Lists {
    (c: Coord) =>
      if InGrid(g, c) && 0 <= Index(g, c) < |values| then values[Index(g, c)]
      else U.Memory(0, [[], [], [], [], [], []], [0, 0, 0, 0, 0, 0], map[])
  }

  /** What the memories and positions of all ranks look like before an update, as values. */
  lemma UpdateStart(dom: Domain, ranks: seq<Rank>, owned: G.Owned)
    requires dom.Valid() && Cluster(dom.grid, ranks)
    requires forall r :: 0 <= r < |ranks| ==> Remembering(ranks[r], dom, owned)
    ensures var lists, pos := ListsOf(dom.grid, Memories(ranks)), FromRanks(dom.grid, PositionArrays(ranks));
            && U.LeftByExchange(dom, owned, lists)
            && (forall r :: 0 <= r < |ranks| ==> Refreshing(ranks[r], lists(ranks[r].coord), pos(ranks[r].coord)))
            && (forall c: Coord :: InGrid(dom.grid, c) ==> |pos(c)| == |G.Held(dom, owned, 6, c)|)
  {
    var lists, pos := ListsOf(dom.grid, Memories(ranks)), FromRanks(dom.grid, PositionArrays(ranks));
    forall c: Coord | InGrid(dom.grid, c)
      ensures U.LeftAt(dom, owned, lists(c), c) && |pos(c)| == |G.Held(dom, owned, 6, c)|
    {
      RankOfCoord(dom.grid, c);
      assert Remembering(ranks[Index(dom.grid, c)], dom, owned);
    }
    forall r | 0 <= r < |ranks|
      ensures Refreshing(ranks[r], lists(ranks[r].coord), pos(ranks[r].coord))
    {
      CoordOfRank(dom.grid, r);
      assert Remembering(ranks[r], dom, owned);
    }
  }

  lemma DirectionPrepared(dom: Domain, owned: G.Owned, lists: Coord -> U.Lists, pos: Coord -> seq<V3<real>>, d: Dir)
    requires dom.Valid() && U.LeftByExchange(dom, owned, lists) && Communicating(dom.grid, d)
    requires forall c: Coord :: InGrid(dom.grid, c) ==> |pos(c)| == |G.Held(dom, owned, 6, c)|
    ensures Prepared(dom.grid, lists, pos, d)
  {
    forall c: Coord | InGrid(dom.grid, c)
      ensures Known(lists(c), d, |pos(c)|)
      ensures U.StartIndex(dom.grid, lists(c), d) + |lists(Neighbor(dom.grid, c, Opposite(d))).copied[d]| <= |pos(c)|
    {
      var from := Neighbor(dom.grid, c, Opposite(d));
      Upstream(dom.grid, c, d);
      RememberedKnown(dom, owned, lists(c), d, c);
      MessageFits(dom, owned, lists(from), lists(c), d, c);
    }
  }

  /** Where every rank receives next: after the local particles and the ghosts received so far. */
  method NextStarts(g: Grid, ranks: seq<Rank>, d: Dir, starts: seq<nat>, ghost lists: Coord -> U.Lists) returns (next: seq<nat>)
    requires |starts| == |ranks| && Communicating(g, d)
    requires forall r :: 0 <= r < |ranks| ==> ranks[r].Remembered() == lists(ranks[r].coord)
    requires forall r :: 0 <= r < |ranks| ==> starts[r] == U.StartIndex(g, lists(ranks[r].coord), d)
    ensures |next| == |ranks| && forall r :: 0 <= r < |ranks| ==> next[r] == U.StartIndex(g, lists(ranks[r].coord), d + 1)
  {
    next := [];
    for r := 0 to |ranks|
      invariant |next| == r && forall q :: 0 <= q < r ==> next[q] == U.StartIndex(g, lists(ranks[q].coord), d + 1)
    {
      next := next + [starts[r] + ranks[r].Remembered().received[d]];
    }
  }

  /** The slots from which on the ghosts of direction `d` are stored. */
  ghost predicate StartsAt(g: Grid, ranks: seq<Rank>, lists: Coord -> U.Lists, d: nat, starts: seq<nat>)
    requires d <= 6
  {
    |starts| == |ranks| && forall r :: 0 <= r < |ranks| ==> starts[r] == U.StartIndex(g, lists(ranks[r].coord), d)
  }

  /** One direction of the update on all ranks. */
  method RefreshDirection(ghost dom: Domain, dom': Domain, ranks: seq<Rank>, ghost owned: G.Owned, d: Dir, starts: seq<nat>,
                          ghost lists: Coord -> U.Lists, ghost pos: Coord -> seq<V3<real>>) returns (next: seq<nat>)
    requires dom.Valid() && dom'.Valid() && dom.grid == dom'.grid && Cluster(dom.grid, ranks) && U.LeftByExchange(dom, owned, lists)
    requires forall c: Coord :: InGrid(dom.grid, c) ==> |pos(c)| == |G.Held(dom, owned, 6, c)|
    requires StartsAt(dom'.grid, ranks, lists, d, starts) && AllRefreshing(ranks, dom', lists, pos, d)
    modifies ranks`pos
    ensures StartsAt(dom'.grid, ranks, lists, d + 1, next) && AllRefreshing(ranks, dom', lists, pos, d + 1)
  {
    next := starts;
    if Communicating(dom'.grid, d) {
      DirectionPrepared(dom, owned, lists, pos, d);
      var messages := PackAllPositions(dom', ranks, d, lists, pos);
      OverwriteAll(dom', ranks, d, starts, messages, lists, pos);
      next := NextStarts(dom'.grid, ranks, d, starts, lists);
    }
  }

  /** Refresh the ghosts of all ranks without looking at plans or positions: the result is what a new
      exchange of the current positions along the same itineraries would have produced. */
  method UpdateGhosts(ghost dom: Domain, dom': Domain, ranks: seq<Rank>, ghost owned: G.Owned)
    requires dom.Valid() && dom'.Valid() && dom.grid == dom'.grid && Cluster(dom.grid, ranks)
    requires forall r :: 0 <= r < |ranks| ==> Remembering(ranks[r], dom, owned)
    modifies ranks`pos
    ensures forall r :: 0 <= r < |ranks| ==> Remembering(ranks[r], dom, owned)
    ensures var owned' := AllMoved(owned, old(FromRanks(dom.grid, PositionArrays(ranks))));
            forall r :: 0 <= r < |ranks| ==> ranks[r].pos == U.Positions(G.Held(dom', owned', 6, ranks[r].coord))
  {
    ghost var lists, pos := ListsOf(dom.grid, Memories(ranks)), FromRanks(dom.grid, PositionArrays(ranks));
    UpdateStart(dom, ranks, owned);
    var starts: seq<nat> := seq(|ranks|, r requires 0 <= r < |ranks| reads ranks => ranks[r].n);
    for d := 0 to 6
      invariant StartsAt(dom'.grid, ranks, lists, d, starts) && AllRefreshing(ranks, dom', lists, pos, d)
    {
      starts := RefreshDirection(dom, dom', ranks, owned, d, starts, lists, pos);
    }
    RefreshedIsExchanged(dom, dom', ranks, owned, lists, pos);
  }

  lemma RefreshedIsExchanged(dom: Domain, dom': Domain, ranks: seq<Rank>, owned: G.Owned, lists: Coord -> U.Lists, pos: Coord -> seq<V3<real>>)
    requires dom.Valid() && dom'.Valid() && dom.grid == dom'.grid && Cluster(dom.grid, ranks)
    requires U.LeftByExchange(dom, owned, lists) && AllRefreshing(ranks, dom', lists, pos, 6)
    requires forall c: Coord :: InGrid(dom.grid, c) ==> |pos(c)| == |G.Held(dom, owned, 6, c)|
    ensures forall r :: 0 <= r < |ranks| ==> ranks[r].pos == U.Positions(G.Held(dom', AllMoved(owned, pos), 6, ranks[r].coord))
  {
    var owned' := AllMoved(owned, pos);
    forall c: Coord | InGrid(dom.grid, c)
      ensures U.SameItinerary(owned(c), owned'(c)) && U.InStep(dom, dom', owned, owned', pos(c), 0, c)
    {
      U.HeldPrefix(dom, owned, 0, 6, c);
    }
    forall r | 0 <= r < |ranks|
      ensures ranks[r].pos == U.Positions(G.Held(dom', owned', 6, ranks[r].coord))
    {
      U.UpdateRefinesExchange(dom, dom', owned, owned', lists, pos, ranks[r].coord);
    }
  }

  // ------------------------------------------------------------ one call of the communicator

  /** `owned` are the migrated particles, with plans. */
  ghost predicate AreMigrated(g: Grid, owned: G.Owned, local: M.Population) {
    forall c: Coord :: InGrid(g, c) ==>
      && |owned(c)| == |local(c)|
      && forall i :: 0 <= i < |owned(c)| ==>
           owned(c)[i].tag == local(c)[i].tag && owned(c)[i].pos == local(c)[i].pos && owned(c)[i].attr == local(c)[i].attr
  }

  /** The plan is one that the marking prescribes. */
  ghost predicate HasMarks(dom: Domain, c: Coord, e: G.Copy)
    requires dom.Valid() && InGrid(dom.grid, c)
  {
    exists bonded: bool :: e.plan == Geo.MarkedPlan(dom, c, e.pos, bonded)
  }

  ghost predicate WithMarks(dom: Domain, owned: G.Owned)
    requires dom.Valid()
  {
    forall c: Coord, i: int :: InGrid(dom.grid, c) && 0 <= i < |owned(c)| ==> HasMarks(dom, c, owned(c)[i])
  }

  lemma SlotsWithMarks(dom: Domain, rank: Rank, i: nat)
    requires dom.Valid() && rank.LocalOnly() && InGrid(dom.grid, rank.coord) && i < rank.n
    ensures HasMarks(dom, rank.coord, MarkedSlots(dom, rank)[i])
  {
    var e := MarkedSlots(dom, rank)[i];
    assert e.plan == Geo.MarkedPlan(dom, rank.coord, e.pos, rank.InIncomplete(rank.bonds, rank.tag[i]));
  }

  lemma MarkedWithMarks(dom: Domain, ranks: seq<Rank>)
    requires dom.Valid() && Cluster(dom.grid, ranks) && forall r :: 0 <= r < |ranks| ==> ranks[r].LocalOnly()
    ensures WithMarks(dom, FromRanks(dom.grid, AllMarked(dom, ranks)))
  {
    var slots := AllMarked(dom, ranks);
    var owned := FromRanks(dom.grid, slots);
    forall c: Coord, i: int | InGrid(dom.grid, c) && 0 <= i < |owned(c)|
      ensures HasMarks(dom, c, owned(c)[i])
    {
      RankOfCoord(dom.grid, c);
      var r := Index(dom.grid, c);
      assert owned(c) == slots[r] == MarkedSlots(dom, ranks[r]) && ranks[r].coord == c;
      SlotsWithMarks(dom, ranks[r], i);
    }
  }

  /** The marking takes care of all bonds with a member elsewhere. */
  lemma SlotsBonded(dom: Domain, rank: Rank, b: B.Bond)
    requires dom.Valid() && rank.LocalOnly() && InGrid(dom.grid, rank.coord) && b in rank.bonds
    ensures BG.MembersMarked(dom, rank.coord, MarkedSlots(dom, rank), b)
  {
    var es := MarkedSlots(dom, rank);
    assert G.Tags(es) == rank.tag;
    var k :| 0 <= k < |rank.bonds| && rank.bonds[k] == b;
    forall i | 0 <= i < |es| && ((es[i].tag == b.a && b.b !in G.Tags(es)) || (es[i].tag == b.b && b.a !in G.Tags(es)))
      ensures es[i].plan == Geo.MarkedPlan(dom, rank.coord, es[i].pos, true)
    {
      assert rank.Incomplete(rank.bonds[k], rank.tag[i]);
    }
  }

  lemma MarkedBonded(dom: Domain, ranks: seq<Rank>)
    requires dom.Valid() && Cluster(dom.grid, ranks) && forall r :: 0 <= r < |ranks| ==> ranks[r].LocalOnly()
    ensures BG.BondMarks(dom, FromRanks(dom.grid, AllMarked(dom, ranks)), FromRanks(dom.grid, BondLists(ranks)))
  {
    var owned, tables := FromRanks(dom.grid, AllMarked(dom, ranks)), FromRanks(dom.grid, BondLists(ranks));
    forall c: Coord, b: B.Bond | InGrid(dom.grid, c) && b in tables(c)
      ensures BG.MembersMarked(dom, c, owned(c), b)
    {
      RankOfCoord(dom.grid, c);
      var r := Index(dom.grid, c);
      assert ranks[r].coord == c && owned(c) == MarkedSlots(dom, ranks[r]) && tables(c) == ranks[r].bonds;
      SlotsBonded(dom, ranks[r], b);
    }
  }

  ghost function LocalAfter(dom: Domain, start: M.Population, d: nat): M.Population
    requires dom.Valid() && d <= 6
  {
    (c: Coord) => M.Local(dom, start, d, c)
  }

  ghost function OwnersAfter(dom: Domain, ros: M.Roster, d: nat): nat -> Coord
    requires dom.Valid() && d <= 6
  {
    (t: nat) => M.OwnerAfter(dom, ros, d, t)
  }

  /** After migration no tag is local to two ranks. */
  lemma MigratedOneOwner(dom: Domain, ranks: seq<Rank>, start: M.Population, tables: B.BondTables, ros: M.Roster, d: nat)
    requires dom.Valid() && Cluster(dom.grid, ranks) && M.Listed(dom.grid, start, ros) && d <= 6
    requires AllAfter(ranks, dom, start, tables, d)
    ensures OneOwner(ranks, OwnersAfter(dom, ros, d))
  {
    forall r, i | 0 <= r < |ranks| && 0 <= i < |ranks[r].tag|
      ensures OwnersAfter(dom, ros, d)(ranks[r].tag[i]) == ranks[r].coord
    {
      var c := ranks[r].coord;
      assert After(ranks[r], dom, start, tables, d);
      M.Tracking(dom, start, ros, d, c);
      assert ranks[r].Particles()[i] in M.Local(dom, start, d, c);
    }
  }

  lemma MarkedAreMigrated(dom: Domain, ranks: seq<Rank>, start: M.Population, tables: B.BondTables, d: nat)
    requires dom.Valid() && Cluster(dom.grid, ranks) && d <= 6
    requires AllAfter(ranks, dom, start, tables, d) && forall r :: 0 <= r < |ranks| ==> ranks[r].LocalOnly()
    ensures AreMigrated(dom.grid, FromRanks(dom.grid, AllMarked(dom, ranks)), LocalAfter(dom, start, d))
  {
    forall c: Coord | InGrid(dom.grid, c)
      ensures var es, ps := FromRanks(dom.grid, AllMarked(dom, ranks))(c), M.Local(dom, start, d, c);
              |es| == |ps| && forall i :: 0 <= i < |es| ==>
                es[i].tag == ps[i].tag && es[i].pos == ps[i].pos && es[i].attr == ps[i].attr
    {
      RankOfCoord(dom.grid, c);
      var rank := ranks[Index(dom.grid, c)];
      assert After(rank, dom, start, tables, d) && rank.coord == c;
      assert forall i :: 0 <= i < rank.n ==> rank.Particles()[i] == M.Local(dom, start, d, c)[i];
    }
  }

  /** The local particles and bonds of every rank are those that the migration of `start` and `tables` gives it. */
  ghost predicate AllMigrated(ranks: seq<Rank>, dom: Domain, start: M.Population, tables: B.BondTables)
    requires dom.Valid()
    reads ranks
  {
    forall r :: 0 <= r < |ranks| ==>
      && ranks[r].Shape()
      && ranks[r].Particles() == M.Local(dom, start, 6, ranks[r].coord)
      && ranks[r].bonds == B.BondsAt(dom, start, tables, 6, ranks[r].coord)
  }

  function Images(ps: seq<M.Particle>): (ks: seq<V3<int>>)
    ensures |ks| == |ps| && forall i :: 0 <= i < |ps| ==> ks[i] == ps[i].image
  {
    seq(|ps|, i requires 0 <= i < |ps| => ps[i].image)
  }

  /** The part of a rank that an exchange does not touch. */
  ghost predicate Untouched(rank: Rank, dom: Domain, start: M.Population, tables: B.BondTables)
    requires dom.Valid()
    reads rank`image, rank`bonds
  {
    && rank.image == Images(M.Local(dom, start, 6, rank.coord))
    && rank.bonds == B.BondsAt(dom, start, tables, 6, rank.coord)
  }

  ghost predicate AllUntouched(ranks: seq<Rank>, dom: Domain, start: M.Population, tables: B.BondTables)
    requires dom.Valid()
    reads ranks`image, ranks`bonds
  {
    forall r :: 0 <= r < |ranks| ==> Untouched(ranks[r], dom, start, tables)
  }

  lemma ReadyForExchange(ranks: seq<Rank>, dom: Domain, start: M.Population, tables: B.BondTables)
    requires dom.Valid() && AllAfter(ranks, dom, start, tables, 6)
    ensures AllUntouched(ranks, dom, start, tables)
  {
    forall r | 0 <= r < |ranks|
      ensures Untouched(ranks[r], dom, start, tables)
    {
      assert After(ranks[r], dom, start, tables, 6);
      assert forall i :: 0 <= i < ranks[r].n ==> ranks[r].image[i] == ranks[r].Particles()[i].image;
    }
  }

  /** The exchange appends ghosts behind the local particles and leaves these as they are. */
  lemma LocalsKept(rank: Rank, dom: Domain, owned: G.Owned, ps: seq<M.Particle>)
    requires dom.Valid() && Holds(rank, dom, owned, 6) && |ps| == |owned(rank.coord)| && rank.image == Images(ps)
    requires forall i :: 0 <= i < |ps| ==>
               var e := owned(rank.coord)[i]; e.tag == ps[i].tag && e.pos == ps[i].pos && e.attr == ps[i].attr
    ensures rank.Particles() == ps
  {
    U.HeldPrefix(dom, owned, 0, 6, rank.coord);
    forall i | 0 <= i < |ps|
      ensures rank.Particles()[i] == ps[i]
    {
      assert rank.Slots()[i] == owned(rank.coord)[i];
    }
  }

  lemma AllLocalsKept(ranks: seq<Rank>, dom: Domain, owned: G.Owned, start: M.Population, tables: B.BondTables)
    requires dom.Valid() && Cluster(dom.grid, ranks) && AllHold(ranks, dom, owned, 6) && AllUntouched(ranks, dom, start, tables)
    requires AreMigrated(dom.grid, owned, LocalAfter(dom, start, 6))
    ensures AllMigrated(ranks, dom, start, tables)
    ensures forall r :: 0 <= r < |ranks| ==> Remembering(ranks[r], dom, owned)
  {
    forall r | 0 <= r < |ranks|
      ensures Remembering(ranks[r], dom, owned)
      ensures ranks[r].Particles() == M.Local(dom, start, 6, ranks[r].coord)
    {
      ExchangeIsRemembered(ranks[r], dom, owned);
      assert Untouched(ranks[r], dom, start, tables);
      LocalsKept(ranks[r], dom, owned, LocalAfter(dom, start, 6)(ranks[r].coord));
    }
  }

  /** A communication step with migration: particles and bonds go to their new owners, then the ghosts
      are exchanged. Afterwards every rank holds what the specification of both says. */
  method MigrateAndExchange(dom: Domain, ranks: seq<Rank>, ghost ros: M.Roster)
    returns (ghost owned: G.Owned, ghost dir: G.Directory)
    requires dom.Valid() && dom.GhostWidthAccepted() && Cluster(dom.grid, ranks)
    requires forall r :: 0 <= r < |ranks| ==> ranks[r].Shape() && ranks[r].RtagOk()
    requires M.Listed(dom.grid, FromRanks(dom.grid, Locals(ranks)), ros)
    modifies ranks
    ensures AllMigrated(ranks, dom, old(FromRanks(dom.grid, Locals(ranks))), old(FromRanks(dom.grid, BondLists(ranks))))
    ensures AreMigrated(dom.grid, owned, LocalAfter(dom, old(FromRanks(dom.grid, Locals(ranks))), 6)) && WithMarks(dom, owned)
    ensures BG.BondMarks(dom, owned, FromRanks(dom.grid, BondLists(ranks)))
    ensures G.Registered(dom.grid, owned, dir) && dir.owner == OwnersAfter(dom, ros, 6)
    ensures AllHold(ranks, dom, owned, 6)
    ensures forall r :: 0 <= r < |ranks| ==> Remembering(ranks[r], dom, owned)
  {
    ghost var start, tables := FromRanks(dom.grid, Locals(ranks)), FromRanks(dom.grid, BondLists(ranks));
    MigrateParticles(dom, ranks, ros);
    MigratedOneOwner(dom, ranks, start, tables, ros, 6);
    owned, dir := ExchangeMigrated(dom, ranks, start, tables, OwnersAfter(dom, ros, 6));
  }

  method ExchangeMigrated(dom: Domain, ranks: seq<Rank>, ghost start: M.Population, ghost tables: B.BondTables, ghost owner: nat -> Coord)
    returns (ghost owned: G.Owned, ghost dir: G.Directory)
    requires dom.Valid() && dom.GhostWidthAccepted() && Cluster(dom.grid, ranks)
    requires AllAfter(ranks, dom, start, tables, 6) && OneOwner(ranks, owner)
    modifies ranks
    ensures AllMigrated(ranks, dom, start, tables) && AreMigrated(dom.grid, owned, LocalAfter(dom, start, 6)) && WithMarks(dom, owned)
    ensures BG.BondMarks(dom, owned, FromRanks(dom.grid, BondLists(ranks)))
    ensures G.Registered(dom.grid, owned, dir) && dir.owner == owner
    ensures AllHold(ranks, dom, owned, 6) && forall r :: 0 <= r < |ranks| ==> Remembering(ranks[r], dom, owned)
  {
    assert forall r :: 0 <= r < |ranks| ==> After(ranks[r], dom, start, tables, 6);
    ReadyForExchange(ranks, dom, start, tables);
    MarkedAreMigrated(dom, ranks, start, tables, 6);
    MarkedWithMarks(dom, ranks);
    MarkedBonded(dom, ranks);
    ghost var lists := BondLists(ranks);
    owned := FromRanks(dom.grid, AllMarked(dom, ranks));
    dir := ExchangeGhosts(dom, ranks, owner);
    AllLocalsKept(ranks, dom, owned, start, tables);
    assert BondLists(ranks) == lists;
  }
}
