/** The communicator as the simulation uses it: one call per time step, over any number of steps, with
    particles moving in between. */
module CommunicationSteps {
  import opened Arithmetic
  import opened Vectors
  import opened Decomposition
  import opened Box
  import opened Ranks
  import opened Sequences
  import opened Communicator
  import B = Bonds
  import BG = BondGhosts
  import GC = GhostCommunicator
  import Geo = GhostGeometry
  import J = Journey
  import G = GhostExchange
  import M = Migration
  import U = GhostUpdate

  /** The tag is local to some rank. */
  ghost predicate Present(g: Grid, pop: M.Population, t: nat) {
    exists c: Coord :: InGrid(g, c) && M.HasTag(pop(c), t)
  }

  /** The same tags are present. */
  ghost predicate SamePresence(g: Grid, pop: M.Population, pop': M.Population) {
    forall t: nat :: Present(g, pop', t) <==> Present(g, pop, t)
  }

  /** Each local particle is owned by the rank that `owner` names, and has a tag of its own there. */
  ghost predicate OwnedBy(g: Grid, pop: M.Population, owner: nat -> Coord) {
    forall c: Coord :: InGrid(g, c) ==> M.DistinctTags(pop(c)) && forall p :: p in pop(c) ==> owner(p.tag) == c
  }

  ghost function ParticleOf(ps: seq<M.Particle>, t: nat): (p: M.Particle)
    ensures M.HasTag(ps, t) ==> p in ps && p.tag == t
  {
    if M.HasTag(ps, t) then
      var p :| p in ps && p.tag == t;
      p
    else M.Particle(t, V3(0.0, 0.0, 0.0), V3(0, 0, 0), Attr(0.0, 0.0))
  }

  /** The roster lists exactly the particles that are present. */
  ghost predicate Lists(g: Grid, pop: M.Population, ros: M.Roster) {
    && M.Listed(g, pop, ros)
    && forall t: nat :: M.Known(g, pop, ros, t) <==> Present(g, pop, t)
  }

  /** Particles with one owner each form a roster, which knows exactly the tags that are present. */
  lemma RosterExists(g: Grid, pop: M.Population, owner: nat -> Coord) returns (ros: M.Roster)
    requires OwnedBy(g, pop, owner)
    ensures Lists(g, pop, ros) && ros.rank == owner
  {
    ros := M.Roster(owner, (t: nat) => ParticleOf(pop(owner(t)), t));
    forall c: Coord, p: M.Particle | InGrid(g, c) && p in pop(c)
      ensures ros.rank(p.tag) == c && ros.particle(p.tag) == p
    {
      assert M.HasTag(pop(c), p.tag);
    }
    forall t: nat
      ensures M.Known(g, pop, ros, t) <==> Present(g, pop, t)
    {
      if Present(g, pop, t) {
        var c: Coord :| InGrid(g, c) && M.HasTag(pop(c), t);
      }
    }
  }

  // ------------------------------------------------------------ what migration keeps

  /** Rank `c` stores exactly the bonds with a member that it owns, each once. */
  ghost predicate StoresBonds(all: set<B.Bond>, owner: nat -> Coord, c: Coord, bs: seq<B.Bond>) {
    && (forall b :: b in bs <==> b in all && (owner(b.a) == c || owner(b.b) == c))
    && DistinctKeys(bs, B.BondTag)
  }

  /** Particles and bonds of the whole system are where `owner` says. */
  ghost predicate Settled(g: Grid, pop: M.Population, tables: B.BondTables, owner: nat -> Coord, all: set<B.Bond>) {
    && OwnedBy(g, pop, owner)
    && (forall b, b' :: b in all && b' in all && b.tag == b'.tag ==> b == b')
    && (forall b :: b in all ==> Present(g, pop, b.a) && Present(g, pop, b.b))
    && (forall c: Coord :: InGrid(g, c) ==> StoresBonds(all, owner, c, tables(c)))
  }

  ghost function TablesAfter(dom: Domain, start: M.Population, tables: B.BondTables): B.BondTables
    requires dom.Valid()
  {
    (c: Coord) => B.BondsAt(dom, start, tables, 6, c)
  }

  /** Migration neither loses nor invents a particle. */
  lemma Conserved(dom: Domain, start: M.Population, ros: M.Roster, t: nat)
    requires dom.Valid() && M.Listed(dom.grid, start, ros)
    ensures Present(dom.grid, GC.LocalAfter(dom, start, 6), t) <==> M.Known(dom.grid, start, ros, t)
  {
    var next := GC.LocalAfter(dom, start, 6);
    if M.Known(dom.grid, start, ros, t) {
      M.EveryTagOnce(dom, start, ros, 6, ros.rank(t), t);
      var c := M.OwnerAfter(dom, ros, 6, t);
      M.Tracking(dom, start, ros, 6, c);
      assert M.HasTag(next(c), t);
    }
    if Present(dom.grid, next, t) {
      var c: Coord :| InGrid(dom.grid, c) && M.HasTag(next(c), t);
      M.Tracking(dom, start, ros, 6, c);
      assert M.HasTag(M.Local(dom, start, 6, c), t);
    }
  }

  lemma MigratedOwners(dom: Domain, start: M.Population, ros: M.Roster)
    requires dom.Valid() && M.Listed(dom.grid, start, ros)
    ensures OwnedBy(dom.grid, GC.LocalAfter(dom, start, 6), GC.OwnersAfter(dom, ros, 6))
  {
    var next, owner := GC.LocalAfter(dom, start, 6), GC.OwnersAfter(dom, ros, 6);
    forall c: Coord | InGrid(dom.grid, c)
      ensures M.DistinctTags(next(c)) && forall p :: p in next(c) ==> owner(p.tag) == c
    {
      M.Tracking(dom, start, ros, 6, c);
    }
  }

  lemma MigratedBonds(dom: Domain, start: M.Population, tables: B.BondTables, ros: M.Roster, all: set<B.Bond>, c: Coord)
    requires dom.Valid() && InGrid(dom.grid, c) && Lists(dom.grid, start, ros) && Settled(dom.grid, start, tables, ros.rank, all)
    ensures StoresBonds(all, GC.OwnersAfter(dom, ros, 6), c, TablesAfter(dom, start, tables)(c))
  {
    forall c: Coord | InGrid(dom.grid, c)
      ensures B.Resident(dom, ros, all, 0, c, tables(c))
    {
      assert StoresBonds(all, ros.rank, c, tables(c));
      assert forall b: B.Bond :: B.OwnsMember(dom, ros, 0, c, b) <==> ros.rank(b.a) == c || ros.rank(b.b) == c;
    }
    B.BondResidency(dom, start, ros, all, tables, 6, c);
    var owner := GC.OwnersAfter(dom, ros, 6);
    assert forall b: B.Bond :: B.OwnsMember(dom, ros, 6, c, b) <==> owner(b.a) == c || owner(b.b) == c;
  }

  /** After a migration everything is settled again, with the same particles and bonds. */
  lemma MigrationSettles(dom: Domain, start: M.Population, tables: B.BondTables, ros: M.Roster, all: set<B.Bond>)
    requires dom.Valid() && Lists(dom.grid, start, ros) && Settled(dom.grid, start, tables, ros.rank, all)
    ensures Settled(dom.grid, GC.LocalAfter(dom, start, 6), TablesAfter(dom, start, tables), GC.OwnersAfter(dom, ros, 6), all)
    ensures SamePresence(dom.grid, start, GC.LocalAfter(dom, start, 6))
  {
    var next := GC.LocalAfter(dom, start, 6);
    MigratedOwners(dom, start, ros);
    forall t: nat
      ensures Present(dom.grid, next, t) <==> Present(dom.grid, start, t)
    {
      Conserved(dom, start, ros, t);
    }
    forall c: Coord | InGrid(dom.grid, c)
      ensures StoresBonds(all, GC.OwnersAfter(dom, ros, 6), c, TablesAfter(dom, start, tables)(c))
    {
      MigratedBonds(dom, start, tables, ros, all, c);
    }
  }

  // ------------------------------------------------------------ what moving particles keeps

  ghost predicate SameTags(g: Grid, pop: M.Population, pop': M.Population) {
    forall c: Coord :: InGrid(g, c) ==> M.Tags(pop(c)) == M.Tags(pop'(c))
  }

  lemma HasTagByTags(ps: seq<M.Particle>, t: nat)
    ensures M.HasTag(ps, t) <==> t in M.Tags(ps)
  {
    if t in M.Tags(ps) {
      var i :| 0 <= i < |ps| && M.Tags(ps)[i] == t;
      assert ps[i] in ps;
    }
  }

  lemma SamePresent(g: Grid, pop: M.Population, pop': M.Population, t: nat)
    requires SameTags(g, pop, pop') && Present(g, pop, t)
    ensures Present(g, pop', t)
  {
    var c: Coord :| InGrid(g, c) && M.HasTag(pop(c), t);
    HasTagByTags(pop(c), t);
    HasTagByTags(pop'(c), t);
  }

  lemma SameOwners(g: Grid, pop: M.Population, pop': M.Population, owner: nat -> Coord)
    requires SameTags(g, pop, pop') && OwnedBy(g, pop, owner)
    ensures OwnedBy(g, pop', owner)
  {
    forall c: Coord | InGrid(g, c)
      ensures M.DistinctTags(pop'(c)) && forall p :: p in pop'(c) ==> owner(p.tag) == c
    {
      var ps, qs := pop(c), pop'(c);
      assert forall i :: 0 <= i < |ps| ==> M.Tags(ps)[i] == ps[i].tag && ps[i] in ps;
      assert forall i :: 0 <= i < |qs| ==> M.Tags(qs)[i] == qs[i].tag;
    }
  }

  /** Whether particles and bonds are settled depends on tags, not on positions. */
  lemma StaysSettled(g: Grid, pop: M.Population, pop': M.Population, tables: B.BondTables, tables': B.BondTables,
                     owner: nat -> Coord, all: set<B.Bond>)
    requires Settled(g, pop, tables, owner, all) && SameTags(g, pop, pop')
    requires forall c: Coord :: InGrid(g, c) ==> tables(c) == tables'(c)
    ensures Settled(g, pop', tables', owner, all)
    ensures SamePresence(g, pop, pop')
  {
    SameOwners(g, pop, pop', owner);
    forall t: nat
      ensures Present(g, pop', t) <==> Present(g, pop, t)
    {
      if Present(g, pop, t) {
        SamePresent(g, pop, pop', t);
      }
      if Present(g, pop', t) {
        SamePresent(g, pop', pop, t);
      }
    }
  }

  // ------------------------------------------------------------ ghosts follow their owners

  /** A local particle of the rank has the tag, and `p` is an image of its present position. */
  ghost predicate Owns(rank: Rank, L: V3<real>, t: nat, p: V3<real>)
    reads rank
  {
    rank.Shape() && exists j :: 0 <= j < rank.n && rank.tag[j] == t && U.Images(L, p, rank.pos[j])
  }

  ghost predicate SomeoneOwns(ranks: seq<Rank>, L: V3<real>, t: nat, p: V3<real>)
    reads ranks
  {
    exists q :: 0 <= q < |ranks| && Owns(ranks[q], L, t, p)
  }

  /** The rank's arrays are the slots that an exchange of `owned` would produce. */
  ghost predicate Shows(rank: Rank, dom: Domain, owned: G.Owned)
    requires dom.Valid()
    reads rank
  {
    && rank.Shape() && rank.n == |owned(rank.coord)|
    && rank.tag == G.Tags(G.Held(dom, owned, 6, rank.coord))
    && rank.pos == U.Positions(G.Held(dom, owned, 6, rank.coord))
  }

  /** What a slot of `Held` stores is an image of the owner's particle. */
  lemma SlotHasOwner(dom: Domain, owned: G.Owned, dir: G.Directory, c: Coord, e: G.Copy) returns (p: Coord, j: nat)
    requires dom.Valid() && InGrid(dom.grid, c) && G.Registered(dom.grid, owned, dir) && e in G.Held(dom, owned, 6, c)
    ensures InGrid(dom.grid, p) && j < |owned(p)| && owned(p)[j].tag == e.tag && U.Images(dom.L, e.pos, owned(p)[j].pos)
    ensures j < |G.Held(dom, owned, 6, p)| && G.Held(dom, owned, 6, p)[j] == owned(p)[j]
  {
    U.SlotsAreImages(dom, owned, dir, 6, c);
    G.Delivery(dom, owned, dir, 6, c);
    p := dir.owner(e.tag);
    assert U.CopyOf(dom.L, e, owned(p));
    j :| 0 <= j < |owned(p)| && owned(p)[j].tag == e.tag && U.Images(dom.L, e.pos, owned(p)[j].pos);
    U.HeldPrefix(dom, owned, 0, 6, p);
  }

  lemma OwnerShows(rank: Rank, dom: Domain, owned: G.Owned, e: G.Copy, j: nat)
    requires dom.Valid() && Shows(rank, dom, owned) && j < |owned(rank.coord)| && j < |G.Held(dom, owned, 6, rank.coord)|
    requires G.Held(dom, owned, 6, rank.coord)[j] == owned(rank.coord)[j]
    requires owned(rank.coord)[j].tag == e.tag && U.Images(dom.L, e.pos, owned(rank.coord)[j].pos)
    ensures Owns(rank, dom.L, e.tag, e.pos)
  {
    assert rank.tag[j] == e.tag && rank.pos[j] == owned(rank.coord)[j].pos;
  }

  /** Every slot of every rank holds an image of the present position of the local particle of its tag. */
  ghost predicate AllMirror(ranks: seq<Rank>, L: V3<real>)
    reads ranks
  {
    forall r, i :: 0 <= r < |ranks| && 0 <= i < |ranks[r].tag| && ranks[r].Shape() ==>
      SomeoneOwns(ranks, L, ranks[r].tag[i], ranks[r].pos[i])
  }

  lemma ShownMirrors(dom: Domain, ranks: seq<Rank>, owned: G.Owned, dir: G.Directory)
    requires dom.Valid() && Cluster(dom.grid, ranks) && G.Registered(dom.grid, owned, dir)
    requires forall q :: 0 <= q < |ranks| ==> Shows(ranks[q], dom, owned)
    ensures AllMirror(ranks, dom.L)
  {
    forall r, i | 0 <= r < |ranks| && 0 <= i < |ranks[r].tag|
      ensures ranks[r].Shape() && SomeoneOwns(ranks, dom.L, ranks[r].tag[i], ranks[r].pos[i])
    {
      assert Shows(ranks[r], dom, owned);
      var e := G.Held(dom, owned, 6, ranks[r].coord)[i];
      var p, j := SlotHasOwner(dom, owned, dir, ranks[r].coord, e);
      RankOfCoord(dom.grid, p);
      var q := Index(dom.grid, p);
      assert Shows(ranks[q], dom, owned) && ranks[q].coord == p;
      OwnerShows(ranks[q], dom, owned, e, j);
      assert ranks[r].tag[i] == e.tag && ranks[r].pos[i] == e.pos;
    }
  }

  lemma MovedRegistered(g: Grid, owned: G.Owned, dir: G.Directory, pos: Coord -> seq<V3<real>>)
    requires G.Registered(g, owned, dir)
    ensures G.Registered(g, GC.AllMoved(owned, pos), dir)
    ensures U.SameItineraries(g, owned, GC.AllMoved(owned, pos))
  {
    var moved := GC.AllMoved(owned, pos);
    forall c: Coord
      ensures U.SameItinerary(owned(c), moved(c))
    {
      assert moved(c) == GC.Moved(owned(c), pos(c));
    }
    forall c: Coord | InGrid(g, c)
      ensures G.Distinct(moved(c))
    {
      assert G.Distinct(owned(c)) && U.SameItinerary(owned(c), moved(c));
    }
    forall c: Coord, i: int | InGrid(g, c) && 0 <= i < |moved(c)|
      ensures dir.owner(moved(c)[i].tag) == c && dir.plan(moved(c)[i].tag) == moved(c)[i].plan
    {
      assert U.SameItinerary(owned(c), moved(c)) && dir.owner(owned(c)[i].tag) == c;
    }
  }

  lemma HeldShows(rank: Rank, dom: Domain, owned: G.Owned)
    requires dom.Valid() && GC.Holds(rank, dom, owned, 6)
    ensures Shows(rank, dom, owned)
  {
    assert forall i :: 0 <= i < |rank.tag| ==> rank.Slots()[i].tag == rank.tag[i] && rank.Slots()[i].pos == rank.pos[i];
  }

  lemma UpdatedShows(rank: Rank, exchanged: Domain, dom: Domain, owned: G.Owned, pos: Coord -> seq<V3<real>>)
    requires exchanged.Valid() && dom.Valid() && exchanged.grid == dom.grid && InGrid(dom.grid, rank.coord)
    requires GC.Remembering(rank, exchanged, owned) && U.SameItineraries(dom.grid, owned, GC.AllMoved(owned, pos))
    requires rank.pos == U.Positions(G.Held(dom, GC.AllMoved(owned, pos), 6, rank.coord))
    ensures Shows(rank, dom, GC.AllMoved(owned, pos))
  {
    U.HeldItinerary(exchanged, dom, owned, GC.AllMoved(owned, pos), 6, rank.coord);
    assert rank.Remembered().n == |owned(rank.coord)|;
  }

  /** The first particles of the rank have these positions. */
  ghost predicate AtPositions(rank: Rank, ps: seq<V3<real>>)
    reads rank
  {
    rank.Shape() && rank.n <= |ps| && forall i :: 0 <= i < rank.n ==> rank.pos[i] == ps[i]
  }

  /** An update leaves the local particles where they are. */
  lemma LocalsStay(rank: Rank, dom: Domain, owned: G.Owned, pos: Coord -> seq<V3<real>>)
    requires dom.Valid() && Shows(rank, dom, GC.AllMoved(owned, pos)) && rank.n <= |pos(rank.coord)|
    ensures AtPositions(rank, pos(rank.coord))
  {
    var moved := GC.AllMoved(owned, pos);
    U.HeldPrefix(dom, moved, 0, 6, rank.coord);
    forall i | 0 <= i < rank.n
      ensures rank.pos[i] == pos(rank.coord)[i]
    {
      assert moved(rank.coord)[i] == G.Held(dom, moved, 6, rank.coord)[i];
    }
  }

  /** Everything but the positions of the local particles. */
  ghost predicate Identifies(rank: Rank, ps: seq<M.Particle>)
    reads rank`n, rank`tag, rank`image, rank`attr
  {
    && |ps| == rank.n == |rank.image| <= |rank.tag| == |rank.attr|
    && forall i :: 0 <= i < |ps| ==> rank.tag[i] == ps[i].tag && rank.image[i] == ps[i].image && rank.attr[i] == ps[i].attr
  }

  lemma SameParticles(rank: Rank, ps: seq<M.Particle>, pos: seq<V3<real>>)
    requires Identifies(rank, ps) && AtPositions(rank, pos) && |ps| <= |pos|
    requires forall i :: 0 <= i < |ps| ==> pos[i] == ps[i].pos
    ensures rank.Particles() == ps
  {
  }

  // ------------------------------------------------------------ nothing close is missing

  /** Migration will take the particle home on every decomposed axis. */
  ghost predicate HeadsHome(dom: Domain, t: J.Traveller)
    requires dom.Valid()
  {
    forall a: Axis :: dom.grid.At(a) >= 2 ==> J.Wrappable(dom, t, a) && J.FindsHome(dom, t, a)
  }

  /** Migration will take all particles home. */
  ghost predicate AllGetHome(dom: Domain, start: M.Population)
    requires dom.Valid()
  {
    forall c: Coord, p: M.Particle :: InGrid(dom.grid, c) && p in start(c) ==> HeadsHome(dom, M.On(c, p))
  }

  /** Every particle that is within the ghost width of a local particle of a rank is known to that rank. */
  ghost predicate NothingMissing(dom: Domain, ranks: seq<Rank>)
    reads ranks
  {
    forall r, q, i, j :: 0 <= r < |ranks| && 0 <= q < |ranks| && ranks[r].Shape() && ranks[q].Shape()
                         && 0 <= i < ranks[r].n && 0 <= j < ranks[q].n
                         && Geo.Close(dom, ranks[q].pos[j], ranks[r].pos[i])
                         ==> ranks[q].tag[j] in ranks[r].tag
  }

  lemma HomeAfter(dom: Domain, start: M.Population, ros: M.Roster, c: Coord, p: M.Particle)
    requires dom.Valid() && InGrid(dom.grid, c) && M.Listed(dom.grid, start, ros) && AllGetHome(dom, start)
    requires p in M.Local(dom, start, 6, c)
    ensures Geo.AtHome(dom, c, p.pos)
  {
    M.Tracking(dom, start, ros, 6, c);
    var t := ros.Start(p.tag);
    assert t == M.On(ros.rank(p.tag), ros.particle(p.tag)) && ros.particle(p.tag) in start(ros.rank(p.tag));
    forall a: Axis | dom.grid.At(a) >= 2
      ensures Inside(dom.grid.At(a), dom.L.At(a), c.At(a), p.pos.At(a))
    {
      assert HeadsHome(dom, t);
      M.MigrationLandsHome(dom, start, ros, c, p, a);
    }
  }

  lemma MigratedAtHome(dom: Domain, start: M.Population, ros: M.Roster, owned: G.Owned)
    requires dom.Valid() && M.Listed(dom.grid, start, ros) && AllGetHome(dom, start)
    requires GC.AreMigrated(dom.grid, owned, GC.LocalAfter(dom, start, 6)) && GC.WithMarks(dom, owned)
    ensures Geo.Settled(dom, owned)
  {
    forall c: Coord, i: int | InGrid(dom.grid, c) && 0 <= i < |owned(c)|
      ensures Geo.AtHome(dom, c, owned(c)[i].pos)
    {
      var p := GC.LocalAfter(dom, start, 6)(c)[i];
      HomeAfter(dom, start, ros, c, p);
    }
  }

  lemma LocalShown(rank: Rank, dom: Domain, owned: G.Owned, i: nat)
    requires dom.Valid() && Shows(rank, dom, owned) && i < rank.n
    ensures rank.tag[i] == owned(rank.coord)[i].tag && rank.pos[i] == owned(rank.coord)[i].pos
  {
    U.HeldPrefix(dom, owned, 0, 6, rank.coord);
    assert owned(rank.coord)[i] == G.Held(dom, owned, 6, rank.coord)[i];
  }

  lemma ShownComplete(dom: Domain, ranks: seq<Rank>, owned: G.Owned, dir: G.Directory)
    requires dom.Valid() && dom.GhostWidthAccepted() && Cluster(dom.grid, ranks)
    requires G.Registered(dom.grid, owned, dir) && Geo.Settled(dom, owned)
    requires forall q :: 0 <= q < |ranks| ==> Shows(ranks[q], dom, owned)
    ensures NothingMissing(dom, ranks)
  {
    forall r, q, i, j | 0 <= r < |ranks| && 0 <= q < |ranks| && 0 <= i < ranks[r].n && 0 <= j < ranks[q].n
                        && ranks[r].Shape() && ranks[q].Shape() && Geo.Close(dom, ranks[q].pos[j], ranks[r].pos[i])
      ensures ranks[q].tag[j] in ranks[r].tag
    {
      LocalShown(ranks[r], dom, owned, i);
      LocalShown(ranks[q], dom, owned, j);
      Geo.GhostCompleteness(dom, owned, dir, ranks[r].coord, i, ranks[q].coord, j);
      assert Shows(ranks[r], dom, owned);
    }
  }

  /** The members of the bond, wherever they are local, are less than half a sub-domain apart. */
  ghost predicate MembersNear(dom: Domain, ranks: seq<Rank>, b: B.Bond)
    requires dom.Valid()
    reads ranks
  {
    forall q, q', i, j :: 0 <= q < |ranks| && 0 <= q' < |ranks| && ranks[q].Shape() && ranks[q'].Shape()
                          && 0 <= i < ranks[q].n && 0 <= j < ranks[q'].n && ranks[q].tag[i] == b.a && ranks[q'].tag[j] == b.b
                          ==> BG.HalfwayClose(dom, ranks[q].pos[i], ranks[q'].pos[j])
  }

  /** Every rank knows both members of the bonds that it stores, if they are not too far apart. */
  ghost predicate BondsComplete(dom: Domain, ranks: seq<Rank>)
    requires dom.Valid()
    reads ranks
  {
    forall r, b :: 0 <= r < |ranks| && b in ranks[r].bonds && MembersNear(dom, ranks, b) ==>
      b.a in ranks[r].tag && b.b in ranks[r].tag
  }

  /** The ranks hold these particles and bonds. */
  ghost predicate Contain(ranks: seq<Rank>, pop: M.Population, tables: B.BondTables)
    reads ranks
  {
    forall q :: 0 <= q < |ranks| ==>
      ranks[q].Shape() && pop(ranks[q].coord) == ranks[q].Particles() && tables(ranks[q].coord) == ranks[q].bonds
  }

  /** The slot of a tag that is present, on the rank of its owner. */
  lemma SlotOf(g: Grid, ranks: seq<Rank>, pop: M.Population, tables: B.BondTables, owner: nat -> Coord, t: nat) returns (q: nat, i: nat)
    requires Cluster(g, ranks) && Contain(ranks, pop, tables) && OwnedBy(g, pop, owner) && Present(g, pop, t)
    ensures q < |ranks| && ranks[q].Shape() && i < ranks[q].n && ranks[q].tag[i] == t && ranks[q].coord == owner(t)
  {
    var c: Coord :| InGrid(g, c) && M.HasTag(pop(c), t);
    RankOfCoord(g, c);
    q := Index(g, c);
    assert ranks[q].coord == c && pop(c) == ranks[q].Particles();
    var p :| p in pop(c) && p.tag == t;
    i :| i < |pop(c)| && pop(c)[i] == p;
  }

  /** Where a bond is stored. */
  lemma StoredAt(ranks: seq<Rank>, pop: M.Population, tables: B.BondTables, g: Grid, owner: nat -> Coord, all: set<B.Bond>, r: nat, b: B.Bond)
    requires Cluster(g, ranks) && Contain(ranks, pop, tables) && Settled(g, pop, tables, owner, all) && r < |ranks|
    ensures b in ranks[r].bonds <==> b in all && (owner(b.a) == ranks[r].coord || owner(b.b) == ranks[r].coord)
    ensures b in all ==> Present(g, pop, b.a) && Present(g, pop, b.b)
  {
    assert StoresBonds(all, owner, ranks[r].coord, tables(ranks[r].coord));
  }

  lemma SlotShown(dom: Domain, rank: Rank, owned: G.Owned, i: nat, t: nat)
    requires dom.Valid() && InGrid(dom.grid, rank.coord) && Shows(rank, dom, owned) && i < rank.n && rank.tag[i] == t
    ensures BG.IsAt(dom.grid, owned, rank.coord, i, t) && owned(rank.coord)[i].pos == rank.pos[i]
  {
    LocalShown(rank, dom, owned, i);
  }

  lemma ShownBond(dom: Domain, ranks: seq<Rank>, owned: G.Owned, dir: G.Directory, pop: M.Population, tables: B.BondTables,
                  owner: nat -> Coord, all: set<B.Bond>, r: nat, b: B.Bond)
    requires dom.Valid() && Cluster(dom.grid, ranks) && G.Registered(dom.grid, owned, dir) && BG.AllAtHome(dom, owned)
    requires BG.BondMarks(dom, owned, tables) && forall q :: 0 <= q < |ranks| ==> Shows(ranks[q], dom, owned)
    requires Contain(ranks, pop, tables) && Settled(dom.grid, pop, tables, owner, all)
    requires r < |ranks| && b in ranks[r].bonds && MembersNear(dom, ranks, b)
    ensures b.a in ranks[r].tag && b.b in ranks[r].tag
  {
    StoredAt(ranks, pop, tables, dom.grid, owner, all, r, b);
    var q, i := SlotOf(dom.grid, ranks, pop, tables, owner, b.a);
    var q', j := SlotOf(dom.grid, ranks, pop, tables, owner, b.b);
    StoredAt(ranks, pop, tables, dom.grid, owner, all, q, b);
    StoredAt(ranks, pop, tables, dom.grid, owner, all, q', b);
    assert Shows(ranks[q], dom, owned) && Shows(ranks[q'], dom, owned) && Shows(ranks[r], dom, owned);
    SlotShown(dom, ranks[q], owned, i, b.a);
    SlotShown(dom, ranks[q'], owned, j, b.b);
    BG.BondCompleteness(dom, owned, dir, tables, b, ranks[q].coord, i, ranks[q'].coord, j, ranks[r].coord);
  }

  /** Bond completeness in terms of the ranks' arrays. */
  lemma ShownBonds(dom: Domain, ranks: seq<Rank>, owned: G.Owned, dir: G.Directory, pop: M.Population, tables: B.BondTables,
                   owner: nat -> Coord, all: set<B.Bond>)
    requires dom.Valid() && Cluster(dom.grid, ranks) && G.Registered(dom.grid, owned, dir) && BG.AllAtHome(dom, owned)
    requires BG.BondMarks(dom, owned, tables) && forall q :: 0 <= q < |ranks| ==> Shows(ranks[q], dom, owned)
    requires Contain(ranks, pop, tables) && Settled(dom.grid, pop, tables, owner, all)
    ensures BondsComplete(dom, ranks)
  {
    forall r, b | 0 <= r < |ranks| && b in ranks[r].bonds && MembersNear(dom, ranks, b)
      ensures b.a in ranks[r].tag && b.b in ranks[r].tag
    {
      ShownBond(dom, ranks, owned, dir, pop, tables, owner, all, r, b);
    }
  }

  lemma ContainOwn(g: Grid, ranks: seq<Rank>)
    requires Cluster(g, ranks) && forall r :: 0 <= r < |ranks| ==> ranks[r].Shape()
    ensures Contain(ranks, FromRanks(g, Locals(ranks)), FromRanks(g, BondLists(ranks)))
  {
    forall q | 0 <= q < |ranks|
      ensures FromRanks(g, Locals(ranks))(ranks[q].coord) == ranks[q].Particles()
      ensures FromRanks(g, BondLists(ranks))(ranks[q].coord) == ranks[q].bonds
    {
      RankValue(g, Locals(ranks), q);
      RankValue(g, BondLists(ranks), q);
    }
  }

  lemma SettledAtHome(dom: Domain, owned: G.Owned)
    requires dom.Valid() && Geo.Settled(dom, owned)
    ensures BG.AllAtHome(dom, owned)
  {
  }

  /** After a migration that takes all particles home nothing close is missing. */
  lemma MigratedIsComplete(dom: Domain, ranks: seq<Rank>, start: M.Population, ros: M.Roster, owned: G.Owned, dir: G.Directory)
    requires dom.Valid() && dom.GhostWidthAccepted() && Cluster(dom.grid, ranks) && G.Registered(dom.grid, owned, dir)
    requires M.Listed(dom.grid, start, ros) && GC.AllHold(ranks, dom, owned, 6)
    requires GC.AreMigrated(dom.grid, owned, GC.LocalAfter(dom, start, 6)) && GC.WithMarks(dom, owned)
    ensures AllGetHome(dom, start) ==> NothingMissing(dom, ranks) && Geo.Settled(dom, owned)
  {
    if AllGetHome(dom, start) {
      MigratedAtHome(dom, start, ros, owned);
      forall r | 0 <= r < |ranks|
        ensures Shows(ranks[r], dom, owned)
      {
        assert GC.Holds(ranks[r], dom, owned, 6);
        HeldShows(ranks[r], dom, owned);
      }
      ShownComplete(dom, ranks, owned, dir);
    }
  }

  /** What the communicators know after a migration, in terms of the ranks' arrays. */
  lemma MigratedIsShown(dom: Domain, ranks: seq<Rank>, start: M.Population, tables: B.BondTables, ros: M.Roster,
                        owned: G.Owned, dir: G.Directory, all: set<B.Bond>)
    requires dom.Valid() && Cluster(dom.grid, ranks) && G.Registered(dom.grid, owned, dir)
    requires GC.AllMigrated(ranks, dom, start, tables) && GC.AllHold(ranks, dom, owned, 6)
    requires Lists(dom.grid, start, ros) && Settled(dom.grid, start, tables, ros.rank, all) && dom.GhostWidthAccepted()
    requires GC.AreMigrated(dom.grid, owned, GC.LocalAfter(dom, start, 6)) && GC.WithMarks(dom, owned)
    requires BG.BondMarks(dom, owned, FromRanks(dom.grid, BondLists(ranks)))
    ensures forall r :: 0 <= r < |ranks| ==> ranks[r].Shape() && ranks[r].RtagOk()
    ensures Settled(dom.grid, FromRanks(dom.grid, Locals(ranks)), FromRanks(dom.grid, BondLists(ranks)), GC.OwnersAfter(dom, ros, 6), all)
    ensures SamePresence(dom.grid, start, FromRanks(dom.grid, Locals(ranks)))
    ensures AllMirror(ranks, dom.L) && (AllGetHome(dom, start) ==> NothingMissing(dom, ranks) && Geo.Settled(dom, owned))
    ensures GC.AreMigrated(dom.grid, owned, FromRanks(dom.grid, Locals(ranks)))
    ensures AllGetHome(dom, start) ==> BondsComplete(dom, ranks)
  {
    forall r | 0 <= r < |ranks|
      ensures Shows(ranks[r], dom, owned) && ranks[r].RtagOk()
    {
      assert GC.Holds(ranks[r], dom, owned, 6);
      HeldShows(ranks[r], dom, owned);
    }
    ShownMirrors(dom, ranks, owned, dir);
    MigratedIsComplete(dom, ranks, start, ros, owned, dir);
    PopulationMigrated(dom, ranks, start, tables, ros, all);
    if AllGetHome(dom, start) {
      SettledAtHome(dom, owned);
      ContainOwn(dom.grid, ranks);
      ShownBonds(dom, ranks, owned, dir, FromRanks(dom.grid, Locals(ranks)), FromRanks(dom.grid, BondLists(ranks)),
                 GC.OwnersAfter(dom, ros, 6), all);
    }
  }

  lemma PopulationMigrated(dom: Domain, ranks: seq<Rank>, start: M.Population, tables: B.BondTables, ros: M.Roster, all: set<B.Bond>)
    requires dom.Valid() && Cluster(dom.grid, ranks) && GC.AllMigrated(ranks, dom, start, tables)
    requires Lists(dom.grid, start, ros) && Settled(dom.grid, start, tables, ros.rank, all)
    ensures Settled(dom.grid, FromRanks(dom.grid, Locals(ranks)), FromRanks(dom.grid, BondLists(ranks)), GC.OwnersAfter(dom, ros, 6), all)
    ensures SamePresence(dom.grid, start, FromRanks(dom.grid, Locals(ranks)))
    ensures forall c: Coord :: InGrid(dom.grid, c) ==> FromRanks(dom.grid, Locals(ranks))(c) == GC.LocalAfter(dom, start, 6)(c)
  {
    var next, nextTables := GC.LocalAfter(dom, start, 6), TablesAfter(dom, start, tables);
    var pop, lists := FromRanks(dom.grid, Locals(ranks)), FromRanks(dom.grid, BondLists(ranks));
    forall c: Coord | InGrid(dom.grid, c)
      ensures pop(c) == next(c) && lists(c) == nextTables(c)
    {
      RankOfCoord(dom.grid, c);
      assert ranks[Index(dom.grid, c)].coord == c;
    }
    MigrationSettles(dom, start, tables, ros, all);
    StaysSettled(dom.grid, next, pop, nextTables, lists, GC.OwnersAfter(dom, ros, 6), all);
    SamePresenceTwice(dom.grid, start, next, pop);
  }

  lemma SamePresenceTwice(g: Grid, a: M.Population, b: M.Population, c: M.Population)
    requires SamePresence(g, a, b) && SamePresence(g, b, c)
    ensures SamePresence(g, a, c)
  {
    forall t: nat
      ensures Present(g, c, t) <==> Present(g, a, t)
    {
      assert Present(g, b, t) <==> Present(g, a, t);
    }
  }

  lemma UpdatedIsShown(exchanged: Domain, dom: Domain, ranks: seq<Rank>, owned: G.Owned, dir: G.Directory, pos: Coord -> seq<V3<real>>)
    requires exchanged.Valid() && dom.Valid() && exchanged.grid == dom.grid && Cluster(dom.grid, ranks)
    requires G.Registered(dom.grid, owned, dir) && forall r :: 0 <= r < |ranks| ==> GC.Remembering(ranks[r], exchanged, owned)
    requires forall r :: 0 <= r < |ranks| ==>
               ranks[r].pos == U.Positions(G.Held(dom, GC.AllMoved(owned, pos), 6, ranks[r].coord))
    requires forall r :: 0 <= r < |ranks| ==> |pos(ranks[r].coord)| == |ranks[r].tag|
    ensures AllMirror(ranks, dom.L)
    ensures forall r :: 0 <= r < |ranks| ==> AtPositions(ranks[r], pos(ranks[r].coord))
  {
    MovedRegistered(dom.grid, owned, dir, pos);
    forall r | 0 <= r < |ranks|
      ensures Shows(ranks[r], dom, GC.AllMoved(owned, pos)) && AtPositions(ranks[r], pos(ranks[r].coord))
    {
      UpdatedShows(ranks[r], exchanged, dom, owned, pos);
      LocalsStay(ranks[r], dom, owned, pos);
    }
    ShownMirrors(dom, ranks, GC.AllMoved(owned, pos), dir);
  }

  ghost predicate AllIdentify(ranks: seq<Rank>, locals: seq<seq<M.Particle>>)
    reads ranks`n, ranks`tag, ranks`image, ranks`attr
  {
    |locals| == |ranks| && forall r :: 0 <= r < |ranks| ==> Identifies(ranks[r], locals[r])
  }

  ghost predicate PositionsOf(locals: seq<seq<M.Particle>>, pos: seq<seq<V3<real>>>) {
    && |pos| == |locals|
    && forall r :: 0 <= r < |locals| ==> |locals[r]| <= |pos[r]| && forall i :: 0 <= i < |locals[r]| ==> pos[r][i] == locals[r][i].pos
  }

  /** The local particles as values. */
  lemma Recorded(ranks: seq<Rank>)
    requires forall r :: 0 <= r < |ranks| ==> ranks[r].Shape()
    ensures AllIdentify(ranks, Locals(ranks)) && PositionsOf(Locals(ranks), GC.PositionArrays(ranks))
  {
    forall r | 0 <= r < |ranks|
      ensures Identifies(ranks[r], Locals(ranks)[r])
      ensures |Locals(ranks)[r]| <= |GC.PositionArrays(ranks)[r]|
      ensures forall i :: 0 <= i < |Locals(ranks)[r]| ==> GC.PositionArrays(ranks)[r][i] == Locals(ranks)[r][i].pos
    {
      assert Locals(ranks)[r] == ranks[r].Particles() && GC.PositionArrays(ranks)[r] == ranks[r].pos;
    }
  }

  lemma Restored(g: Grid, ranks: seq<Rank>, locals: seq<seq<M.Particle>>, arrays: seq<seq<V3<real>>>)
    requires Cluster(g, ranks) && AllIdentify(ranks, locals) && PositionsOf(locals, arrays)
    requires forall r :: 0 <= r < |ranks| ==> AtPositions(ranks[r], FromRanks(g, arrays)(ranks[r].coord))
    ensures (forall r :: 0 <= r < |ranks| ==> ranks[r].Shape()) && Locals(ranks) == locals
  {
    forall r | 0 <= r < |ranks|
      ensures ranks[r].Shape() && ranks[r].Particles() == locals[r]
    {
      RankValue(g, arrays, r);
      assert Identifies(ranks[r], locals[r]) && AtPositions(ranks[r], arrays[r]);
      SameParticles(ranks[r], locals[r], arrays[r]);
    }
  }

  // ------------------------------------------------------------ runs

  /** The flags that the communicators of all ranks agree on. */
  datatype Schedule = Schedule(forceMigrate: bool, isFirstStep: bool)

  /** The last exchange, and the present owner of each particle. */
  datatype Past = Past(exchanged: Domain, owned: G.Owned, dir: G.Directory, owner: nat -> Coord)

  ghost function Population(g: Grid, ranks: seq<Rank>): M.Population
    requires forall r :: 0 <= r < |ranks| ==> ranks[r].Shape()
    reads ranks
  {
    FromRanks(g, Locals(ranks))
  }

  ghost function Tables(g: Grid, ranks: seq<Rank>): B.BondTables
    reads ranks
  {
    FromRanks(g, BondLists(ranks))
  }

  /** The ranks remember an exchange on this grid. */
  ghost predicate HasExchanged(g: Grid, ranks: seq<Rank>, past: Past)
    reads ranks
  {
    && past.exchanged.Valid() && past.exchanged.GhostWidthAccepted() && past.exchanged.grid == g
    && G.Registered(g, past.owned, past.dir)
    && forall r :: 0 <= r < |ranks| ==> GC.Remembering(ranks[r], past.exchanged, past.owned)
  }

  ghost predicate Shaped(ranks: seq<Rank>)
    reads ranks
  {
    forall r :: 0 <= r < |ranks| ==> ranks[r].Shape() && ranks[r].RtagOk()
  }

  // ------------------------------------------------------------ still nothing is missing

  /** What the box length of an axis has been multiplied by since the exchange. */
  ghost function Stretch(exchanged: Domain, dom: Domain, a: Axis): real
    requires exchanged.Valid()
  {
    dom.L.At(a) / exchanged.L.At(a)
  }

  /** The coordinate is at most `slack` away from where the stretching alone would have taken it. */
  predicate MovedWithin(before: real, q: real, now: real, slack: real) {
    -slack <= now - before * q <= slack
  }

  /** That holds on every decomposed axis. */
  ghost predicate HardlyMoved(exchanged: Domain, dom: Domain, before: V3<real>, now: V3<real>, slack: real)
    requires exchanged.Valid()
  {
    forall a: Axis :: dom.grid.At(a) >= 2 ==> MovedWithin(before.At(a), Stretch(exchanged, dom, a), now.At(a), slack)
  }

  /** No local particle of the rank has moved further than that since the exchange. */
  ghost predicate RankHardlyMoved(rank: Rank, dom: Domain, past: Past, slack: real)
    requires past.exchanged.Valid()
    reads rank
  {
    forall i :: 0 <= i < rank.n && i < |rank.pos| && i < |past.owned(rank.coord)| ==>
      HardlyMoved(past.exchanged, dom, past.owned(rank.coord)[i].pos, rank.pos[i], slack)
  }

  /** The ghost layer, stretched, is as wide as the reach and two displacements. */
  ghost predicate LayerSuffices(exchanged: Domain, dom: Domain, reach: real, slack: real)
    requires exchanged.Valid()
  {
    forall a: Axis :: dom.grid.At(a) >= 2 ==> reach + 2.0 * slack <= exchanged.rGhost * Stretch(exchanged, dom, a)
  }

  /** While particles have moved by no more than half of what the ghost layer is wider than `reach`, every rank knows all
      particles within `reach` of its own. */
  ghost predicate StillComplete(dom: Domain, ranks: seq<Rank>, past: Past)
    requires past.exchanged.Valid()
    reads ranks
  {
    forall reach: real, slack: real ::
      LayerSuffices(past.exchanged, dom, reach, slack)
      && (forall r :: 0 <= r < |ranks| ==> RankHardlyMoved(ranks[r], dom, past, slack))
      ==> NothingMissing(dom.(rGhost := reach), ranks)
  }

  lemma ScaledBound(d: real, e: real, m: real, rg: real, q: real)
    requires q > 0.0 && d * q == e && -m <= e <= m <= rg * q
    ensures -rg <= d <= rg
  {
    assert -rg * q == -(rg * q);
    if d > rg {
      RealMulStrict(rg, d, q);
    } else if d < -rg {
      RealMulStrict(d, -rg, q);
    }
  }

  lemma ScaledImage(L: real, L': real, q: real, x: real, y: real, k: int)
    requires L * q == L'
    ensures (Image(L, x, k) - y) * q == Image(L', x * q, k) - y * q
  {
    assert k as real * L * q == k as real * (L * q);
  }

  lemma DriftedImage(L: real, reach: real, slack: real, p: real, x: real, r: real, y: real, k: int)
    requires Geo.ImageWithin(reach, L, x, k, y) && -slack <= x - p <= slack && -slack <= y - r <= slack
    ensures Geo.ImageWithin(reach + 2.0 * slack, L, p, k, r)
  {
    assert Image(L, x, k) - Image(L, p, k) == x - p;
  }

  lemma WasWithin(L: real, L': real, q: real, rg: real, reach: real, slack: real, x: real, x': real, y: real, y': real, k: int)
    requires q > 0.0 && L * q == L' && Geo.ImageWithin(reach, L', x', k, y') && reach + 2.0 * slack <= rg * q
    requires MovedWithin(x, q, x', slack) && MovedWithin(y, q, y', slack)
    ensures Geo.ImageWithin(rg, L, x, k, y)
  {
    ScaledImage(L, L', q, x, y, k);
    var p, r := x * q, y * q;
    assert -slack <= x' - p <= slack && -slack <= y' - r <= slack;
    DriftedImage(L', reach, slack, p, x', r, y', k);
    ScaledBound(Image(L, x, k) - y, Image(L', p, k) - r, reach + 2.0 * slack, rg, q);
  }

  lemma WasCloseOn(exchanged: Domain, dom: Domain, reach: real, slack: real, a: Axis, x: real, x': real, y: real, y': real, k: int)
    requires exchanged.Valid() && dom.Valid() && dom.grid.At(a) >= 2 && LayerSuffices(exchanged, dom, reach, slack)
    requires MovedWithin(x, Stretch(exchanged, dom, a), x', slack) && MovedWithin(y, Stretch(exchanged, dom, a), y', slack)
    requires Geo.ImageWithin(reach, dom.L.At(a), x', k, y')
    ensures Geo.ImageWithin(exchanged.rGhost, exchanged.L.At(a), x, k, y)
  {
    var L, L', q := exchanged.L.At(a), dom.L.At(a), Stretch(exchanged, dom, a);
    PositiveQuotient(L', L);
    WasWithin(L, L', q, exchanged.rGhost, reach, slack, x, x', y, y', k);
  }

  lemma WasClose(exchanged: Domain, dom: Domain, reach: real, slack: real, x: V3<real>, x': V3<real>, y: V3<real>, y': V3<real>)
    requires exchanged.Valid() && dom.Valid() && exchanged.grid == dom.grid && LayerSuffices(exchanged, dom, reach, slack)
    requires HardlyMoved(exchanged, dom, x, x', slack) && HardlyMoved(exchanged, dom, y, y', slack)
    requires Geo.Close(dom.(rGhost := reach), x', y')
    ensures Geo.Close(exchanged, x, y)
  {
    forall a: Axis | dom.grid.At(a) >= 2
      ensures exists k: int :: Geo.ImageWithin(exchanged.rGhost, exchanged.L.At(a), x.At(a), k, y.At(a))
    {
      var k: int :| Geo.ImageWithin(reach, dom.L.At(a), x'.At(a), k, y'.At(a));
      WasCloseOn(exchanged, dom, reach, slack, a, x.At(a), x'.At(a), y.At(a), y'.At(a), k);
    }
  }

  lemma LocalRemembered(rank: Rank, past: Past, i: nat)
    requires past.exchanged.Valid() && GC.Remembering(rank, past.exchanged, past.owned) && i < rank.n
    ensures i < |past.owned(rank.coord)| && rank.tag[i] == past.owned(rank.coord)[i].tag
  {
    var held := G.Held(past.exchanged, past.owned, 6, rank.coord);
    assert rank.Remembered().n == |past.owned(rank.coord)|;
    U.HeldPrefix(past.exchanged, past.owned, 0, 6, rank.coord);
    assert past.owned(rank.coord)[i] == held[i] && G.Tags(held)[i] == held[i].tag;
  }

  /** Between migrations, too, nothing close is missing as long as the particles have hardly moved, whatever the box does. */
  lemma NothingMissingYet(dom: Domain, ranks: seq<Rank>, past: Past)
    requires dom.Valid() && Cluster(dom.grid, ranks) && HasExchanged(dom.grid, ranks, past)
    requires Geo.Settled(past.exchanged, past.owned)
    ensures StillComplete(dom, ranks, past)
  {
    forall reach: real, slack: real | LayerSuffices(past.exchanged, dom, reach, slack)
                                      && forall r :: 0 <= r < |ranks| ==> RankHardlyMoved(ranks[r], dom, past, slack)
      ensures NothingMissing(dom.(rGhost := reach), ranks)
    {
      forall r, q, i, j | 0 <= r < |ranks| && 0 <= q < |ranks| && ranks[r].Shape() && ranks[q].Shape()
                          && 0 <= i < ranks[r].n && 0 <= j < ranks[q].n
                          && Geo.Close(dom.(rGhost := reach), ranks[q].pos[j], ranks[r].pos[i])
        ensures ranks[q].tag[j] in ranks[r].tag
      {
        KnownStill(dom, ranks[r], ranks[q], past, i, j, reach, slack);
      }
    }
  }

  lemma KnownStill(dom: Domain, rank: Rank, other: Rank, past: Past, i: nat, j: nat, reach: real, slack: real)
    requires dom.Valid() && past.exchanged.Valid() && past.exchanged.GhostWidthAccepted() && past.exchanged.grid == dom.grid
    requires G.Registered(dom.grid, past.owned, past.dir) && Geo.Settled(past.exchanged, past.owned)
    requires GC.Remembering(rank, past.exchanged, past.owned) && GC.Remembering(other, past.exchanged, past.owned)
    requires InGrid(dom.grid, rank.coord) && InGrid(dom.grid, other.coord) && i < rank.n && j < other.n
    requires LayerSuffices(past.exchanged, dom, reach, slack)
    requires RankHardlyMoved(rank, dom, past, slack) && RankHardlyMoved(other, dom, past, slack)
    requires Geo.Close(dom.(rGhost := reach), other.pos[j], rank.pos[i])
    ensures other.tag[j] in rank.tag
  {
    LocalRemembered(rank, past, i);
    LocalRemembered(other, past, j);
    var x, y := past.owned(other.coord)[j].pos, past.owned(rank.coord)[i].pos;
    assert HardlyMoved(past.exchanged, dom, x, other.pos[j], slack) && HardlyMoved(past.exchanged, dom, y, rank.pos[i], slack);
    WasClose(past.exchanged, dom, reach, slack, x, other.pos[j], y, rank.pos[i]);
    Geo.GhostCompleteness(past.exchanged, past.owned, past.dir, rank.coord, i, other.coord, j);
  }

  // ------------------------------------------------------------ calls

  /** Every particle has one owner, every bond is where a member is, and after the first step there are lists to update
      ghosts with. */
  ghost predicate Ready(dom: Domain, ranks: seq<Rank>, s: Schedule, past: Past, all: set<B.Bond>)
    reads ranks
  {
    && dom.Valid() && Cluster(dom.grid, ranks) && Shaped(ranks)
    && Settled(dom.grid, Population(dom.grid, ranks), Tables(dom.grid, ranks), past.owner, all)
    && (!s.isFirstStep ==> HasExchanged(dom.grid, ranks, past))
  }

  /** Particles migrate if that was forced, if anybody asks for it, or in the first step. */
  ghost predicate Migrates(s: Schedule, requests: seq<bool>) {
    s.forceMigrate || s.isFirstStep || true in requests
  }

  /** The decision of one call. */
  method MustMigrate(s: Schedule, requests: seq<bool>) returns (r: bool)
    ensures r <==> s.forceMigrate || s.isFirstStep || true in requests
  {
    r := s.forceMigrate;
    if !r {
      r := LogicalOr(requests);
    }
    r := r || s.isFirstStep;
  }

  /** One call of the communicators. Whatever it does, afterwards every slot of every rank - local or ghost - holds an
      image of the present position of one particle, which has one owner; no particle or bond is lost or made up. If
      all particles got home when they migrated last, every rank knows all particles close to its own. */
  method Communicate(dom: Domain, ranks: seq<Rank>, s: Schedule, requests: seq<bool>, ghost past: Past, ghost all: set<B.Bond>)
    returns (migrated: bool, s': Schedule, ghost past': Past)
    requires Ready(dom, ranks, s, past, all) && (Migrates(s, requests) ==> dom.GhostWidthAccepted())
    modifies ranks
    ensures Ready(dom, ranks, s', past', all) && s' == Schedule(false, false)
    ensures migrated <==> s.forceMigrate || s.isFirstStep || true in requests
    ensures AllMirror(ranks, dom.L)
    ensures SamePresence(dom.grid, old(Population(dom.grid, ranks)), Population(dom.grid, ranks))
    ensures migrated ==> GC.AllMigrated(ranks, dom, old(Population(dom.grid, ranks)), old(Tables(dom.grid, ranks)))
    ensures migrated && AllGetHome(dom, old(Population(dom.grid, ranks))) ==> NothingMissing(dom, ranks) && BondsComplete(dom, ranks)
    ensures migrated ==> past'.exchanged == dom && GC.AreMigrated(dom.grid, past'.owned, Population(dom.grid, ranks))
    ensures !migrated ==> past' == past && Population(dom.grid, ranks) == old(Population(dom.grid, ranks))
    ensures migrated && AllGetHome(dom, old(Population(dom.grid, ranks))) ==> Geo.Settled(past'.exchanged, past'.owned)
    ensures Geo.Settled(past'.exchanged, past'.owned) ==> StillComplete(dom, ranks, past')
  {
    migrated := MustMigrate(s, requests);
    if migrated {
      past' := MigrateStep(dom, ranks, s, past, all);
    } else {
      past' := past;
      UpdateStep(dom, ranks, s, past, all);
    }
    s' := Schedule(false, false);
    if Geo.Settled(past'.exchanged, past'.owned) {
      NothingMissingYet(dom, ranks, past');
    }
  }

  method MigrateStep(dom: Domain, ranks: seq<Rank>, s: Schedule, ghost past: Past, ghost all: set<B.Bond>) returns (ghost past': Past)
    requires Ready(dom, ranks, s, past, all) && dom.GhostWidthAccepted()
    modifies ranks
    ensures Ready(dom, ranks, Schedule(false, false), past', all) && AllMirror(ranks, dom.L)
    ensures past'.exchanged == dom && GC.AreMigrated(dom.grid, past'.owned, Population(dom.grid, ranks))
    ensures SamePresence(dom.grid, old(Population(dom.grid, ranks)), Population(dom.grid, ranks))
    ensures GC.AllMigrated(ranks, dom, old(Population(dom.grid, ranks)), old(Tables(dom.grid, ranks)))
    ensures AllGetHome(dom, old(Population(dom.grid, ranks))) ==> NothingMissing(dom, ranks) && Geo.Settled(dom, past'.owned)
    ensures AllGetHome(dom, old(Population(dom.grid, ranks))) ==> BondsComplete(dom, ranks)
  {
    ghost var start, tables := Population(dom.grid, ranks), Tables(dom.grid, ranks);
    ghost var ros := RosterExists(dom.grid, start, past.owner);
    ghost var owned, dir := GC.MigrateAndExchange(dom, ranks, ros);
    MigratedIsShown(dom, ranks, start, tables, ros, owned, dir, all);
    past' := Past(dom, owned, dir, GC.OwnersAfter(dom, ros, 6));
  }

  method UpdateStep(dom: Domain, ranks: seq<Rank>, s: Schedule, ghost past: Past, ghost all: set<B.Bond>)
    requires Ready(dom, ranks, s, past, all) && !s.isFirstStep
    modifies ranks`pos
    ensures Ready(dom, ranks, s, past, all) && AllMirror(ranks, dom.L)
    ensures Population(dom.grid, ranks) == old(Population(dom.grid, ranks))
  {
    ghost var locals, arrays, lists := Locals(ranks), GC.PositionArrays(ranks), BondLists(ranks);
    Recorded(ranks);
    UpdatePositions(dom, ranks, past);
    Restored(dom.grid, ranks, locals, arrays);
    assert BondLists(ranks) == lists;
  }

  method UpdatePositions(dom: Domain, ranks: seq<Rank>, ghost past: Past)
    requires dom.Valid() && Cluster(dom.grid, ranks) && HasExchanged(dom.grid, ranks, past)
    modifies ranks`pos
    ensures HasExchanged(dom.grid, ranks, past) && AllMirror(ranks, dom.L) && Shaped(ranks)
    ensures forall r :: 0 <= r < |ranks| ==> AtPositions(ranks[r], old(FromRanks(dom.grid, GC.PositionArrays(ranks)))(ranks[r].coord))
  {
    ghost var arrays := GC.PositionArrays(ranks);
    ghost var pos := FromRanks(dom.grid, arrays);
    forall r | 0 <= r < |ranks|
      ensures |pos(ranks[r].coord)| == |ranks[r].tag|
    {
      RankValue(dom.grid, arrays, r);
      assert GC.Remembering(ranks[r], past.exchanged, past.owned);
    }
    GC.UpdateGhosts(past.exchanged, dom, ranks, past.owned);
    UpdatedIsShown(past.exchanged, dom, ranks, past.owned, past.dir, pos);
    assert forall r :: 0 <= r < |ranks| ==> GC.Remembering(ranks[r], past.exchanged, past.owned);
  }

  // ------------------------------------------------------------ between two calls

  /** The integrator moves the local particles of a rank. */
  method Drift(rank: Rank, positions: seq<V3<real>>, images: seq<V3<int>>)
    requires rank.Shape() && rank.RtagOk() && |positions| == |images| == rank.n
    modifies rank`pos, rank`image
    ensures rank.Shape() && rank.RtagOk() && rank.Remembered() == old(rank.Remembered())
    ensures AtPositions(rank, positions) && rank.image == images && |rank.pos| == old(|rank.pos|)
  {
    rank.pos := positions + rank.pos[rank.n..];
    rank.image := images;
  }

  /** The parts of a rank that do not depend on where its particles are. */
  ghost predicate SameOtherwise(rank: Rank, tag: seq<nat>, l: U.Lists)
    reads rank
  {
    rank.Shape() && rank.RtagOk() && rank.tag == tag && rank.Remembered() == l
  }

  ghost function TagArrays(ranks: seq<Rank>): (r: seq<seq<nat>>)
    reads ranks
    ensures |r| == |ranks| && forall q :: 0 <= q < |ranks| ==> r[q] == ranks[q].tag
  {
    seq(|ranks|, q requires 0 <= q < |ranks| reads ranks => ranks[q].tag)
  }

  ghost predicate AllSameOtherwise(ranks: seq<Rank>, tags: seq<seq<nat>>, ls: seq<U.Lists>)
    reads ranks
  {
    |tags| == |ls| == |ranks| && forall q :: 0 <= q < |ranks| ==> SameOtherwise(ranks[q], tags[q], ls[q])
  }

  method DriftAll(ranks: seq<Rank>, positions: seq<seq<V3<real>>>, images: seq<seq<V3<int>>>)
    requires Shaped(ranks) && |positions| == |images| == |ranks|
    requires forall r, q :: 0 <= r < q < |ranks| ==> ranks[r] != ranks[q]
    requires forall r :: 0 <= r < |ranks| ==> |positions[r]| == |images[r]| == ranks[r].n
    modifies ranks`pos, ranks`image
    ensures AllSameOtherwise(ranks, old(TagArrays(ranks)), old(GC.Memories(ranks)))
    ensures forall r :: 0 <= r < |ranks| ==> AtPositions(ranks[r], positions[r]) && ranks[r].image == images[r]
  {
    ghost var tags, ls := TagArrays(ranks), GC.Memories(ranks);
    for r := 0 to |ranks|
      invariant forall q :: 0 <= q < |ranks| ==> SameOtherwise(ranks[q], tags[q], ls[q])
      invariant forall q :: 0 <= q < r ==> AtPositions(ranks[q], positions[q]) && ranks[q].image == images[q]
    {
      Drift(ranks[r], positions[r], images[r]);
    }
  }

  ghost predicate MemoryIs(past: Past, c: Coord, tag: seq<nat>, l: U.Lists)
    requires past.exchanged.Valid()
  {
    tag == G.Tags(G.Held(past.exchanged, past.owned, 6, c)) && U.LeftAt(past.exchanged, past.owned, l, c)
  }

  lemma StillExchanged(g: Grid, ranks: seq<Rank>, past: Past, tags: seq<seq<nat>>, ls: seq<U.Lists>)
    requires AllSameOtherwise(ranks, tags, ls)
    requires past.exchanged.Valid() && past.exchanged.GhostWidthAccepted() && past.exchanged.grid == g
    requires G.Registered(g, past.owned, past.dir)
    requires forall r :: 0 <= r < |ranks| ==> MemoryIs(past, ranks[r].coord, tags[r], ls[r])
    ensures HasExchanged(g, ranks, past)
  {
    forall r | 0 <= r < |ranks|
      ensures GC.Remembering(ranks[r], past.exchanged, past.owned)
    {
      assert SameOtherwise(ranks[r], tags[r], ls[r]) && MemoryIs(past, ranks[r].coord, tags[r], ls[r]);
    }
  }

  lemma TagsAsRecorded(g: Grid, ranks: seq<Rank>, pop: M.Population, tags: seq<seq<nat>>, ls: seq<U.Lists>)
    requires Cluster(g, ranks) && AllSameOtherwise(ranks, tags, ls)
    requires forall r :: 0 <= r < |ranks| ==> ls[r].n <= |tags[r]| && M.Tags(pop(ranks[r].coord)) == tags[r][..ls[r].n]
    ensures (forall r :: 0 <= r < |ranks| ==> ranks[r].Shape()) && SameTags(g, pop, Population(g, ranks))
  {
    assert forall r :: 0 <= r < |ranks| ==> SameOtherwise(ranks[r], tags[r], ls[r]);
    forall c: Coord | InGrid(g, c)
      ensures M.Tags(Population(g, ranks)(c)) == M.Tags(pop(c))
    {
      RankOfCoord(g, c);
      var r := Index(g, c);
      assert ranks[r].coord == c && SameOtherwise(ranks[r], tags[r], ls[r]) && ranks[r].Remembered().n == ranks[r].n;
      assert M.Tags(ranks[r].Particles()) == ranks[r].tag[..ranks[r].n];
    }
  }

  /** Time passes between two calls: local particles move, their images change, and the box may be rescaled. */
  method Move(dom: Domain, dom': Domain, ranks: seq<Rank>, positions: seq<seq<V3<real>>>, images: seq<seq<V3<int>>>,
              ghost s: Schedule, ghost past: Past, ghost all: set<B.Bond>)
    requires Ready(dom, ranks, s, past, all)
    requires dom'.Valid() && dom'.grid == dom.grid
    requires |positions| == |images| == |ranks| && forall r :: 0 <= r < |ranks| ==> |positions[r]| == |images[r]| == ranks[r].n
    modifies ranks`pos, ranks`image
    ensures Ready(dom', ranks, s, past, all)
    ensures SamePresence(dom.grid, old(Population(dom.grid, ranks)), Population(dom.grid, ranks))
    ensures forall r :: 0 <= r < |ranks| ==> AtPositions(ranks[r], positions[r]) && ranks[r].image == images[r]
  {
    ghost var tags, ls, pop, tables := TagArrays(ranks), GC.Memories(ranks), Population(dom.grid, ranks), Tables(dom.grid, ranks);
    ghost var lists := BondLists(ranks);
    Noted(dom, ranks, s, past, all);
    DriftAll(ranks, positions, images);
    TagsAsRecorded(dom.grid, ranks, pop, tags, ls);
    assert BondLists(ranks) == lists;
    StaysSettled(dom.grid, pop, Population(dom.grid, ranks), tables, tables, past.owner, all);
    if !s.isFirstStep {
      StillExchanged(dom.grid, ranks, past, tags, ls);
    }
    assert Shaped(ranks) by {
      assert forall r :: 0 <= r < |ranks| ==> SameOtherwise(ranks[r], tags[r], ls[r]);
    }
  }

  /** What is to be remembered of the ranks while particles move. */
  lemma Noted(dom: Domain, ranks: seq<Rank>, s: Schedule, past: Past, all: set<B.Bond>)
    requires Ready(dom, ranks, s, past, all)
    ensures var tags, ls, pop := TagArrays(ranks), GC.Memories(ranks), Population(dom.grid, ranks);
            && (forall r :: 0 <= r < |ranks| ==> ls[r].n <= |tags[r]| && M.Tags(pop(ranks[r].coord)) == tags[r][..ls[r].n])
            && (!s.isFirstStep ==> forall r :: 0 <= r < |ranks| ==> MemoryIs(past, ranks[r].coord, tags[r], ls[r]))
  {
    var tags, ls, pop := TagArrays(ranks), GC.Memories(ranks), Population(dom.grid, ranks);
    forall r | 0 <= r < |ranks|
      ensures ls[r].n <= |tags[r]| && M.Tags(pop(ranks[r].coord)) == tags[r][..ls[r].n]
      ensures !s.isFirstStep ==> MemoryIs(past, ranks[r].coord, tags[r], ls[r])
    {
      RankValue(dom.grid, Locals(ranks), r);
      assert ranks[r].Shape() && pop(ranks[r].coord) == ranks[r].Particles();
      assert !s.isFirstStep ==> GC.Remembering(ranks[r], past.exchanged, past.owned);
    }
  }

  /** At least one of the answers is yes. */
  method LogicalOr(answers: seq<bool>) returns (r: bool)
    ensures r <==> true in answers
  {
    if answers == [] {
      return false;
    }
    r := answers[0];
    for i := 1 to |answers|
      invariant r <==> true in answers[..i]
    {
      if answers[i] {
        r := true;
      }
    }
    assert answers[..|answers|] == answers;
  }
}
