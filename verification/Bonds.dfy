/** Bonds follow their particles: in each direction a bond is sent along with any
    member that leaves, and dropped once no member remains. */
module Bonds {
  import opened Vectors
  import opened Decomposition
  import opened Box
  import opened Sequences
  import opened Journey
  import opened Migration

  datatype Bond = Bond(a: nat, b: nat, kind: nat, tag: nat)

  type BondTables = Coord -> seq<Bond>

  function BondTag(b: Bond): nat { b.tag }

  /** A bond has a member among the particles `ps`. */
  function Touches(ps: seq<Particle>): Bond -> bool {
    (b: Bond) => b.a in Tags(ps) || b.b in Tags(ps)
  }

  function BondTags(bs: seq<Bond>): (ts: seq<nat>)
    ensures |ts| == |bs| && forall i :: 0 <= i < |bs| ==> ts[i] == bs[i].tag
  {
    seq(|bs|, i requires 0 <= i < |bs| => bs[i].tag)
  }

  function NotIn(bs: seq<Bond>): Bond -> bool {
    (b: Bond) => b.tag !in BondTags(bs)
  }

  /** Bonds that remain, followed by the received bonds that are not there already. */
  function Merged(remaining: seq<Bond>, received: seq<Bond>): seq<Bond> {
    remaining + Filter(received, NotIn(remaining))
  }

  /** The bond table of rank `c` after the first `d` directions. */
  function BondsAt(dom: Domain, start: Population, tables: BondTables, d: nat, c: Coord): seq<Bond>
    requires dom.Valid() && d <= 6
    decreases d
  {
    if d == 0 then tables(c)
    else
      var mine := BondsAt(dom, start, tables, d - 1, c);
      if Communicating(dom.grid, d - 1) then
        var from := Neighbor(dom.grid, c, Opposite(d - 1));
        var theirs := BondsAt(dom, start, tables, d - 1, from);
        Merged(Filter(mine, Touches(Kept(dom, c, Local(dom, start, d - 1, c), d - 1))),
               Filter(theirs, Touches(Leaving(dom, from, Local(dom, start, d - 1, from), d - 1))))
      else mine
  }

  /** The bonds of the whole system: tags identify them and all members exist. */
  ghost predicate BondedSystem(g: Grid, start: Population, ros: Roster, all: set<Bond>) {
    && (forall b, b' :: b in all && b' in all && b.tag == b'.tag ==> b == b')
    && (forall b :: b in all ==> Known(g, start, ros, b.a) && Known(g, start, ros, b.b))
  }

  ghost predicate OwnsMember(dom: Domain, ros: Roster, d: nat, c: Coord, b: Bond)
    requires dom.Valid() && d <= 6
  {
    OwnerAfter(dom, ros, d, b.a) == c || OwnerAfter(dom, ros, d, b.b) == c
  }

  /** Rank `c` stores exactly the bonds with a member that it owns, each once. */
  ghost predicate Resident(dom: Domain, ros: Roster, all: set<Bond>, d: nat, c: Coord, bs: seq<Bond>)
    requires dom.Valid() && d <= 6
  {
    && (forall b :: b in bs <==> b in all && OwnsMember(dom, ros, d, c, b))
    && DistinctKeys(bs, BondTag)
  }

  lemma TagsHas(ps: seq<Particle>, t: nat)
    ensures t in Tags(ps) <==> HasTag(ps, t)
  {
    if HasTag(ps, t) {
      var p :| p in ps && p.tag == t;
      var i :| 0 <= i < |ps| && ps[i] == p;
      assert Tags(ps)[i] == t;
    }
  }

  /** A member is among the kept (leaving) particles of a rank iff the rank owns it now and its
      journey leaves it there (takes it to the neighbour). */
  lemma MemberMoves(dom: Domain, start: Population, ros: Roster, d: Dir, c: Coord, t: nat)
    requires dom.Valid() && InGrid(dom.grid, c) && Communicating(dom.grid, d)
    requires Tracked(dom, start, ros, d, c) && Known(dom.grid, start, ros, t)
    ensures t in Tags(Kept(dom, c, Local(dom, start, d, c), d)) <==>
              OwnerAfter(dom, ros, d, t) == c && OwnerAfter(dom, ros, d + 1, t) == c
    ensures t in Tags(Leaving(dom, c, Local(dom, start, d, c), d)) <==>
              OwnerAfter(dom, ros, d, t) == c && OwnerAfter(dom, ros, d + 1, t) != c
    ensures OwnerAfter(dom, ros, d, t) == c ==> OwnerAfter(dom, ros, d + 1, t) in {c, Neighbor(dom.grid, c, d)}
  {
    var ps := Local(dom, start, d, c);
    Partition(dom, c, ps, d);
    TagsHas(Kept(dom, c, ps, d), t);
    TagsHas(Leaving(dom, c, ps, d), t);
    if OwnerAfter(dom, ros, d, t) == c {
      var p := Find(dom, start, ros, d, c, t);
      OneStep(dom, c, p, d);
    }
  }

  lemma CameFrom(dom: Domain, start: Population, ros: Roster, d: Dir, c: Coord, t: nat)
    requires dom.Valid() && InGrid(dom.grid, c) && Known(dom.grid, start, ros, t)
    requires OwnerAfter(dom, ros, d + 1, t) == c
    ensures OwnerAfter(dom, ros, d, t) in {c, Neighbor(dom.grid, c, Opposite(d))}
  {
    TravelKeepsUnwrapped(dom, ros.Start(t), d, 0);
    NeighborInverse(dom.grid, OwnerAfter(dom, ros, d, t), d);
  }

  /** A member of bond `b` that rank `c` owns both before and after direction `d`. */
  ghost predicate MemberStays(dom: Domain, ros: Roster, d: Dir, c: Coord, b: Bond)
    requires dom.Valid()
  {
    || (OwnerAfter(dom, ros, d, b.a) == c && OwnerAfter(dom, ros, d + 1, b.a) == c)
    || (OwnerAfter(dom, ros, d, b.b) == c && OwnerAfter(dom, ros, d + 1, b.b) == c)
  }

  ghost predicate MemberGoes(dom: Domain, ros: Roster, d: Dir, c: Coord, b: Bond)
    requires dom.Valid()
  {
    || (OwnerAfter(dom, ros, d, b.a) == c && OwnerAfter(dom, ros, d + 1, b.a) != c)
    || (OwnerAfter(dom, ros, d, b.b) == c && OwnerAfter(dom, ros, d + 1, b.b) != c)
  }

  lemma Selections(dom: Domain, start: Population, ros: Roster, all: set<Bond>, d: Dir, c: Coord, bs: seq<Bond>)
    requires dom.Valid() && InGrid(dom.grid, c) && Communicating(dom.grid, d)
    requires Tracked(dom, start, ros, d, c) && BondedSystem(dom.grid, start, ros, all) && Resident(dom, ros, all, d, c, bs)
    ensures var stay := Filter(bs, Touches(Kept(dom, c, Local(dom, start, d, c), d)));
            (forall b :: b in stay <==> b in all && MemberStays(dom, ros, d, c, b)) && DistinctKeys(stay, BondTag)
    ensures var go := Filter(bs, Touches(Leaving(dom, c, Local(dom, start, d, c), d)));
            (forall b :: b in go <==> b in all && MemberGoes(dom, ros, d, c, b)) && DistinctKeys(go, BondTag)
  {
    var stays := Touches(Kept(dom, c, Local(dom, start, d, c), d));
    var goes := Touches(Leaving(dom, c, Local(dom, start, d, c), d));
    FilterMembers(bs, stays);
    FilterMembers(bs, goes);
    FilterDistinct(bs, stays, BondTag);
    FilterDistinct(bs, goes, BondTag);
    forall b | b in all
      ensures stays(b) <==> MemberStays(dom, ros, d, c, b)
      ensures goes(b) <==> MemberGoes(dom, ros, d, c, b)
    {
      MemberMoves(dom, start, ros, d, c, b.a);
      MemberMoves(dom, start, ros, d, c, b.b);
    }
  }

  /** Merging two tables of bonds of one system yields their union, without duplicates. */
  lemma MergedIsUnion(all: set<Bond>, xs: seq<Bond>, ys: seq<Bond>)
    requires forall b, b' :: b in all && b' in all && b.tag == b'.tag ==> b == b'
    requires (forall b :: b in xs ==> b in all) && (forall b :: b in ys ==> b in all)
    requires DistinctKeys(xs, BondTag) && DistinctKeys(ys, BondTag)
    ensures forall b :: b in Merged(xs, ys) <==> b in xs || b in ys
    ensures DistinctKeys(Merged(xs, ys), BondTag)
  {
    FilterMembers(ys, NotIn(xs));
    FilterDistinct(ys, NotIn(xs), BondTag);
    var extra := Filter(ys, NotIn(xs));
    forall b | b in ys && b !in extra
      ensures b in xs
    {
      var i :| 0 <= i < |xs| && BondTags(xs)[i] == b.tag;
      assert xs[i] in xs;
    }
    forall i, j | 0 <= i < |xs| && 0 <= j < |extra|
      ensures xs[i].tag != extra[j].tag
    {
      assert extra[j] in extra && BondTags(xs)[i] == xs[i].tag;
    }
  }

  lemma StepResident(dom: Domain, start: Population, ros: Roster, all: set<Bond>, tables: BondTables, d: Dir, c: Coord)
    requires dom.Valid() && InGrid(dom.grid, c) && Communicating(dom.grid, d)
    requires BondedSystem(dom.grid, start, ros, all)
    requires Tracked(dom, start, ros, d, c) && Resident(dom, ros, all, d, c, BondsAt(dom, start, tables, d, c))
    requires var from := Neighbor(dom.grid, c, Opposite(d));
             Tracked(dom, start, ros, d, from) && Resident(dom, ros, all, d, from, BondsAt(dom, start, tables, d, from))
    ensures Resident(dom, ros, all, d + 1, c, BondsAt(dom, start, tables, d + 1, c))
  {
    var from := Neighbor(dom.grid, c, Opposite(d));
    Upstream(dom.grid, c, d);
    var mine, theirs := BondsAt(dom, start, tables, d, c), BondsAt(dom, start, tables, d, from);
    Selections(dom, start, ros, all, d, c, mine);
    Selections(dom, start, ros, all, d, from, theirs);
    var stay := Filter(mine, Touches(Kept(dom, c, Local(dom, start, d, c), d)));
    var come := Filter(theirs, Touches(Leaving(dom, from, Local(dom, start, d, from), d)));
    MergedIsUnion(all, stay, come);
    forall b | b in all
      ensures OwnsMember(dom, ros, d + 1, c, b) <==> MemberStays(dom, ros, d, c, b) || MemberGoes(dom, ros, d, from, b)
    {
      MemberArrives(dom, start, ros, d, c, b.a);
      MemberArrives(dom, start, ros, d, c, b.b);
    }
  }

  lemma MemberArrives(dom: Domain, start: Population, ros: Roster, d: Dir, c: Coord, t: nat)
    requires dom.Valid() && InGrid(dom.grid, c) && Communicating(dom.grid, d) && Known(dom.grid, start, ros, t)
    requires Tracked(dom, start, ros, d, Neighbor(dom.grid, c, Opposite(d)))
    ensures var from := Neighbor(dom.grid, c, Opposite(d));
            OwnerAfter(dom, ros, d + 1, t) == c <==>
              (OwnerAfter(dom, ros, d, t) == c && OwnerAfter(dom, ros, d + 1, t) == c)
              || (OwnerAfter(dom, ros, d, t) == from && OwnerAfter(dom, ros, d + 1, t) != from)
  {
    var from := Neighbor(dom.grid, c, Opposite(d));
    Upstream(dom.grid, c, d);
    NeighborInverse(dom.grid, c, Opposite(d));
    MemberMoves(dom, start, ros, d, from, t);
    if OwnerAfter(dom, ros, d + 1, t) == c {
      CameFrom(dom, start, ros, d, c, t);
    }
  }

  lemma IdleResident(dom: Domain, start: Population, ros: Roster, all: set<Bond>, tables: BondTables, d: Dir, c: Coord)
    requires dom.Valid() && !Communicating(dom.grid, d)
    requires Resident(dom, ros, all, d, c, BondsAt(dom, start, tables, d, c))
    ensures Resident(dom, ros, all, d + 1, c, BondsAt(dom, start, tables, d + 1, c))
  {
    forall t: nat
      ensures OwnerAfter(dom, ros, d + 1, t) == OwnerAfter(dom, ros, d, t)
    {
    }
  }

  lemma NextResident(dom: Domain, start: Population, ros: Roster, all: set<Bond>, tables: BondTables, d: Dir, c: Coord)
    requires dom.Valid() && InGrid(dom.grid, c) && Listed(dom.grid, start, ros) && BondedSystem(dom.grid, start, ros, all)
    requires Resident(dom, ros, all, d, c, BondsAt(dom, start, tables, d, c))
    requires var from := Neighbor(dom.grid, c, Opposite(d));
             InGrid(dom.grid, from) && Resident(dom, ros, all, d, from, BondsAt(dom, start, tables, d, from))
    ensures Resident(dom, ros, all, d + 1, c, BondsAt(dom, start, tables, d + 1, c))
  {
    if Communicating(dom.grid, d) {
      Tracking(dom, start, ros, d, c);
      Tracking(dom, start, ros, d, Neighbor(dom.grid, c, Opposite(d)));
      StepResident(dom, start, ros, all, tables, d, c);
    } else {
      IdleResident(dom, start, ros, all, tables, d, c);
    }
  }

  /** Bond residency: after every direction a bond is stored on a rank, once, if and only if
      that rank owns at least one of its two particles. */
  lemma {:induction false} BondResidency(dom: Domain, start: Population, ros: Roster, all: set<Bond>, tables: BondTables,
                                         d: nat, c: Coord)
    requires dom.Valid() && InGrid(dom.grid, c) && d <= 6
    requires Listed(dom.grid, start, ros) && BondedSystem(dom.grid, start, ros, all)
    requires forall c: Coord :: InGrid(dom.grid, c) ==> Resident(dom, ros, all, 0, c, tables(c))
    ensures Resident(dom, ros, all, d, c, BondsAt(dom, start, tables, d, c))
  {
    if d > 0 {
      var from := Neighbor(dom.grid, c, Opposite(d - 1));
      Upstream(dom.grid, c, d - 1);
      BondResidency(dom, start, ros, all, tables, d - 1, c);
      BondResidency(dom, start, ros, all, tables, d - 1, from);
      NextResident(dom, start, ros, all, tables, d - 1, c);
    }
  }
}
