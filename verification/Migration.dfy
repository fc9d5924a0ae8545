/** Migration of particles and bonds on the whole grid, in lock step. */
module Migration {
  import opened Vectors
  import opened Decomposition
  import opened Box
  import opened Sequences
  import opened Journey

  datatype Particle = Particle(tag: nat, pos: V3<real>, image: V3<int>, attr: Attr)

  type Population = Coord -> seq<Particle>

  function TagOf(p: Particle): nat { p.tag }

  ghost predicate DistinctTags(ps: seq<Particle>) {
    DistinctKeys(ps, TagOf)
  }

  function On(c: Coord, p: Particle): Traveller {
    Traveller(c, p.pos, p.image)
  }

  function Stays(dom: Domain, c: Coord, d: Dir): Particle -> bool
    requires dom.Valid()
  {
    (p: Particle) => !LeavesIn(dom, On(c, p), d)
  }

  function Goes(dom: Domain, c: Coord, d: Dir): Particle -> bool
    requires dom.Valid()
  {
    (p: Particle) => LeavesIn(dom, On(c, p), d)
  }

  /** Particles that stay, in their old order, and those that are sent. */
  function Kept(dom: Domain, c: Coord, ps: seq<Particle>, d: Dir): seq<Particle>
    requires dom.Valid()
  {
    Filter(ps, Stays(dom, c, d))
  }

  function Leaving(dom: Domain, c: Coord, ps: seq<Particle>, d: Dir): seq<Particle>
    requires dom.Valid()
  {
    Filter(ps, Goes(dom, c, d))
  }

  function Arrive(dom: Domain, c: Coord, p: Particle): Particle
    requires dom.Valid()
  {
    var t := LandOn(dom, c, p.pos, p.image);
    p.(pos := t.pos, image := t.image)
  }

  function ArriveAll(dom: Domain, c: Coord, ps: seq<Particle>): (r: seq<Particle>)
    requires dom.Valid()
    ensures |r| == |ps| && forall i :: 0 <= i < |ps| ==> r[i] == Arrive(dom, c, ps[i])
  {
    seq(|ps|, i requires 0 <= i < |ps| => Arrive(dom, c, ps[i]))
  }

  /** The local particles of rank `c` after the first `d` directions. */
  function Local(dom: Domain, start: Population, d: nat, c: Coord): seq<Particle>
    requires dom.Valid() && d <= 6
    decreases d
  {
    if d == 0 then start(c)
    else
      var mine := Local(dom, start, d - 1, c);
      if Communicating(dom.grid, d - 1) then
        var from := Neighbor(dom.grid, c, Opposite(d - 1));
        Kept(dom, c, mine, d - 1) + ArriveAll(dom, c, Leaving(dom, from, Local(dom, start, d - 1, from), d - 1))
      else mine
  }

  // ------------------------------------------------------------ every particle has one owner

  /** The roster of the system before migration: where each tag is, and its particle. */
  datatype Roster = Roster(rank: nat -> Coord, particle: nat -> Particle) {
    function Start(t: nat): Traveller {
      On(rank(t), particle(t))
    }
  }

  ghost predicate Listed(g: Grid, start: Population, ros: Roster) {
    && (forall c: Coord, p: Particle :: InGrid(g, c) && p in start(c) ==> ros.rank(p.tag) == c && ros.particle(p.tag) == p)
    && (forall c: Coord :: InGrid(g, c) ==> DistinctTags(start(c)))
  }

  ghost predicate Known(g: Grid, start: Population, ros: Roster, t: nat) {
    && InGrid(g, ros.rank(t))
    && ros.particle(t) in start(ros.rank(t))
    && ros.particle(t).tag == t
  }

  /** The rank that owns tag `t` after `d` directions: where its journey has led so far. */
  function OwnerAfter(dom: Domain, ros: Roster, d: nat, t: nat): Coord
    requires dom.Valid() && d <= 6
  {
    Travel(dom, ros.Start(t), d).c
  }

  /** `p` is the particle of its tag, moved along by the journey, with all else unchanged. */
  ghost predicate Moved(dom: Domain, start: Population, ros: Roster, d: nat, c: Coord, p: Particle)
    requires dom.Valid() && d <= 6
  {
    && Known(dom.grid, start, ros, p.tag)
    && On(c, p) == Travel(dom, ros.Start(p.tag), d)
    && p.attr == ros.particle(p.tag).attr
  }

  ghost predicate HasTag(ps: seq<Particle>, t: nat) {
    exists p :: p in ps && p.tag == t
  }

  ghost predicate AllMoved(dom: Domain, start: Population, ros: Roster, d: nat, c: Coord, ps: seq<Particle>)
    requires dom.Valid() && d <= 6
  {
    forall p :: p in ps ==> Moved(dom, start, ros, d, c, p)
  }

  /** The journey of tag `t` has led to rank `c`. */
  ghost predicate ComesTo(dom: Domain, start: Population, ros: Roster, d: nat, c: Coord, t: nat)
    requires dom.Valid() && d <= 6
  {
    Known(dom.grid, start, ros, t) && OwnerAfter(dom, ros, d, t) == c
  }

  ghost predicate Tracked(dom: Domain, start: Population, ros: Roster, d: nat, c: Coord)
    requires dom.Valid() && d <= 6
  {
    var ps := Local(dom, start, d, c);
    && AllMoved(dom, start, ros, d, c, ps)
    && (forall t: nat :: ComesTo(dom, start, ros, d, c, t) ==> HasTag(ps, t))
    && DistinctTags(ps)
  }

  lemma Partition(dom: Domain, c: Coord, ps: seq<Particle>, d: Dir)
    requires dom.Valid()
    ensures forall p :: p in Kept(dom, c, ps, d) <==> p in ps && !LeavesIn(dom, On(c, p), d)
    ensures forall p :: p in Leaving(dom, c, ps, d) <==> p in ps && LeavesIn(dom, On(c, p), d)
  {
    FilterMembers(ps, Stays(dom, c, d));
    FilterMembers(ps, Goes(dom, c, d));
  }

  lemma PartitionDistinct(dom: Domain, c: Coord, ps: seq<Particle>, d: Dir)
    requires dom.Valid() && DistinctTags(ps)
    ensures DistinctTags(Kept(dom, c, ps, d))
    ensures DistinctTags(Leaving(dom, c, ps, d))
  {
    FilterDistinct(ps, Stays(dom, c, d), TagOf);
    FilterDistinct(ps, Goes(dom, c, d), TagOf);
  }

  /** Sorting the particles into those that stay and those that go loses and duplicates none. */
  lemma PartitionPermutes(dom: Domain, c: Coord, ps: seq<Particle>, d: Dir)
    requires dom.Valid() && DistinctTags(ps)
    ensures var qs := Kept(dom, c, ps, d) + Leaving(dom, c, ps, d);
            DistinctTags(qs) && forall p :: p in qs <==> p in ps
  {
    Partition(dom, c, ps, d);
    PartitionDistinct(dom, c, ps, d);
    var kept, sent := Kept(dom, c, ps, d), Leaving(dom, c, ps, d);
    forall i, j | 0 <= i < |kept| && 0 <= j < |sent|
      ensures kept[i].tag != sent[j].tag
    {
      assert kept[i] in kept && sent[j] in sent;
      var k :| 0 <= k < |ps| && ps[k] == kept[i];
      var l :| 0 <= l < |ps| && ps[l] == sent[j];
      assert TagOf(ps[k]) == kept[i].tag && TagOf(ps[l]) == sent[j].tag;
    }
  }

  /** Handing a particle on is one step of its journey. */
  lemma OneStep(dom: Domain, c: Coord, p: Particle, d: Dir)
    requires dom.Valid() && InGrid(dom.grid, c)
    ensures var t := Advance(dom, On(c, p), d);
            if LeavesIn(dom, On(c, p), d) then
              t == On(Neighbor(dom.grid, c, d), Arrive(dom, Neighbor(dom.grid, c, d), p)) && t.c != c
            else t == On(c, p)
  {
    NeighborInverse(dom.grid, c, d);
  }

  /** The particle of a tag on the rank to which its journey has led. */
  lemma Find(dom: Domain, start: Population, ros: Roster, d: nat, c: Coord, t: nat) returns (p: Particle)
    requires dom.Valid() && d <= 6 && Tracked(dom, start, ros, d, c) && ComesTo(dom, start, ros, d, c, t)
    ensures p in Local(dom, start, d, c) && p.tag == t && On(c, p) == Travel(dom, ros.Start(t), d)
  {
    assert HasTag(Local(dom, start, d, c), t);
    p :| p in Local(dom, start, d, c) && p.tag == t;
    assert Moved(dom, start, ros, d, c, p);
  }

  lemma KeptHas(dom: Domain, c: Coord, ps: seq<Particle>, d: Dir, p: Particle)
    requires dom.Valid() && p in ps && !LeavesIn(dom, On(c, p), d)
    ensures HasTag(Kept(dom, c, ps, d), p.tag)
  {
    Partition(dom, c, ps, d);
  }

  lemma ArrivedHas(dom: Domain, c: Coord, from: Coord, ps: seq<Particle>, d: Dir, p: Particle)
    requires dom.Valid() && p in ps && LeavesIn(dom, On(from, p), d)
    ensures HasTag(ArriveAll(dom, c, Leaving(dom, from, ps, d)), p.tag)
  {
    Partition(dom, from, ps, d);
    var sent := Leaving(dom, from, ps, d);
    var i :| 0 <= i < |sent| && sent[i] == p;
    assert ArriveAll(dom, c, sent)[i] == Arrive(dom, c, p);
  }

  lemma JoinedHas(ps: seq<Particle>, qs: seq<Particle>, t: nat)
    requires HasTag(ps, t) || HasTag(qs, t)
    ensures HasTag(ps + qs, t)
  {
    var p :| (p in ps || p in qs) && p.tag == t;
    assert p in ps + qs;
  }

  /** A known particle whose journey has led to `c` is found there. */
  lemma FoundAgain(dom: Domain, start: Population, ros: Roster, d: Dir, c: Coord, t: nat)
    requires dom.Valid() && InGrid(dom.grid, c) && Communicating(dom.grid, d)
    requires Tracked(dom, start, ros, d, c)
    requires Tracked(dom, start, ros, d, Neighbor(dom.grid, c, Opposite(d)))
    requires ComesTo(dom, start, ros, d + 1, c, t)
    ensures var from := Neighbor(dom.grid, c, Opposite(d));
            HasTag(Kept(dom, c, Local(dom, start, d, c), d) + ArriveAll(dom, c, Leaving(dom, from, Local(dom, start, d, from), d)), t)
  {
    var from := Neighbor(dom.grid, c, Opposite(d));
    var mine, theirs := Local(dom, start, d, c), Local(dom, start, d, from);
    var u := Travel(dom, ros.Start(t), d);
    TravelKeepsUnwrapped(dom, ros.Start(t), d, 0);
    NeighborInverse(dom.grid, u.c, d);
    if LeavesIn(dom, u, d) {
      var p := Find(dom, start, ros, d, from, t);
      ArrivedHas(dom, c, from, theirs, d, p);
    } else {
      var p := Find(dom, start, ros, d, c, t);
      KeptHas(dom, c, mine, d, p);
    }
    JoinedHas(Kept(dom, c, mine, d), ArriveAll(dom, c, Leaving(dom, from, theirs, d)), t);
  }

  predicate NoCommonTag(ps: seq<Particle>, qs: seq<Particle>) {
    forall i, j :: 0 <= i < |ps| && 0 <= j < |qs| ==> ps[i].tag != qs[j].tag
  }

  /** No particle arrives on a rank that has kept a particle of the same tag. */
  lemma NoClash(dom: Domain, start: Population, ros: Roster, d: Dir, c: Coord)
    requires dom.Valid() && InGrid(dom.grid, c) && Communicating(dom.grid, d)
    requires Tracked(dom, start, ros, d, c)
    requires Tracked(dom, start, ros, d, Neighbor(dom.grid, c, Opposite(d)))
    ensures var from := Neighbor(dom.grid, c, Opposite(d));
            var kept := Kept(dom, c, Local(dom, start, d, c), d);
            var message := Leaving(dom, from, Local(dom, start, d, from), d);
            DistinctTags(message) && NoCommonTag(kept, message)
  {
    var from := Neighbor(dom.grid, c, Opposite(d));
    var mine, theirs := Local(dom, start, d, c), Local(dom, start, d, from);
    var kept, message := Kept(dom, c, mine, d), Leaving(dom, from, theirs, d);
    Upstream(dom.grid, c, d);
    Partition(dom, c, mine, d);
    Partition(dom, from, theirs, d);
    PartitionDistinct(dom, from, theirs, d);
    forall i, j | 0 <= i < |kept| && 0 <= j < |message|
      ensures kept[i].tag != message[j].tag
    {
      assert kept[i] in kept && message[j] in message;
      OneStep(dom, c, kept[i], d);
      OneStep(dom, from, message[j], d);
    }
  }

  lemma StepTracks(dom: Domain, start: Population, ros: Roster, d: Dir, c: Coord)
    requires dom.Valid() && InGrid(dom.grid, c) && Communicating(dom.grid, d) && Listed(dom.grid, start, ros)
    requires Tracked(dom, start, ros, d, c)
    requires Tracked(dom, start, ros, d, Neighbor(dom.grid, c, Opposite(d)))
    ensures Tracked(dom, start, ros, d + 1, c)
  {
    var from := Neighbor(dom.grid, c, Opposite(d));
    NextLocal(dom, start, d, c);
    KeptMoved(dom, start, ros, d, c);
    ArrivedMoved(dom, start, ros, d, c);
    AllFoundAgain(dom, start, ros, d, c);
    NextDistinct(dom, start, ros, d, c);
    JoinedTracked(dom, start, ros, d + 1, c, Kept(dom, c, Local(dom, start, d, c), d),
                  ArriveAll(dom, c, Leaving(dom, from, Local(dom, start, d, from), d)));
  }

  lemma NextDistinct(dom: Domain, start: Population, ros: Roster, d: Dir, c: Coord)
    requires dom.Valid() && InGrid(dom.grid, c) && Communicating(dom.grid, d) && Listed(dom.grid, start, ros)
    requires Tracked(dom, start, ros, d, c)
    requires Tracked(dom, start, ros, d, Neighbor(dom.grid, c, Opposite(d)))
    ensures var from := Neighbor(dom.grid, c, Opposite(d));
            DistinctTags(Kept(dom, c, Local(dom, start, d, c), d) + ArriveAll(dom, c, Leaving(dom, from, Local(dom, start, d, from), d)))
  {
    var from := Neighbor(dom.grid, c, Opposite(d));
    PartitionDistinct(dom, c, Local(dom, start, d, c), d);
    NoClash(dom, start, ros, d, c);
    JoinedDistinct(dom, c, Kept(dom, c, Local(dom, start, d, c), d), Leaving(dom, from, Local(dom, start, d, from), d));
  }

  lemma AllFoundAgain(dom: Domain, start: Population, ros: Roster, d: Dir, c: Coord)
    requires dom.Valid() && InGrid(dom.grid, c) && Communicating(dom.grid, d) && Listed(dom.grid, start, ros)
    requires Tracked(dom, start, ros, d, c)
    requires Tracked(dom, start, ros, d, Neighbor(dom.grid, c, Opposite(d)))
    ensures var from := Neighbor(dom.grid, c, Opposite(d));
            var kept, got := Kept(dom, c, Local(dom, start, d, c), d), ArriveAll(dom, c, Leaving(dom, from, Local(dom, start, d, from), d));
            forall t: nat :: ComesTo(dom, start, ros, d + 1, c, t) ==> HasTag(kept + got, t)
  {
    forall t: nat | ComesTo(dom, start, ros, d + 1, c, t)
      ensures var from := Neighbor(dom.grid, c, Opposite(d));
              HasTag(Kept(dom, c, Local(dom, start, d, c), d) + ArriveAll(dom, c, Leaving(dom, from, Local(dom, start, d, from), d)), t)
    {
      FoundAgain(dom, start, ros, d, c, t);
    }
  }

  lemma JoinedDistinct(dom: Domain, c: Coord, kept: seq<Particle>, sent: seq<Particle>)
    requires dom.Valid() && DistinctTags(kept) && DistinctTags(sent)
    requires NoCommonTag(kept, sent)
    ensures DistinctTags(kept + ArriveAll(dom, c, sent))
  {
    var got := ArriveAll(dom, c, sent);
    assert forall i :: 0 <= i < |got| ==> got[i].tag == sent[i].tag;
  }

  lemma JoinedTracked(dom: Domain, start: Population, ros: Roster, d: nat, c: Coord, kept: seq<Particle>, got: seq<Particle>)
    requires dom.Valid() && d <= 6 && Local(dom, start, d, c) == kept + got && DistinctTags(kept + got)
    requires AllMoved(dom, start, ros, d, c, kept) && AllMoved(dom, start, ros, d, c, got)
    requires forall t: nat :: ComesTo(dom, start, ros, d, c, t) ==> HasTag(kept + got, t)
    ensures Tracked(dom, start, ros, d, c)
  {
    forall p | p in kept + got
      ensures Moved(dom, start, ros, d, c, p)
    {
      assert p in kept || p in got;
    }
  }

  /** The local particles after one more direction. */
  lemma NextLocal(dom: Domain, start: Population, d: Dir, c: Coord)
    requires dom.Valid() && Communicating(dom.grid, d)
    ensures var from := Neighbor(dom.grid, c, Opposite(d));
            Local(dom, start, d + 1, c) ==
            Kept(dom, c, Local(dom, start, d, c), d) + ArriveAll(dom, c, Leaving(dom, from, Local(dom, start, d, from), d))
  {
  }

  lemma KeptMoved(dom: Domain, start: Population, ros: Roster, d: Dir, c: Coord)
    requires dom.Valid() && InGrid(dom.grid, c) && Tracked(dom, start, ros, d, c)
    ensures AllMoved(dom, start, ros, d + 1, c, Kept(dom, c, Local(dom, start, d, c), d))
  {
    Partition(dom, c, Local(dom, start, d, c), d);
    forall p | p in Kept(dom, c, Local(dom, start, d, c), d)
      ensures Moved(dom, start, ros, d + 1, c, p)
    {
      OneStep(dom, c, p, d);
    }
  }

  lemma ArrivedMoved(dom: Domain, start: Population, ros: Roster, d: Dir, c: Coord)
    requires dom.Valid() && InGrid(dom.grid, c) && Tracked(dom, start, ros, d, Neighbor(dom.grid, c, Opposite(d)))
    ensures var from := Neighbor(dom.grid, c, Opposite(d));
            var got := ArriveAll(dom, c, Leaving(dom, from, Local(dom, start, d, from), d));
            AllMoved(dom, start, ros, d + 1, c, got)
  {
    var from := Neighbor(dom.grid, c, Opposite(d));
    var sent := Leaving(dom, from, Local(dom, start, d, from), d);
    Upstream(dom.grid, c, d);
    Partition(dom, from, Local(dom, start, d, from), d);
    forall i | 0 <= i < |sent|
      ensures Moved(dom, start, ros, d + 1, c, ArriveAll(dom, c, sent)[i])
    {
      assert sent[i] in sent;
      OneStep(dom, from, sent[i], d);
    }
  }

  lemma IdleStep(dom: Domain, start: Population, ros: Roster, d: Dir, c: Coord)
    requires dom.Valid() && !Communicating(dom.grid, d) && Tracked(dom, start, ros, d, c)
    ensures Tracked(dom, start, ros, d + 1, c)
  {
    assert Local(dom, start, d + 1, c) == Local(dom, start, d, c);
    forall t: nat
      ensures Travel(dom, ros.Start(t), d + 1) == Travel(dom, ros.Start(t), d)
    {
    }
    forall p | p in Local(dom, start, d, c)
      ensures Moved(dom, start, ros, d + 1, c, p)
    {
    }
  }

  lemma NextStep(dom: Domain, start: Population, ros: Roster, d: Dir, c: Coord)
    requires dom.Valid() && InGrid(dom.grid, c) && Listed(dom.grid, start, ros)
    requires Tracked(dom, start, ros, d, c)
    requires Tracked(dom, start, ros, d, Neighbor(dom.grid, c, Opposite(d)))
    ensures Tracked(dom, start, ros, d + 1, c)
  {
    if Communicating(dom.grid, d) {
      StepTracks(dom, start, ros, d, c);
    } else {
      IdleStep(dom, start, ros, d, c);
    }
  }

  lemma StartTracked(dom: Domain, start: Population, ros: Roster, c: Coord)
    requires dom.Valid() && InGrid(dom.grid, c) && Listed(dom.grid, start, ros)
    ensures Tracked(dom, start, ros, 0, c)
  {
    forall p | p in start(c)
      ensures Moved(dom, start, ros, 0, c, p)
    {
      assert ros.particle(p.tag) == p && ros.rank(p.tag) == c;
    }
  }

  /** After any number of directions, each rank holds exactly the particles whose journeys have led
      to it, each once, with position and image as their journeys say and everything else unchanged. */
  lemma {:induction false} Tracking(dom: Domain, start: Population, ros: Roster, d: nat, c: Coord)
    requires dom.Valid() && InGrid(dom.grid, c) && Listed(dom.grid, start, ros) && d <= 6
    ensures Tracked(dom, start, ros, d, c)
  {
    if d == 0 {
      StartTracked(dom, start, ros, c);
    } else {
      Upstream(dom.grid, c, d - 1);
      Tracking(dom, start, ros, d - 1, c);
      Tracking(dom, start, ros, d - 1, Neighbor(dom.grid, c, Opposite(d - 1)));
      NextStep(dom, start, ros, d - 1, c);
    }
  }

  function Tags(ps: seq<Particle>): (ts: seq<nat>)
    ensures |ts| == |ps| && forall i :: 0 <= i < |ps| ==> ts[i] == ps[i].tag
  {
    seq(|ps|, i requires 0 <= i < |ps| => ps[i].tag)
  }

  lemma {:induction false} TagCount(ps: seq<Particle>, t: nat)
    requires DistinctTags(ps)
    ensures multiset(Tags(ps))[t] == if HasTag(ps, t) then 1 else 0
    decreases |ps|
  {
    if ps != [] {
      var rest, last := ps[..|ps| - 1], ps[|ps| - 1];
      assert forall i, j :: 0 <= i < j < |ps| ==> TagOf(ps[i]) != TagOf(ps[j]);
      TagCount(rest, t);
      assert Tags(ps) == Tags(rest) + [last.tag];
      assert forall p :: p in ps <==> p in rest || p == last;
      assert HasTag(rest, t) ==> last.tag != t;
      assert last in ps;
    }
  }

  /** Conservation: after every direction each tag of the system is held by exactly one rank, once;
      no other tag appears anywhere. */
  lemma EveryTagOnce(dom: Domain, start: Population, ros: Roster, d: nat, c: Coord, t: nat)
    requires dom.Valid() && InGrid(dom.grid, c) && Listed(dom.grid, start, ros) && d <= 6
    ensures Known(dom.grid, start, ros, t) ==> InGrid(dom.grid, OwnerAfter(dom, ros, d, t))
    ensures multiset(Tags(Local(dom, start, d, c)))[t] ==
            if Known(dom.grid, start, ros, t) && OwnerAfter(dom, ros, d, t) == c then 1 else 0
  {
    Tracking(dom, start, ros, d, c);
    TagCount(Local(dom, start, d, c), t);
    if Known(dom.grid, start, ros, t) {
      TravelKeepsUnwrapped(dom, ros.Start(t), d, 0);
    }
  }

  /** After the six directions the unwrapped position of a particle of rank `c` is what it was before; and on a decomposed
      axis, if its coordinate could be wrapped, it lies in the domain of `c` if and only if it found home there. */
  lemma MigrationLandsHome(dom: Domain, start: Population, ros: Roster, c: Coord, p: Particle, a: Axis)
    requires dom.Valid() && InGrid(dom.grid, c) && Listed(dom.grid, start, ros) && p in Local(dom, start, 6, c)
    ensures Known(dom.grid, start, ros, p.tag)
    ensures Unwrapped(dom.L.At(a), SpotOf(On(c, p), a)) == Unwrapped(dom.L.At(a), SpotOf(ros.Start(p.tag), a))
    ensures Wrappable(dom, ros.Start(p.tag), a) ==>
              (Inside(dom.grid.At(a), dom.L.At(a), c.At(a), p.pos.At(a)) <==> FindsHome(dom, ros.Start(p.tag), a))
  {
    Tracking(dom, start, ros, 6, c);
    TravelKeepsUnwrapped(dom, ros.Start(p.tag), 6, a);
    if Wrappable(dom, ros.Start(p.tag), a) {
      Homecoming(dom, ros.Start(p.tag), a);
    }
  }
}
