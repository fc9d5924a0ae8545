/** Refreshing ghost positions between migrations. The update does not look at
    plans: it replays the lists of tags, message sizes and reverse lookups that
    the last exchange left behind. It produces the same positions as a complete
    exchange of the current positions would. */
module GhostUpdate {
  import opened Vectors
  import opened Decomposition
  import opened Box
  import opened GhostExchange

  /** What a rank remembers from the last exchange. */
  datatype Memory = Memory(n: nat, copied: seq<seq<nat>>, received: seq<nat>, rtag: map<nat, nat>)

  /** One list of tags and one number per direction. */
  type Lists = l: Memory | |l.copied| == |l.received| == 6
    witness Memory(0, [[], [], [], [], [], []], [0, 0, 0, 0, 0, 0], map[])

  function Positions(es: seq<Copy>): (ps: seq<V3<real>>)
    ensures |ps| == |es| && forall i :: 0 <= i < |es| ==> ps[i] == es[i].pos
  {
    seq(|es|, i requires 0 <= i < |es| => es[i].pos)
  }

  /** First slot that direction `d` writes. */
  function StartIndex(g: Grid, l: Lists, d: nat): nat
    requires d <= 6
  {
    if d == 0 then l.n
    else StartIndex(g, l, d - 1) + if Communicating(g, d - 1) then l.received[d - 1] else 0
  }

  function LookUp(l: Lists, ps: seq<V3<real>>, t: nat): V3<real> {
    if t in l.rtag && l.rtag[t] < |ps| then ps[l.rtag[t]] else V3(0.0, 0.0, 0.0)
  }

  /** Current positions of the listed tags, packed into the send buffer. */
  function Packed(l: Lists, ps: seq<V3<real>>, tags: seq<nat>): (r: seq<V3<real>>)
    ensures |r| == |tags| && forall k :: 0 <= k < |tags| ==> r[k] == LookUp(l, ps, tags[k])
  {
    seq(|tags|, k requires 0 <= k < |tags| => LookUp(l, ps, tags[k]))
  }

  function WrapAll(dom: Domain, c: Coord, ps: seq<V3<real>>): (r: seq<V3<real>>)
    requires dom.Valid()
    ensures |r| == |ps| && forall k :: 0 <= k < |ps| ==> r[k] == WrapPos(dom, c, ps[k])
  {
    seq(|ps|, k requires 0 <= k < |ps| => WrapPos(dom, c, ps[k]))
  }

  /** Overwrite the slots from `start` on with a received message. */
  function Overwrite(ps: seq<V3<real>>, start: nat, message: seq<V3<real>>): seq<V3<real>> {
    if start + |message| <= |ps| then ps[..start] + message + ps[start + |message|..] else ps
  }

  /** The position array of rank `c` after the first `d` directions of an update. */
  function Refreshed(dom: Domain, lists: Coord -> Lists, pos: Coord -> seq<V3<real>>, d: nat, c: Coord): seq<V3<real>>
    requires dom.Valid() && d <= 6
    decreases d
  {
    if d == 0 then pos(c)
    else
      var before := Refreshed(dom, lists, pos, d - 1, c);
      if Communicating(dom.grid, d - 1) then
        var from := Neighbor(dom.grid, c, Opposite(d - 1));
        var message := Packed(lists(from), Refreshed(dom, lists, pos, d - 1, from), lists(from).copied[d - 1]);
        Overwrite(before, StartIndex(dom.grid, lists(c), d - 1), WrapAll(dom, c, message))
      else before
  }

  /** `rtag` is the inverse of the tag array. */
  ghost predicate ReverseLookup(rtag: map<nat, nat>, es: seq<Copy>) {
    && (forall i :: 0 <= i < |es| ==> es[i].tag in rtag && rtag[es[i].tag] == i)
    && (forall t :: t in rtag ==> rtag[t] < |es| && es[rtag[t]].tag == t)
  }

  /** The lists are those that an exchange of `owned` leaves behind on every rank. */
  ghost predicate LeftByExchange(dom: Domain, owned: Owned, lists: Coord -> Lists)
    requires dom.Valid()
  {
    forall c: Coord :: InGrid(dom.grid, c) ==> LeftAt(dom, owned, lists(c), c)
  }

  ghost predicate LeftAt(dom: Domain, owned: Owned, l: Lists, c: Coord)
    requires dom.Valid()
  {
    && l.n == |owned(c)|
    && ReverseLookup(l.rtag, Held(dom, owned, 6, c))
    && (forall d: Dir :: Communicating(dom.grid, d) ==>
          && l.copied[d] == Tags(Sent(Held(dom, owned, d, c), d))
          && l.received[d] == |Arriving(dom, owned, d, c)|)
  }

  // ------------------------------------------------------------ itineraries do not depend on positions

  ghost predicate SameItinerary(es: seq<Copy>, fs: seq<Copy>) {
    |es| == |fs| && forall i :: 0 <= i < |es| ==> es[i].tag == fs[i].tag && es[i].plan == fs[i].plan
  }

  /** Array indices of the slots selected for sending. */
  function SentAt(es: seq<Copy>, d: Dir): (r: seq<nat>)
    ensures forall k :: 0 <= k < |r| ==> r[k] < |es|
  {
    if es == [] then []
    else SentAt(es[..|es| - 1], d) + if d in es[|es| - 1].plan then [|es| - 1] else []
  }

  lemma {:induction false} SentIsIndexed(es: seq<Copy>, d: Dir)
    ensures |SentAt(es, d)| == |Sent(es, d)|
    ensures forall k :: 0 <= k < |Sent(es, d)| ==> Sent(es, d)[k] == es[SentAt(es, d)[k]]
    decreases |es|
  {
    if es != [] {
      SentIsIndexed(es[..|es| - 1], d);
    }
  }

  lemma {:induction false} SameSelection(es: seq<Copy>, fs: seq<Copy>, d: Dir)
    requires SameItinerary(es, fs)
    ensures SentAt(es, d) == SentAt(fs, d)
    ensures SameItinerary(Sent(es, d), Sent(fs, d))
    decreases |es|
  {
    if es != [] {
      SameSelection(es[..|es| - 1], fs[..|fs| - 1], d);
    }
  }

  ghost predicate SameItineraries(g: Grid, owned: Owned, owned': Owned) {
    forall c: Coord :: InGrid(g, c) ==> SameItinerary(owned(c), owned'(c))
  }

  lemma {:induction false} HeldItinerary(dom: Domain, dom': Domain, owned: Owned, owned': Owned, d: nat, c: Coord)
    requires dom.Valid() && dom'.Valid() && dom.grid == dom'.grid && InGrid(dom.grid, c) && d <= 6
    requires SameItineraries(dom.grid, owned, owned')
    ensures SameItinerary(Held(dom, owned, d, c), Held(dom', owned', d, c))
  {
    if d > 0 {
      var from := Neighbor(dom.grid, c, Opposite(d - 1));
      Upstream(dom.grid, c, d - 1);
      HeldItinerary(dom, dom', owned, owned', d - 1, c);
      HeldItinerary(dom, dom', owned, owned', d - 1, from);
      ItineraryStep(dom, dom', owned, owned', d - 1, c);
    }
  }

  lemma ItineraryStep(dom: Domain, dom': Domain, owned: Owned, owned': Owned, d: Dir, c: Coord)
    requires dom.Valid() && dom'.Valid() && dom.grid == dom'.grid
    requires SameItinerary(Held(dom, owned, d, c), Held(dom', owned', d, c))
    requires var from := Neighbor(dom.grid, c, Opposite(d));
             SameItinerary(Held(dom, owned, d, from), Held(dom', owned', d, from))
    ensures SameItinerary(Held(dom, owned, d + 1, c), Held(dom', owned', d + 1, c))
  {
    var from := Neighbor(dom.grid, c, Opposite(d));
    SameSelection(Held(dom, owned, d, from), Held(dom', owned', d, from), d);
    NextHeld(dom, owned, d, c);
    NextHeld(dom', owned', d, c);
    JoinItineraries(Held(dom, owned, d, c), Held(dom', owned', d, c), Arriving(dom, owned, d, c), Arriving(dom', owned', d, c));
  }

  lemma JoinItineraries(es: seq<Copy>, es': seq<Copy>, fs: seq<Copy>, fs': seq<Copy>)
    requires SameItinerary(es, es') && SameItinerary(fs, fs')
    ensures SameItinerary(es + fs, es' + fs')
  {
  }

  lemma PrefixThrough(es: seq<Copy>, fs: seq<Copy>, gs: seq<Copy>)
    requires es <= fs && fs <= gs
    ensures es <= gs
  {
  }

  lemma {:induction false} HeldPrefix(dom: Domain, owned: Owned, d: nat, e: nat, c: Coord)
    requires dom.Valid() && d <= e <= 6
    ensures Held(dom, owned, d, c) <= Held(dom, owned, e, c)
    decreases e
  {
    if d < e {
      HeldPrefix(dom, owned, d, e - 1, c);
      NextHeld(dom, owned, e - 1, c);
      PrefixThrough(Held(dom, owned, d, c), Held(dom, owned, e - 1, c), Held(dom, owned, e, c));
    }
  }

  lemma {:induction false} StartIsLength(dom: Domain, owned: Owned, l: Lists, d: nat, c: Coord)
    requires dom.Valid() && d <= 6 && LeftAt(dom, owned, l, c)
    ensures StartIndex(dom.grid, l, d) == |Held(dom, owned, d, c)|
  {
    if d > 0 {
      StartIsLength(dom, owned, l, d - 1, c);
    }
  }

  // ------------------------------------------------------------ the update replays the exchange

  /** Slots filled so far agree with an exchange of the current positions. */
  ghost predicate InStep(dom: Domain, dom': Domain, owned: Owned, owned': Owned, ps: seq<V3<real>>, d: nat, c: Coord)
    requires dom.Valid() && dom'.Valid() && d <= 6
  {
    && |ps| == |Held(dom, owned, 6, c)|
    && Positions(Held(dom', owned', d, c)) <= ps
  }

  /** Looking a listed tag up finds the very slot from which the exchange had copied it. */
  lemma PackedPositions(dom: Domain, dom': Domain, owned: Owned, owned': Owned, l: Lists, ps: seq<V3<real>>, d: Dir, c: Coord)
    requires dom.Valid() && dom'.Valid() && dom.grid == dom'.grid && InGrid(dom.grid, c) && Communicating(dom.grid, d)
    requires LeftAt(dom, owned, l, c)
    requires SameItineraries(dom.grid, owned, owned')
    requires InStep(dom, dom', owned, owned', ps, d, c)
    ensures Packed(l, ps, l.copied[d]) == Positions(Sent(Held(dom', owned', d, c), d))
  {
    var es, es' := Held(dom, owned, d, c), Held(dom', owned', d, c);
    HeldItinerary(dom, dom', owned, owned', d, c);
    SameSelection(es, es', d);
    SentIsIndexed(es, d);
    SentIsIndexed(es', d);
    HeldPrefix(dom, owned, d, 6, c);
    forall k | 0 <= k < |Sent(es', d)|
      ensures Packed(l, ps, l.copied[d])[k] == Sent(es', d)[k].pos
    {
      var i := SentAt(es, d)[k];
      assert l.copied[d][k] == es[i].tag == Held(dom, owned, 6, c)[i].tag;
      assert ps[i] == Positions(es')[i];
    }
  }

  lemma OverwriteExtends(ps: seq<V3<real>>, filled: seq<V3<real>>, message: seq<V3<real>>)
    requires filled <= ps && |filled| + |message| <= |ps|
    ensures filled + message <= Overwrite(ps, |filled|, message)
    ensures |Overwrite(ps, |filled|, message)| == |ps|
  {
    assert ps[..|filled|] == filled;
  }

  /** The message of one direction carries exactly the positions the exchange would deliver. */
  lemma MessageReplays(dom: Domain, dom': Domain, owned: Owned, owned': Owned, lists: Coord -> Lists,
                       source: seq<V3<real>>, d: Dir, c: Coord)
    requires dom.Valid() && dom'.Valid() && dom.grid == dom'.grid && InGrid(dom.grid, c) && Communicating(dom.grid, d)
    requires LeftByExchange(dom, owned, lists) && SameItineraries(dom.grid, owned, owned')
    requires InStep(dom, dom', owned, owned', source, d, Neighbor(dom.grid, c, Opposite(d)))
    ensures var from := Neighbor(dom.grid, c, Opposite(d));
            WrapAll(dom', c, Packed(lists(from), source, lists(from).copied[d])) == Positions(Arriving(dom', owned', d, c))
    ensures StartIndex(dom.grid, lists(c), d) == |Held(dom', owned', d, c)|
    ensures |Held(dom', owned', d + 1, c)| <= |Held(dom, owned, 6, c)|
  {
    var from := Neighbor(dom.grid, c, Opposite(d));
    Upstream(dom.grid, c, d);
    PackedPositions(dom, dom', owned, owned', lists(from), source, d, from);
    StartIsLength(dom, owned, lists(c), d, c);
    HeldItinerary(dom, dom', owned, owned', d, c);
    HeldItinerary(dom, dom', owned, owned', d + 1, c);
    HeldPrefix(dom, owned, d + 1, 6, c);
  }

  /** One direction, seen from the receiving rank. */
  lemma DirectionReplays(dom: Domain, dom': Domain, owned: Owned, owned': Owned, lists: Coord -> Lists,
                         before: seq<V3<real>>, source: seq<V3<real>>, d: Dir, c: Coord)
    requires dom.Valid() && dom'.Valid() && dom.grid == dom'.grid && InGrid(dom.grid, c) && Communicating(dom.grid, d)
    requires LeftByExchange(dom, owned, lists) && SameItineraries(dom.grid, owned, owned')
    requires InStep(dom, dom', owned, owned', before, d, c)
    requires InStep(dom, dom', owned, owned', source, d, Neighbor(dom.grid, c, Opposite(d)))
    ensures var from := Neighbor(dom.grid, c, Opposite(d));
            var message := WrapAll(dom', c, Packed(lists(from), source, lists(from).copied[d]));
            InStep(dom, dom', owned, owned', Overwrite(before, StartIndex(dom.grid, lists(c), d), message), d + 1, c)
  {
    MessageReplays(dom, dom', owned, owned', lists, source, d, c);
    PositionsGrow(dom', owned', d, c);
    OverwriteExtends(before, Positions(Held(dom', owned', d, c)), Positions(Arriving(dom', owned', d, c)));
  }

  lemma PositionsGrow(dom: Domain, owned: Owned, d: Dir, c: Coord)
    requires dom.Valid() && Communicating(dom.grid, d)
    ensures Positions(Held(dom, owned, d + 1, c)) == Positions(Held(dom, owned, d, c)) + Positions(Arriving(dom, owned, d, c))
  {
    NextHeld(dom, owned, d, c);
    JoinPositions(Held(dom, owned, d, c), Arriving(dom, owned, d, c));
  }

  lemma JoinPositions(es: seq<Copy>, fs: seq<Copy>)
    ensures Positions(es + fs) == Positions(es) + Positions(fs)
  {
  }

  lemma {:induction false} UpdateInStep(dom: Domain, dom': Domain, owned: Owned, owned': Owned, lists: Coord -> Lists,
                                        pos: Coord -> seq<V3<real>>, d: nat, c: Coord)
    requires dom.Valid() && dom'.Valid() && dom.grid == dom'.grid && InGrid(dom.grid, c) && d <= 6
    requires LeftByExchange(dom, owned, lists) && SameItineraries(dom.grid, owned, owned')
    requires forall c: Coord :: InGrid(dom.grid, c) ==> InStep(dom, dom', owned, owned', pos(c), 0, c)
    ensures InStep(dom, dom', owned, owned', Refreshed(dom', lists, pos, d, c), d, c)
  {
    if d > 0 {
      var from := Neighbor(dom.grid, c, Opposite(d - 1));
      Upstream(dom.grid, c, d - 1);
      UpdateInStep(dom, dom', owned, owned', lists, pos, d - 1, c);
      UpdateInStep(dom, dom', owned, owned', lists, pos, d - 1, from);
      if Communicating(dom.grid, d - 1) {
        DirectionReplays(dom, dom', owned, owned', lists, Refreshed(dom', lists, pos, d - 1, c),
                         Refreshed(dom', lists, pos, d - 1, from), d - 1, c);
      }
    }
  }

  /** The update refines the exchange: whatever the local particles' current positions (`owned'`)
      and whatever the current box (`dom'`), all slots - including ghosts that were forwarded through
      several ranks - end up as if the ghosts had been exchanged anew along the remembered itineraries. */
  lemma UpdateRefinesExchange(dom: Domain, dom': Domain, owned: Owned, owned': Owned, lists: Coord -> Lists,
                              pos: Coord -> seq<V3<real>>, c: Coord)
    requires dom.Valid() && dom'.Valid() && dom.grid == dom'.grid && InGrid(dom.grid, c)
    requires LeftByExchange(dom, owned, lists) && SameItineraries(dom.grid, owned, owned')
    requires forall c: Coord :: InGrid(dom.grid, c) ==> InStep(dom, dom', owned, owned', pos(c), 0, c)
    ensures Refreshed(dom', lists, pos, 6, c) == Positions(Held(dom', owned', 6, c))
    ensures Tags(Held(dom', owned', 6, c)) == Tags(Held(dom, owned, 6, c))
  {
    UpdateInStep(dom, dom', owned, owned', lists, pos, 6, c);
    HeldItinerary(dom, dom', owned, owned', 6, c);
  }

  // ------------------------------------------------------------ ghosts are images of their owners

  /** `p` and `q` differ by a whole number of box lengths on every axis. */
  ghost predicate Images(L: V3<real>, p: V3<real>, q: V3<real>) {
    exists k: V3<int> :: ShiftedBy(L, p, q, k)
  }

  predicate ShiftedBy(L: V3<real>, p: V3<real>, q: V3<real>, k: V3<int>) {
    p == V3(Image(L.x, q.x, k.x), Image(L.y, q.y, k.y), Image(L.z, q.z, k.z))
  }

  lemma WrapIsImage(dom: Domain, c: Coord, p: V3<real>, q: V3<real>)
    requires dom.Valid() && Images(dom.L, p, q)
    ensures Images(dom.L, WrapPos(dom, c, p), q)
  {
    var k: V3<int> :| ShiftedBy(dom.L, p, q, k);
    assert dom.L.At(0) == dom.L.x && dom.L.At(1) == dom.L.y && dom.L.At(2) == dom.L.z;
    var m := V3(Shift(dom.grid.x, dom.L.x, dom.rGhost, c.x, p.x),
                Shift(dom.grid.y, dom.L.y, dom.rGhost, c.y, p.y),
                Shift(dom.grid.z, dom.L.z, dom.rGhost, c.z, p.z));
    assert WrapPos(dom, c, p) == V3(Image(dom.L.x, p.x, m.x), Image(dom.L.y, p.y, m.y), Image(dom.L.z, p.z, m.z));
    AddShifts(dom.L.x, q.x, k.x, m.x);
    AddShifts(dom.L.y, q.y, k.y, m.y);
    AddShifts(dom.L.z, q.z, k.z, m.z);
    assert ShiftedBy(dom.L, WrapPos(dom, c, p), q, V3(k.x + m.x, k.y + m.y, k.z + m.z));
  }

  lemma AddShifts(L: real, x: real, k: int, m: int)
    ensures Image(L, Image(L, x, k), m) == Image(L, x, k + m)
  {
    assert (k + m) as real * L == k as real * L + m as real * L;
  }

  /** `e` is a copy of some particle of `es`: same tag, same attributes, and its position up to a lattice shift. */
  ghost predicate CopyOf(L: V3<real>, e: Copy, es: seq<Copy>) {
    exists i :: 0 <= i < |es| && es[i].tag == e.tag && es[i].attr == e.attr && Images(L, e.pos, es[i].pos)
  }

  ghost predicate AllCopies(L: V3<real>, owned: Owned, dir: Directory, es: seq<Copy>) {
    forall e :: e in es ==> CopyOf(L, e, owned(dir.owner(e.tag)))
  }

  lemma OwnersAreCopies(L: V3<real>, g: Grid, owned: Owned, dir: Directory, c: Coord)
    requires InGrid(g, c) && Registered(g, owned, dir)
    ensures AllCopies(L, owned, dir, owned(c))
  {
    forall e | e in owned(c)
      ensures CopyOf(L, e, owned(dir.owner(e.tag)))
    {
      var i :| 0 <= i < |owned(c)| && owned(c)[i] == e;
      assert ShiftedBy(L, e.pos, e.pos, V3(0, 0, 0));
      assert owned(c)[i].tag == e.tag && Images(L, e.pos, owned(c)[i].pos);
    }
  }

  lemma ArrivingAreCopies(dom: Domain, owned: Owned, dir: Directory, d: Dir, c: Coord)
    requires dom.Valid() && AllCopies(dom.L, owned, dir, Held(dom, owned, d, Neighbor(dom.grid, c, Opposite(d))))
    ensures AllCopies(dom.L, owned, dir, Arriving(dom, owned, d, c))
  {
    var held := Held(dom, owned, d, Neighbor(dom.grid, c, Opposite(d)));
    var sent := Sent(held, d);
    SentSelects(held, d);
    forall e | e in Arriving(dom, owned, d, c)
      ensures CopyOf(dom.L, e, owned(dir.owner(e.tag)))
    {
      var k :| 0 <= k < |sent| && Received(dom, c, sent)[k] == e;
      var es := owned(dir.owner(e.tag));
      assert sent[k] in held;
      var i :| 0 <= i < |es| && es[i].tag == e.tag && es[i].attr == e.attr && Images(dom.L, sent[k].pos, es[i].pos);
      WrapIsImage(dom, c, sent[k].pos, es[i].pos);
    }
  }

  /** Every slot of every rank holds, up to a lattice shift, the position (and the charge and
      diameter) of the particle of that tag on the rank that owns it. */
  lemma {:induction false} SlotsAreImages(dom: Domain, owned: Owned, dir: Directory, d: nat, c: Coord)
    requires dom.Valid() && InGrid(dom.grid, c) && Registered(dom.grid, owned, dir) && d <= 6
    ensures AllCopies(dom.L, owned, dir, Held(dom, owned, d, c))
  {
    if d == 0 {
      OwnersAreCopies(dom.L, dom.grid, owned, dir, c);
    } else {
      var from := Neighbor(dom.grid, c, Opposite(d - 1));
      Upstream(dom.grid, c, d - 1);
      SlotsAreImages(dom, owned, dir, d - 1, c);
      SlotsAreImages(dom, owned, dir, d - 1, from);
      NextHeld(dom, owned, d - 1, c);
      ArrivingAreCopies(dom, owned, dir, d - 1, c);
    }
  }
}
