/** The communicator of one rank together with the particle arrays it works on. */
module Ranks {
  import opened Vectors
  import opened Decomposition
  import opened Box
  import opened Sequences
  import opened Journey
  import M = Migration
  import B = Bonds
  import G = GhostExchange
  import Geo = GhostGeometry
  import U = GhostUpdate

  /** Elements of `xs` at the positions `keys`. */
  function Gathered<T>(xs: seq<T>, keys: seq<nat>): (r: seq<T>)
    requires forall j :: 0 <= j < |keys| ==> keys[j] < |xs|
    ensures |r| == |keys| && forall j :: 0 <= j < |keys| ==> r[j] == xs[keys[j]]
  {
    seq(|keys|, j requires 0 <= j < |keys| => xs[keys[j]])
  }

  /** Apply a sort order to one particle array. */
  method Gather<T>(xs: seq<T>, keys: seq<nat>) returns (r: seq<T>)
    requires forall j :: 0 <= j < |keys| ==> keys[j] < |xs|
    ensures r == Gathered(xs, keys)
  {
    r := [];
    for i := 0 to |keys|
      invariant r == Gathered(xs, keys)[..i]
    {
      r := r + [xs[keys[i]]];
    }
  }

  /** The particles described by parallel arrays. */
  function Zip(tag: seq<nat>, pos: seq<V3<real>>, image: seq<V3<int>>, attr: seq<Attr>): (ps: seq<M.Particle>)
    requires |image| <= |tag| == |pos| == |attr|
    ensures |ps| == |image|
    ensures forall i :: 0 <= i < |ps| ==> ps[i] == M.Particle(tag[i], pos[i], image[i], attr[i])
  {
    seq(|image|, i requires 0 <= i < |image| => M.Particle(tag[i], pos[i], image[i], attr[i]))
  }

  /** The slots described by parallel arrays. */
  function Copies(tag: seq<nat>, pos: seq<V3<real>>, attr: seq<Attr>, plan: seq<set<Dir>>): (es: seq<G.Copy>)
    requires |tag| == |pos| == |attr| == |plan|
    ensures |es| == |tag|
    ensures forall i :: 0 <= i < |es| ==> es[i] == G.Copy(tag[i], pos[i], attr[i], plan[i])
  {
    seq(|tag|, i requires 0 <= i < |tag| => G.Copy(tag[i], pos[i], attr[i], plan[i]))
  }

  /** Wrapping the slots after the old ones turns a raw message into what is received. */
  lemma AppendIsReceived(dom: Domain, c: Coord, es: seq<G.Copy>, message: seq<G.Copy>,
                         tag: seq<nat>, raw: seq<V3<real>>, pos: seq<V3<real>>, attr: seq<Attr>, plan: seq<set<Dir>>)
    requires dom.Valid() && |tag| == |raw| == |attr| == |plan| == |es| + |message|
    requires Copies(tag, raw, attr, plan) == es + message
    requires pos == U.Overwrite(raw, |es|, U.WrapAll(dom, c, raw[|es|..|es| + |message|]))
    ensures |pos| == |tag| && Copies(tag, pos, attr, plan) == es + G.Received(dom, c, message)
  {
    assert forall i :: 0 <= i < |tag| ==> (es + message)[i] == G.Copy(tag[i], raw[i], attr[i], plan[i]);
    assert forall i :: 0 <= i < |es| ==> pos[i] == raw[i];
  }

  lemma WrappedIsOverwritten(dom: Domain, c: Coord, before: seq<V3<real>>, after: seq<V3<real>>, start: nat, count: nat)
    requires dom.Valid() && start + count <= |before| == |after|
    requires forall j :: start <= j < start + count ==> after[j] == G.WrapPos(dom, c, before[j])
    requires forall j :: 0 <= j < start || start + count <= j < |after| ==> after[j] == before[j]
    ensures after == U.Overwrite(before, start, U.WrapAll(dom, c, before[start..start + count]))
  {
  }

  /** Writing over what has just been written leaves no trace of the first writing. */
  lemma OverwriteTwice(ps: seq<V3<real>>, start: nat, first: seq<V3<real>>, second: seq<V3<real>>)
    requires start + |first| <= |ps| && |first| == |second|
    ensures U.Overwrite(ps, start, first)[start..start + |first|] == first
    ensures U.Overwrite(U.Overwrite(ps, start, first), start, second) == U.Overwrite(ps, start, second)
  {
  }

  lemma GatherZip(tag: seq<nat>, pos: seq<V3<real>>, image: seq<V3<int>>, attr: seq<Attr>, keys: seq<nat>)
    requires |image| == |tag| == |pos| == |attr| && forall j :: 0 <= j < |keys| ==> keys[j] < |tag|
    ensures Zip(Gathered(tag, keys), Gathered(pos, keys), Gathered(image, keys), Gathered(attr, keys))
            == Gathered(Zip(tag, pos, image, attr), keys)
  {
  }

  lemma GatherAppend<T>(xs: seq<T>, ks: seq<nat>, ls: seq<nat>)
    requires forall j :: 0 <= j < |ks + ls| ==> (ks + ls)[j] < |xs|
    requires forall j :: 0 <= j < |ks| ==> ks[j] < |xs|
    requires forall j :: 0 <= j < |ls| ==> ls[j] < |xs|
    ensures Gathered(xs, ks + ls) == Gathered(xs, ks) + Gathered(xs, ls)
  {
  }

  class Rank {
    const coord: Coord
    // particle arrays: n local particles first, then ghosts
    var n: nat
    var tag: seq<nat>
    var pos: seq<V3<real>>
    var image: seq<V3<int>>
    var attr: seq<Attr>
    // reverse lookup; a missing tag is NOT_LOCAL
    var rtag: map<nat, nat>
    // bonds with at least one local member
    var bonds: seq<B.Bond>
    // itineraries of the slots
    var plan: seq<set<Dir>>
    // remembered from the last exchange: tags sent and numbers received, per direction
    var copied: map<Dir, seq<nat>>
    var received: map<Dir, nat>

    constructor (c: Coord)
      ensures coord == c && LocalOnly() && Particles() == [] && bonds == []
    {
      coord, n, tag, pos, image, attr, rtag, bonds := c, 0, [], [], [], [], map[], [];
      plan, copied, received := [], map[], map[];
    }

    predicate Shape()
      reads this
    {
      |tag| == |pos| == |attr| && n == |image| <= |tag|
    }

    function Particles(): (ps: seq<M.Particle>)
      requires Shape()
      reads this
      ensures |ps| == n
    {
      Zip(tag, pos, image, attr)
    }

    ghost predicate RtagOk()
      reads this
    {
      && (forall i :: 0 <= i < |tag| ==> tag[i] in rtag && rtag[tag[i]] == i)
      && (forall t :: t in rtag ==> rtag[t] < |tag| && tag[rtag[t]] == t)
    }

    /** There are no ghosts and the reverse lookup is exact. */
    ghost predicate LocalOnly()
      reads this
    {
      Shape() && |tag| == n && RtagOk()
    }

    /** Stable partition of the array positions: which particles stay and which are to be sent. */
    method SortKeys(dom: Domain, d: Dir) returns (stay: seq<nat>, go: seq<nat>)
      requires dom.Valid() && Shape()
      ensures forall j :: 0 <= j < |stay| ==> stay[j] < n
      ensures forall j :: 0 <= j < |go| ==> go[j] < n
      ensures |stay| + |go| == n
      ensures Gathered(Particles(), stay) == M.Kept(dom, coord, Particles(), d)
      ensures Gathered(Particles(), go) == M.Leaving(dom, coord, Particles(), d)
    {
      stay, go := [], [];
      ghost var ps := Particles();
      for i := 0 to n
        invariant forall j :: 0 <= j < |stay| ==> stay[j] < n
        invariant forall j :: 0 <= j < |go| ==> go[j] < n
        invariant |stay| + |go| == i
        invariant Gathered(ps, stay) == Filter(ps[..i], M.Stays(dom, coord, d))
        invariant Gathered(ps, go) == Filter(ps[..i], M.Goes(dom, coord, d))
      {
        FilterTake(ps, M.Stays(dom, coord, d), i);
        FilterTake(ps, M.Goes(dom, coord, d), i);
        if LeavesIn(dom, Traveller(coord, pos[i], image[i]), d) {
          GatherAppend(ps, go, [i]);
          go := go + [i];
        } else {
          GatherAppend(ps, stay, [i]);
          stay := stay + [i];
        }
      }
      assert ps[..n] == ps;
    }

    /** Reorder the arrays: particles that stay first, then those to be sent, each group in its old order. */
    method Reorder(dom: Domain, d: Dir) returns (nSend: nat)
      requires dom.Valid() && Shape() && n == |tag|
      modifies this
      ensures Shape() && n == |tag| == old(n)
      ensures Particles() == M.Kept(dom, coord, old(Particles()), d) + M.Leaving(dom, coord, old(Particles()), d)
      ensures nSend == |M.Leaving(dom, coord, old(Particles()), d)| <= n
      ensures rtag == old(rtag) && bonds == old(bonds)
    {
      var stay, go := SortKeys(dom, d);
      GatherAppend(Particles(), stay, go);
      ApplyOrder(stay + go);
      nSend := |go|;
    }

    /** Apply a sort order to all arrays. */
    method ApplyOrder(keys: seq<nat>)
      requires Shape() && n == |tag| == |keys| && forall j :: 0 <= j < |keys| ==> keys[j] < n
      modifies this`tag, this`pos, this`image, this`attr
      ensures Shape() && n == |tag| && Particles() == Gathered(old(Particles()), keys)
    {
      GatherZip(tag, pos, image, attr, keys);
      tag := Gather(tag, keys);
      pos := Gather(pos, keys);
      image := Gather(image, keys);
      attr := Gather(attr, keys);
    }

    /** Forget the ghosts of the previous exchange. */
    method WipeGhosts()
      requires Shape() && RtagOk()
      modifies this
      ensures LocalOnly() && Particles() == old(Particles()) && bonds == old(bonds)
    {
      ForgetTags(n);
      tag, pos, attr := tag[..n], pos[..n], attr[..n];
    }

    /** Set the reverse lookup of the slots from `start` on to NOT_LOCAL. */
    method ForgetTags(start: nat)
      requires RtagOk() && start <= |tag|
      modifies this`rtag
      ensures forall i :: 0 <= i < start ==> tag[i] in rtag && rtag[tag[i]] == i
      ensures forall t :: t in rtag ==> rtag[t] < start && tag[rtag[t]] == t
    {
      for i := start to |tag|
        invariant forall j :: 0 <= j < start || i <= j < |tag| ==> tag[j] in rtag && rtag[tag[j]] == j
        invariant forall t :: t in rtag ==> (rtag[t] < start || i <= rtag[t] < |tag|) && tag[rtag[t]] == t
      {
        rtag := rtag - {tag[i]};
      }
    }

    /** Recompute the reverse lookup after the arrays have been reordered. */
    method UpdateRtags()
      requires Shape() && |tag| == n && M.DistinctTags(Particles())
      requires forall t :: t in rtag <==> t in tag
      modifies this`rtag
      ensures RtagOk()
    {
      assert forall i :: 0 <= i < n ==> M.TagOf(Particles()[i]) == tag[i];
      for i := 0 to n
        invariant forall t :: t in rtag <==> t in tag
        invariant forall j :: 0 <= j < i ==> rtag[tag[j]] == j
      {
        rtag := rtag[tag[i] := i];
      }
      forall t | t in rtag
        ensures rtag[t] < n && tag[rtag[t]] == t
      {
        var i :| 0 <= i < n && tag[i] == t;
      }
    }

    /** Split the last `nSend` particles off the arrays and pack them into the send buffer. */
    method PackLeaving(nSend: nat) returns (message: seq<M.Particle>)
      requires LocalOnly() && nSend <= n
      modifies this
      ensures LocalOnly() && n == old(n) - nSend
      ensures Particles() == old(Particles())[..n] && message == old(Particles())[n..] && bonds == old(bonds)
    {
      message := PackFrom(n - nSend);
      ForgetTags(n - nSend);
      n := n - nSend;
      tag, pos, image, attr := tag[..n], pos[..n], image[..n], attr[..n];
    }

    /** Fill the send buffer with the particles from `start` on. */
    method PackFrom(start: nat) returns (message: seq<M.Particle>)
      requires LocalOnly() && start <= n
      ensures message == Particles()[start..]
    {
      message := [];
      ghost var ps := Particles();
      for i := start to n
        invariant message == ps[start..i]
      {
        assert ps[i] == M.Particle(tag[i], pos[i], image[i], attr[i]);
        message := message + [M.Particle(tag[i], pos[i], image[i], attr[i])];
      }
    }

    /** Wrap received particles into the shifted box. */
    method WrapReceived(dom: Domain, message: seq<M.Particle>) returns (buffer: seq<M.Particle>)
      requires dom.Valid()
      ensures buffer == M.ArriveAll(dom, coord, message)
    {
      buffer := message;
      for i := 0 to |message|
        invariant |buffer| == |message|
        invariant forall j :: 0 <= j < i ==> buffer[j] == M.Arrive(dom, coord, message[j])
        invariant forall j :: i <= j < |message| ==> buffer[j] == message[j]
      {
        buffer := buffer[i := M.Arrive(dom, coord, buffer[i])];
      }
    }

    /** Append one received particle; its reverse lookup must read NOT_LOCAL. */
    method Append(p: M.Particle)
      requires LocalOnly() && p.tag !in rtag
      modifies this`n, this`tag, this`pos, this`image, this`attr, this`rtag
      ensures LocalOnly() && Particles() == old(Particles()) + [p]
      ensures rtag.Keys == old(rtag.Keys) + {p.tag}
    {
      rtag := rtag[p.tag := n];
      tag, pos, image, attr := tag + [p.tag], pos + [p.pos], image + [p.image], attr + [p.attr];
      n := n + 1;
    }

    /** Wrap received particles and append them to the arrays. */
    method AppendReceived(dom: Domain, message: seq<M.Particle>)
      requires dom.Valid() && LocalOnly() && M.DistinctTags(message)
      requires forall i :: 0 <= i < |message| ==> message[i].tag !in rtag
      modifies this
      ensures LocalOnly() && Particles() == old(Particles()) + M.ArriveAll(dom, coord, message) && bonds == old(bonds)
    {
      var buffer := WrapReceived(dom, message);
      forall i, j | 0 <= i < j < |buffer|
        ensures buffer[i].tag != buffer[j].tag
      {
        assert M.TagOf(message[i]) != M.TagOf(message[j]);
      }
      AppendAll(buffer);
    }

    /** Append particles with new tags. */
    method AppendAll(buffer: seq<M.Particle>)
      requires LocalOnly() && forall i, j :: 0 <= i < j < |buffer| ==> buffer[i].tag != buffer[j].tag
      requires forall i :: 0 <= i < |buffer| ==> buffer[i].tag !in rtag
      modifies this`n, this`tag, this`pos, this`image, this`attr, this`rtag
      ensures LocalOnly() && Particles() == old(Particles()) + buffer
    {
      ghost var ps := Particles();
      for i := 0 to |buffer|
        invariant LocalOnly() && Particles() == ps + buffer[..i]
        invariant forall j :: i <= j < |buffer| ==> buffer[j].tag !in rtag
      {
        Append(buffer[i]);
        assert ps + buffer[..i] + [buffer[i]] == ps + buffer[..i + 1];
      }
    }

    /** Which bonds go along with the particles from position `keep` on, and which are to be removed. */
    method SelectBonds(keep: nat) returns (message: seq<B.Bond>, removed: seq<bool>)
      requires LocalOnly() && keep <= n
      ensures message == Filter(bonds, B.Touches(Particles()[keep..]))
      ensures |removed| == |bonds|
      ensures forall i :: 0 <= i < |bonds| ==> removed[i] == !B.Touches(Particles()[..keep])(bonds[i])
    {
      message, removed := [], [];
      ghost var ps := Particles();
      for i := 0 to |bonds|
        invariant message == Filter(bonds[..i], B.Touches(ps[keep..]))
        invariant |removed| == i
        invariant forall j :: 0 <= j < i ==> removed[j] == !B.Touches(ps[..keep])(bonds[j])
      {
        var bond := bonds[i];
        var localA, localB := bond.a in rtag, bond.b in rtag;
        var goesA := localA && rtag[bond.a] >= keep;
        var goesB := localB && rtag[bond.b] >= keep;
        MemberIndex(bond.a, keep);
        MemberIndex(bond.b, keep);
        FilterTake(bonds, B.Touches(ps[keep..]), i);
        removed := removed + [(!localA || goesA) && (!localB || goesB)];
        if goesA || goesB {
          message := message + [bond];
        }
      }
      assert bonds[..|bonds|] == bonds;
    }

    lemma MemberIndex(t: nat, keep: nat)
      requires LocalOnly() && keep <= n
      ensures t in M.Tags(Particles()[keep..]) <==> t in rtag && rtag[t] >= keep
      ensures t in M.Tags(Particles()[..keep]) <==> t in rtag && rtag[t] < keep
    {
      var last, first := M.Tags(Particles()[keep..]), M.Tags(Particles()[..keep]);
      if t in rtag {
        if rtag[t] >= keep {
          assert last[rtag[t] - keep] == t;
        } else {
          assert first[rtag[t]] == t;
        }
      }
    }

    /** Remove the marked bonds and add the received ones that are not there already. */
    method UnpackRemoveBonds(received: seq<B.Bond>, removed: seq<bool>, ghost kept: B.Bond -> bool)
      requires |removed| == |bonds| && forall i :: 0 <= i < |bonds| ==> removed[i] == !kept(bonds[i])
      modifies this`bonds
      ensures bonds == B.Merged(Filter(old(bonds), kept), received)
    {
      var remaining: seq<B.Bond> := [];
      for i := 0 to |bonds|
        invariant bonds == old(bonds)
        invariant remaining == Filter(bonds[..i], kept)
      {
        FilterTake(bonds, kept, i);
        if !removed[i] {
          remaining := remaining + [bonds[i]];
        }
      }
      assert bonds[..|bonds|] == bonds;
      var added: seq<B.Bond> := [];
      for i := 0 to |received|
        invariant added == Filter(received[..i], B.NotIn(remaining))
      {
        FilterTake(received, B.NotIn(remaining), i);
        if received[i].tag !in B.BondTags(remaining) {
          added := added + [received[i]];
        }
      }
      assert received[..|received|] == received;
      bonds := remaining + added;
    }

    lemma TagsDistinct()
      requires LocalOnly()
      ensures M.DistinctTags(Particles())
    {
      assert forall i :: 0 <= i < n ==> M.TagOf(Particles()[i]) == tag[i];
    }

    /** The sending half of one direction: sort, select bonds, pack. */
    method Send(dom: Domain, d: Dir) returns (message: seq<M.Particle>, bondMessage: seq<B.Bond>, removed: seq<bool>)
      requires dom.Valid() && LocalOnly()
      modifies this
      ensures LocalOnly() && bonds == old(bonds)
      ensures Particles() == M.Kept(dom, coord, old(Particles()), d)
      ensures message == M.Leaving(dom, coord, old(Particles()), d)
      ensures bondMessage == Filter(bonds, B.Touches(message))
      ensures |removed| == |bonds| && forall i :: 0 <= i < |bonds| ==> removed[i] == !B.Touches(Particles())(bonds[i])
    {
      ghost var ps := Particles();
      TagsDistinct();
      M.PartitionPermutes(dom, coord, ps, d);
      var nSend := Reorder(dom, d);
      SameTags(ps, old(tag));
      UpdateRtags();
      ghost var kept, sent := M.Kept(dom, coord, ps, d), M.Leaving(dom, coord, ps, d);
      assert Particles()[..n - nSend] == kept && Particles()[n - nSend..] == sent;
      bondMessage, removed := SelectBonds(n - nSend);
      message := PackLeaving(nSend);
    }

    lemma SameTags(ps: seq<M.Particle>, oldTag: seq<nat>)
      requires Shape() && |tag| == n && (forall p :: p in Particles() <==> p in ps)
      requires |oldTag| == |ps| && forall i :: 0 <= i < |ps| ==> ps[i].tag == oldTag[i]
      ensures forall t :: t in tag <==> t in oldTag
    {
      forall t | t in tag
        ensures t in oldTag
      {
        var i :| 0 <= i < n && tag[i] == t;
        assert Particles()[i] in ps;
      }
      forall t | t in oldTag
        ensures t in tag
      {
        var i :| 0 <= i < |ps| && oldTag[i] == t;
        assert ps[i] in Particles();
      }
    }

    // ------------------------------------------------------------ ghosts

    /** The array slots with their plans: local particles, then ghosts. */
    function Slots(): (es: seq<G.Copy>)
      requires Shape() && |plan| == |tag|
      reads this
      ensures |es| == |tag|
      ensures forall i :: 0 <= i < |es| ==> es[i] == G.Copy(tag[i], pos[i], attr[i], plan[i])
    {
      Copies(tag, pos, attr, plan)
    }

    /** One member of the bond is the particle of tag `t`, the other member is not local. */
    predicate Incomplete(b: B.Bond, t: nat)
      reads this
    {
      (b.a == t && b.b !in rtag) || (b.b == t && b.a !in rtag)
    }

    predicate InIncomplete(bs: seq<B.Bond>, t: nat)
      reads this
    {
      exists k :: 0 <= k < |bs| && Incomplete(bs[k], t)
    }

    /** Mark the local member of one bond, if the other one is not local. */
    method MarkBond(dom: Domain, b: B.Bond)
      requires dom.Valid() && LocalOnly() && |plan| == n
      modifies this`plan
      ensures |plan| == n
      ensures forall i :: 0 <= i < n ==>
                plan[i] == old(plan[i]) + if Incomplete(b, tag[i]) then Geo.BondPlan(Geo.Fractions(dom, coord, pos[i])) else {}
    {
      if b.a !in rtag && b.b in rtag {
        var i := rtag[b.b];
        plan := plan[i := plan[i] + Geo.BondPlan(Geo.Fractions(dom, coord, pos[i]))];
      } else if b.a in rtag && b.b !in rtag {
        var i := rtag[b.a];
        plan := plan[i := plan[i] + Geo.BondPlan(Geo.Fractions(dom, coord, pos[i]))];
      }
    }

    /** Mark the members of all incomplete bonds. */
    method MarkBonds(dom: Domain)
      requires dom.Valid() && LocalOnly() && plan == seq(n, _ => {})
      modifies this`plan
      ensures |plan| == n
      ensures forall i :: 0 <= i < n ==>
                plan[i] == if InIncomplete(bonds, tag[i]) then Geo.BondPlan(Geo.Fractions(dom, coord, pos[i])) else {}
    {
      for k := 0 to |bonds|
        invariant |plan| == n
        invariant forall i :: 0 <= i < n ==>
                    plan[i] == if InIncomplete(bonds[..k], tag[i]) then Geo.BondPlan(Geo.Fractions(dom, coord, pos[i])) else {}
      {
        MarkBond(dom, bonds[k]);
        forall t: nat
          ensures InIncomplete(bonds[..k + 1], t) <==> InIncomplete(bonds[..k], t) || Incomplete(bonds[k], t)
        {
          OneMoreBond(k, t);
        }
      }
      assert bonds[..|bonds|] == bonds;
    }

    lemma OneMoreBond(k: nat, t: nat)
      requires k < |bonds|
      ensures InIncomplete(bonds[..k + 1], t) <==> InIncomplete(bonds[..k], t) || Incomplete(bonds[k], t)
    {
      if InIncomplete(bonds[..k], t) {
        var j :| 0 <= j < k && Incomplete(bonds[..k][j], t);
        assert Incomplete(bonds[..k + 1][j], t);
      }
      if Incomplete(bonds[k], t) {
        assert Incomplete(bonds[..k + 1][k], t);
      }
    }

    /** Construct the plans of all local particles: members of incomplete bonds go towards the nearest
        planes, particles in the ghost layer across the nearby ones. */
    method MarkPlans(dom: Domain)
      requires dom.Valid() && LocalOnly()
      modifies this`plan
      ensures |plan| == n
      ensures forall i :: 0 <= i < n ==> plan[i] == Geo.MarkedPlan(dom, coord, pos[i], InIncomplete(bonds, tag[i]))
    {
      plan := seq(n, _ => {});
      MarkBonds(dom);
      MarkLayers(dom);
    }

    /** Mark the particles of the ghost layer. */
    method MarkLayers(dom: Domain)
      requires dom.Valid() && Shape() && |plan| == n
      modifies this`plan
      ensures |plan| == n
      ensures forall i :: 0 <= i < n ==> plan[i] == old(plan[i]) + Geo.LayerPlan(Geo.Fractions(dom, coord, pos[i]), Geo.LayerFraction(dom))
    {
      var width := Geo.LayerFraction(dom);
      for i := 0 to n
        invariant |plan| == n
        invariant forall j :: 0 <= j < i ==> plan[j] == old(plan[j]) + Geo.LayerPlan(Geo.Fractions(dom, coord, pos[j]), width)
        invariant forall j :: i <= j < n ==> plan[j] == old(plan[j])
      {
        plan := plan[i := MarkLayer(plan[i], Geo.Fractions(dom, coord, pos[i]), width)];
      }
    }

    /** Fill the send buffer of one direction and remember the tags. */
    method PackGhosts(d: Dir) returns (message: seq<G.Copy>)
      requires Shape() && |plan| == |tag|
      modifies this`copied
      ensures message == G.Sent(Slots(), d)
      ensures copied == old(copied)[d := G.Tags(message)]
    {
      message := [];
      var tags: seq<nat> := [];
      ghost var es := Slots();
      for i := 0 to |tag|
        invariant message == G.Sent(es[..i], d) && tags == G.Tags(message)
      {
        assert es[..i + 1][..i] == es[..i];
        if d in plan[i] {
          message := message + [G.Copy(tag[i], pos[i], attr[i], plan[i])];
          tags := tags + [tag[i]];
        }
      }
      assert es[..|tag|] == es;
      copied := copied[d := tags];
    }

    /** Append received ghosts, then wrap them and enter them into the reverse lookup,
        which must read NOT_LOCAL for each of them. */
    method AppendGhosts(dom: Domain, d: Dir, message: seq<G.Copy>)
      requires dom.Valid() && Shape() && |plan| == |tag| && RtagOk() && G.Distinct(message)
      requires forall i :: 0 <= i < |message| ==> message[i].tag !in rtag
      modifies this`tag, this`pos, this`attr, this`plan, this`rtag, this`received
      ensures Shape() && |plan| == |tag| && RtagOk()
      ensures Slots() == old(Slots()) + G.Received(dom, coord, message)
      ensures received == old(received)[d := |message|]
    {
      var start := |tag|;
      received := received[d := |message|];
      ReceiveSlots(dom, message);
      EnterTags(start);
    }

    /** Receive ghost data behind the slots that are there, and wrap them. */
    method ReceiveSlots(dom: Domain, message: seq<G.Copy>)
      requires dom.Valid() && Shape() && |plan| == |tag|
      modifies this`tag, this`pos, this`attr, this`plan
      ensures Shape() && |plan| == |tag| && Slots() == old(Slots()) + G.Received(dom, coord, message)
      ensures |tag| == old(|tag|) + |message| && tag[..old(|tag|)] == old(tag)
      ensures forall j :: old(|tag|) <= j < |tag| ==> tag[j] == message[j - old(|tag|)].tag
    {
      var start := |tag|;
      ghost var es := Slots();
      AddGhosts(message);
      ghost var raw := pos;
      WrapFrom(dom, start, |message|);
      AppendIsReceived(dom, coord, es, message, tag, raw, pos, attr, plan);
    }

    /** Make room for ghosts and receive their data. */
    method AddGhosts(message: seq<G.Copy>)
      requires Shape() && |plan| == |tag|
      modifies this`tag, this`pos, this`attr, this`plan
      ensures Shape() && |plan| == |tag| && Slots() == old(Slots()) + message
      ensures |tag| == old(|tag|) + |message| && tag[..old(|tag|)] == old(tag)
      ensures forall j :: old(|tag|) <= j < |tag| ==> tag[j] == message[j - old(|tag|)].tag
    {
      tag := tag + seq(|message|, i requires 0 <= i < |message| => message[i].tag);
      attr := attr + seq(|message|, i requires 0 <= i < |message| => message[i].attr);
      plan := plan + seq(|message|, i requires 0 <= i < |message| => message[i].plan);
      pos := pos + seq(|message|, i requires 0 <= i < |message| => message[i].pos);
    }

    /** Enter the slots from `start` on into the reverse lookup. */
    method EnterTags(start: nat)
      requires start <= |tag| && forall i, j :: start <= i < j < |tag| ==> tag[i] != tag[j]
      requires forall i :: start <= i < |tag| ==> tag[i] !in rtag
      requires forall i :: 0 <= i < start ==> tag[i] in rtag && rtag[tag[i]] == i
      requires forall t :: t in rtag ==> rtag[t] < start && tag[rtag[t]] == t
      modifies this`rtag
      ensures RtagOk()
    {
      for i := start to |tag|
        invariant forall j :: i <= j < |tag| ==> tag[j] !in rtag
        invariant forall j :: 0 <= j < i ==> tag[j] in rtag && rtag[tag[j]] == j
        invariant forall t :: t in rtag ==> rtag[t] < i && tag[rtag[t]] == t
      {
        rtag := rtag[tag[i] := i];
      }
    }

    /** Apply the shifted global boundary conditions to `count` slots from `start` on. */
    method WrapFrom(dom: Domain, start: nat, count: nat)
      requires dom.Valid() && start + count <= |pos|
      modifies this`pos
      ensures |pos| == |old(pos)|
      ensures pos == U.Overwrite(old(pos), start, U.WrapAll(dom, coord, old(pos)[start..start + count]))
    {
      for i := start to start + count
        invariant |pos| == |old(pos)|
        invariant forall j :: start <= j < i ==> pos[j] == G.WrapPos(dom, coord, old(pos)[j])
        invariant forall j :: 0 <= j < start || i <= j < |pos| ==> pos[j] == old(pos)[j]
      {
        pos := pos[i := G.WrapPos(dom, coord, pos[i])];
      }
      WrappedIsOverwritten(dom, coord, old(pos), pos, start, count);
    }

    // ------------------------------------------------------------ refreshing ghosts

    /** What is remembered from the last exchange. */
    function Remembered(): U.Lists
      reads this
    {
      var cs, rs := copied, received;
      U.Memory(n, seq(6, d => if d in cs then cs[d] else []), seq(6, d => if d in rs then rs[d] else 0), rtag)
    }

    /** Look up the current positions of the remembered tags. */
    method PackPositions(d: Dir) returns (message: seq<V3<real>>)
      requires var tags := Remembered().copied[d]; forall k :: 0 <= k < |tags| ==> tags[k] in rtag && rtag[tags[k]] < |pos|
      ensures message == U.Packed(Remembered(), pos, Remembered().copied[d])
    {
      message := [];
      var tags := Remembered().copied[d];
      for k := 0 to |tags|
        invariant message == U.Packed(Remembered(), pos, tags)[..k]
      {
        message := message + [pos[rtag[tags[k]]]];
      }
    }

    /** Write received positions over the slots from `start` on, and wrap them. */
    method OverwritePositions(dom: Domain, start: nat, message: seq<V3<real>>)
      requires dom.Valid() && start + |message| <= |pos|
      modifies this`pos
      ensures pos == U.Overwrite(old(pos), start, U.WrapAll(dom, coord, message))
    {
      OverwriteTwice(pos, start, message, U.WrapAll(dom, coord, message));
      pos := pos[..start] + message + pos[start + |message|..];
      assert pos == U.Overwrite(old(pos), start, message);
      WrapFrom(dom, start, |message|);
    }
  }

  /** The ghost-layer test: one comparison per direction. */
  function MarkLayer(plan: set<Dir>, f: V3<real>, width: V3<real>): (r: set<Dir>)
    ensures r == plan + Geo.LayerPlan(f, width)
  {
    plan
    + (if f.x >= 1.0 - width.x then {0} else {}) + (if f.x < width.x then {1} else {})
    + (if f.y >= 1.0 - width.y then {2} else {}) + (if f.y < width.y then {3} else {})
    + (if f.z >= 1.0 - width.z then {4} else {}) + (if f.z < width.z then {5} else {})
  }
}
