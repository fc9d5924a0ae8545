/** Sums of pair contributions over neighbour lists, for any pair function. */
module PairSums {
  import opened Vectors
  import opened Distances
  import opened Sequences

  // ------------------------------------------------------------ what a pair contributes

  datatype Virial = Virial(xx: real, xy: real, xz: real, yy: real, yz: real, zz: real)

  /** Force, potential energy and virial of a particle. */
  datatype Tally = Tally(force: V3<real>, energy: real, virial: Virial)

  const Nothing: Tally := Tally(V3(0.0, 0.0, 0.0), 0.0, Virial(0.0, 0.0, 0.0, 0.0, 0.0, 0.0))

  function Add(a: Tally, b: Tally): Tally {
    Tally(Plus(a.force, b.force), a.energy + b.energy,
          Virial(a.virial.xx + b.virial.xx, a.virial.xy + b.virial.xy, a.virial.xz + b.virial.xz,
                 a.virial.yy + b.virial.yy, a.virial.yz + b.virial.yz, a.virial.zz + b.virial.zz))
  }

  function Negative(v: V3<real>): V3<real> {
    V3(-v.x, -v.y, -v.z)
  }

  /** What the other particle of the pair gets: the opposite force, the same energy and virial. */
  function Reaction(a: Tally): Tally {
    a.(force := Negative(a.force))
  }

  /** The contribution of the second particle to the first one. */
  type Pairs = (nat, nat) -> Tally

  type Links = (nat, nat) -> bool

  /** Newton's third law. */
  ghost predicate Reacting(pair: Pairs) {
    forall i: nat, k: nat :: pair(k, i) == Reaction(pair(i, k))
  }

  ghost predicate SymmetricLinks(link: Links) {
    forall i: nat, k: nat :: (link(i, k) <==> link(k, i)) && !link(i, i)
  }

  /** The particles below `u` that particle `i` is linked with; in a half list only those after it. */
  function Selected(link: Links, half: bool, i: nat, u: nat): seq<nat> {
    if u == 0 then []
    else if link(i, u - 1) && (half ==> i < u - 1) then Selected(link, half, i, u - 1) + [u - 1]
    else Selected(link, half, i, u - 1)
  }

  /** Particle `k` belongs into the list. */
  predicate Picked(link: Links, half: bool, i: nat, k: nat) {
    link(i, k) && (half ==> i < k)
  }

  lemma {:induction false} SelectedMeans(link: Links, half: bool, i: nat, u: nat)
    ensures Increasing(Selected(link, half, i, u))
    ensures forall k: nat :: k in Selected(link, half, i, u) <==> k < u && Picked(link, half, i, k)
  {
    if u > 0 {
      SelectedMeans(link, half, i, u - 1);
      var before, ks := Selected(link, half, i, u - 1), Selected(link, half, i, u);
      assert ks == before + if Picked(link, half, i, u - 1) then [u - 1] else [];
      assert forall j :: 0 <= j < |before| ==> before[j] in before;
    }
  }

  /** Contributions of all linked particles below `u` to particle `i`, in index order. */
  function Acc(pair: Pairs, link: Links, i: nat, u: nat): Tally {
    if u == 0 then Nothing
    else if link(i, u - 1) then Add(Acc(pair, link, i, u - 1), pair(i, u - 1))
    else Acc(pair, link, i, u - 1)
  }

  /** Contributions of the listed particles to particle `i`. */
  function SumOver(pair: Pairs, i: nat, ks: seq<nat>): Tally {
    if ks == [] then Nothing else Add(SumOver(pair, i, ks[..|ks| - 1]), pair(i, ks[|ks| - 1]))
  }

  lemma AddAssociates(a: Tally, b: Tally, c: Tally)
    ensures Add(a, Add(b, c)) == Add(Add(a, b), c)
    ensures Add(a, Nothing) == a && Add(Nothing, a) == a
  {
  }

  lemma SumOverAppend(pair: Pairs, i: nat, ks: seq<nat>, k: nat)
    ensures SumOver(pair, i, ks + [k]) == Add(SumOver(pair, i, ks), pair(i, k))
  {
    assert (ks + [k])[..|ks|] == ks;
  }

  /** What is on a particle before its own list is worked off: with a half list, the reactions of all earlier ones. */
  function Reactions(pair: Pairs, link: Links, half: bool, i: nat): Tally {
    if half then Acc(pair, link, i, i) else Nothing
  }

  lemma {:induction false} HalfStartsLater(link: Links, i: nat, u: nat)
    requires u <= i + 1
    ensures Selected(link, true, i, u) == []
  {
    if u > 0 {
      HalfStartsLater(link, i, u - 1);
    }
  }

  /** Together with what is there already, the list of particle `i` contributes everything below `u`. */
  ghost predicate SumsUp(pair: Pairs, link: Links, half: bool, i: nat, u: nat) {
    Add(Reactions(pair, link, half, i), SumOver(pair, i, Selected(link, half, i, u))) == Acc(pair, link, i, u)
  }

  lemma SumsUpStart(pair: Pairs, link: Links, half: bool, i: nat, u: nat)
    requires u == if half then i else 0
    ensures SumsUp(pair, link, half, i, u)
  {
    if half {
      HalfStartsLater(link, i, u);
    }
    AddAssociates(Acc(pair, link, i, u), Nothing, Nothing);
  }

  lemma SumsUpStep(pair: Pairs, link: Links, half: bool, i: nat, u: nat)
    requires u > 0 && (half ==> i < u) && !link(i, i) && SumsUp(pair, link, half, i, u - 1)
    ensures SumsUp(pair, link, half, i, u)
  {
    var ks := Selected(link, half, i, u - 1);
    if link(i, u - 1) {
      AddAssociates(Reactions(pair, link, half, i), SumOver(pair, i, ks), pair(i, u - 1));
      SumOverAppend(pair, i, ks, u - 1);
    }
  }

  /** A full list contributes everything, and so does a half list together with the reactions of earlier particles. */
  lemma ListSum(pair: Pairs, link: Links, half: bool, i: nat, u: nat)
    requires (half ==> i <= u) && !link(i, i)
    ensures SumsUp(pair, link, half, i, u)
  {
    var start: nat := if half then i else 0;
    SumsUpStart(pair, link, half, i, start);
    for v := start to u
      invariant SumsUp(pair, link, half, i, v)
    {
      SumsUpStep(pair, link, half, i, v + 1);
    }
  }

  // ------------------------------------------------------------ the forces add up to zero

  /** Sum of the forces on the first `v` particles from all particles below `u`. */
  function TotalForce(pair: Pairs, link: Links, v: nat, u: nat): V3<real> {
    if v == 0 then V3(0.0, 0.0, 0.0)
    else Plus(TotalForce(pair, link, v - 1, u), Acc(pair, link, v - 1, u).force)
  }

  /** Taking one more particle into account changes the total by minus the force on that particle. */
  lemma {:induction false} OneMoreSource(pair: Pairs, link: Links, v: nat, u: nat)
    requires Reacting(pair) && SymmetricLinks(link) && v <= u
    ensures TotalForce(pair, link, v, u + 1) == Minus(TotalForce(pair, link, v, u), Acc(pair, link, u, v).force)
  {
    if v > 0 {
      OneMoreSource(pair, link, v - 1, u);
      assert pair(v - 1, u) == Reaction(pair(u, v - 1));
      assert link(v - 1, u) <==> link(u, v - 1);
    }
  }

  /** Action and reaction cancel: the forces of all particles on each other add up to zero. */
  lemma {:induction false} ForcesCancel(pair: Pairs, link: Links, u: nat)
    requires Reacting(pair) && SymmetricLinks(link)
    ensures TotalForce(pair, link, u, u) == V3(0.0, 0.0, 0.0)
  {
    if u > 0 {
      ForcesCancel(pair, link, u - 1);
      OneMoreSource(pair, link, u - 1, u - 1);
      assert !link(u - 1, u - 1);
    }
  }

  // ------------------------------------------------------------ accumulation

  /** What every particle has when the first `i` lists have been worked off. */
  function Stage(pair: Pairs, link: Links, half: bool, n: nat, i: nat): (ts: seq<Tally>)
    ensures |ts| == n
    ensures forall q :: 0 <= q < n ==> ts[q] == if q < i then Acc(pair, link, q, n) else if half then Acc(pair, link, q, i) else Nothing
  {
    seq(n, q requires 0 <= q < n => if q < i then Acc(pair, link, q, n) else if half then Acc(pair, link, q, i) else Nothing)
  }

  /** The reactions that entries of the list of particle `i` put on the others. */
  function Reacted(pair: Pairs, ts: seq<Tally>, half: bool, i: nat, ks: seq<nat>): (r: seq<Tally>)
    ensures |r| == |ts|
  {
    if ks == [] || !half then ts
    else
      var before := Reacted(pair, ts, half, i, ks[..|ks| - 1]);
      var k := ks[|ks| - 1];
      if k < |before| then before[k := Add(before[k], Reaction(pair(i, k)))] else before
  }

  lemma ReactedAppend(pair: Pairs, ts: seq<Tally>, half: bool, i: nat, ks: seq<nat>, k: nat)
    requires k < |ts|
    ensures var before := Reacted(pair, ts, half, i, ks);
            Reacted(pair, ts, half, i, ks + [k]) == if half then before[k := Add(before[k], Reaction(pair(i, k)))] else before
  {
    assert (ks + [k])[..|ks|] == ks;
  }

  lemma {:induction false} ReactedAt(pair: Pairs, ts: seq<Tally>, half: bool, i: nat, ks: seq<nat>, q: nat)
    requires Increasing(ks) && q < |ts|
    ensures Reacted(pair, ts, half, i, ks)[q] == if half && q in ks then Add(ts[q], Reaction(pair(i, q))) else ts[q]
    decreases |ks|
  {
    if ks != [] && half {
      var rest, k := ks[..|ks| - 1], ks[|ks| - 1];
      ReactedAt(pair, ts, half, i, rest, q);
      assert ks == rest + [k];
      assert Increasing(rest) && k !in rest;
    }
  }

  /** One particle's tally when the list of particle `i` is worked off. */
  lemma NextTally(pair: Pairs, link: Links, half: bool, n: nat, i: nat, q: nat)
    requires i < n && q < n && !link(i, i) && (half ==> Reacting(pair) && SymmetricLinks(link))
    ensures var ks := Selected(link, half, i, n);
            var ts := Reacted(pair, Stage(pair, link, half, n, i), half, i, ks);
            (if q == i then Add(ts[i], SumOver(pair, i, ks)) else ts[q]) == Stage(pair, link, half, n, i + 1)[q]
  {
    var ks := Selected(link, half, i, n);
    SelectedMeans(link, half, i, n);
    ListSum(pair, link, half, i, n);
    ReactedAt(pair, Stage(pair, link, half, n, i), half, i, ks, q);
    if half {
      assert link(i, q) <==> link(q, i);
      assert pair(q, i) == Reaction(pair(i, q));
      assert q in ks <==> Picked(link, true, i, q);
    }
  }

  /** Working off the list of particle `i` leads from one stage to the next. */
  lemma NextStage(pair: Pairs, link: Links, half: bool, n: nat, i: nat)
    requires i < n && !link(i, i) && (half ==> Reacting(pair) && SymmetricLinks(link))
    ensures var ks := Selected(link, half, i, n);
            var ts := Reacted(pair, Stage(pair, link, half, n, i), half, i, ks);
            ts[i := Add(ts[i], SumOver(pair, i, ks))] == Stage(pair, link, half, n, i + 1)
  {
    var ks := Selected(link, half, i, n);
    var ts := Reacted(pair, Stage(pair, link, half, n, i), half, i, ks);
    var after := ts[i := Add(ts[i], SumOver(pair, i, ks))];
    forall q: nat | q < n
      ensures after[q] == Stage(pair, link, half, n, i + 1)[q]
    {
      NextTally(pair, link, half, n, i, q);
    }
  }

  /** The final tallies: for every particle the sum over all particles that it is linked with. */
  function AllTallies(pair: Pairs, link: Links, n: nat): (ts: seq<Tally>)
    ensures |ts| == n && forall q :: 0 <= q < n ==> ts[q] == Acc(pair, link, q, n)
  {
    seq(n, q requires 0 <= q < n => Acc(pair, link, q, n))
  }

  lemma FirstStage(pair: Pairs, link: Links, half: bool, n: nat)
    ensures Stage(pair, link, half, n, 0) == seq(n, _ => Nothing)
    ensures Stage(pair, link, half, n, n) == AllTallies(pair, link, n)
  {
  }

  // ------------------------------------------------------------ half and full lists

  /** What the code accumulates when it has worked off the first `i` lists: the contributions of the listed particles to
      the owner of the list, and with a half list also the reactions on the listed particles. */
  function Accumulated(pair: Pairs, half: bool, lists: seq<seq<nat>>, n: nat, i: nat): (ts: seq<Tally>)
    requires i <= n <= |lists|
    ensures |ts| == n
  {
    if i == 0 then seq(n, _ => Nothing)
    else
      var ts := Reacted(pair, Accumulated(pair, half, lists, n, i - 1), half, i - 1, lists[i - 1]);
      ts[i - 1 := Add(ts[i - 1], SumOver(pair, i - 1, lists[i - 1]))]
  }

  function Lists(link: Links, half: bool, n: nat): (lists: seq<seq<nat>>)
    ensures |lists| == n && forall i :: 0 <= i < n ==> lists[i] == Selected(link, half, i, n)
  {
    seq(n, i requires 0 <= i < n => Selected(link, half, i, n))
  }

  /** Full lists always give the sum over all links. Half lists do if links are symmetric and pairs obey the third law. */
  lemma AccumulatedIsSum(pair: Pairs, link: Links, half: bool, n: nat)
    requires (forall i: nat :: !link(i, i)) && (half ==> Reacting(pair) && SymmetricLinks(link))
    ensures Accumulated(pair, half, Lists(link, half, n), n, n) == AllTallies(pair, link, n)
  {
    FirstStage(pair, link, half, n);
    for i := 0 to n
      invariant Accumulated(pair, half, Lists(link, half, n), n, i) == Stage(pair, link, half, n, i)
    {
      NextAccumulated(pair, link, half, n, i);
    }
  }

  lemma NextAccumulated(pair: Pairs, link: Links, half: bool, n: nat, i: nat)
    requires i < n && !link(i, i) && (half ==> Reacting(pair) && SymmetricLinks(link))
    requires Accumulated(pair, half, Lists(link, half, n), n, i) == Stage(pair, link, half, n, i)
    ensures Accumulated(pair, half, Lists(link, half, n), n, i + 1) == Stage(pair, link, half, n, i + 1)
  {
    NextStage(pair, link, half, n, i);
    assert Lists(link, half, n)[i] == Selected(link, half, i, n);
  }

  /** Leaving out this link changes nothing. */
  ghost predicate Dispensable(pair: Pairs, link: Links, fewer: Links, i: nat, k: nat) {
    (fewer(i, k) ==> link(i, k)) && (link(i, k) && !fewer(i, k) ==> pair(i, k) == Nothing)
  }

  lemma AccPrunedStep(pair: Pairs, link: Links, fewer: Links, i: nat, u: nat)
    requires u > 0 && Dispensable(pair, link, fewer, i, u - 1) && Acc(pair, link, i, u - 1) == Acc(pair, fewer, i, u - 1)
    ensures Acc(pair, link, i, u) == Acc(pair, fewer, i, u)
  {
    var before, more := Acc(pair, link, i, u - 1), pair(i, u - 1);
    AccStep(pair, link, i, u);
    AccStep(pair, fewer, i, u);
    if more == Nothing {
      AddNothing(before, more);
    }
  }

  lemma AccStep(pair: Pairs, link: Links, i: nat, u: nat)
    requires u > 0
    ensures Acc(pair, link, i, u) == if link(i, u - 1) then Add(Acc(pair, link, i, u - 1), pair(i, u - 1)) else Acc(pair, link, i, u - 1)
  {
  }

  lemma AddNothing(a: Tally, b: Tally)
    requires b == Nothing
    ensures Add(a, b) == a
  {
  }

  /** Links over which nothing is contributed do not matter. */
  lemma {:induction false} AccPruned(pair: Pairs, link: Links, fewer: Links, i: nat, u: nat)
    requires forall k: nat :: k < u ==> Dispensable(pair, link, fewer, i, k)
    ensures Acc(pair, link, i, u) == Acc(pair, fewer, i, u)
  {
    if u > 0 {
      AccPruned(pair, link, fewer, i, u - 1);
      AccPrunedStep(pair, link, fewer, i, u);
    }
  }
}
