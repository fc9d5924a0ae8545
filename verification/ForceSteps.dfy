/** A force computation of the simulation: it brings the neighbour list up to date and works it off as it is. On most time
    steps the list was built at earlier positions; the result is nevertheless the sum over all pairs that interact now. */
module ForceSteps {
  import opened Vectors
  import opened Distances
  import opened Verlet
  import opened NeighborSpec
  import opened NeighborLists
  import opened PairSums
  import opened PairForces
  import opened PairTerms

  /** Nobody is excluded from himself, and the exclusion by body does not depend on the order of the pair. */
  lemma BodySymmetric(s: System, p: Params, i: nat, k: nat)
    requires i < |s.body| && k < |s.body|
    ensures BodyExcluded(s, p, i, k) <==> BodyExcluded(s, p, k, i)
  {
  }

  /** A pair that counts now is linked by the list, and a link that does not count now contributes nothing. */
  lemma LinksThatCount(list: NeighborList, m: Model, i: nat, k: nat)
    requires list.Valid() && !list.force && list.lastChecked == list.now && list.ChecksSuffice()
    requires Ready(list.sys, m) && 0.0 <= m.rCut <= list.params.rCut && i < list.sys.n && k < list.sys.n
    ensures Dispensable(PairOf(list.sys, m), AllLinks(list.built, list.params, list.exTag),
                        CutOffLink(list.sys, m, list.params, list.exTag), i, k)
  {
    var s, b, p := list.sys, list.built, list.params;
    BodySymmetric(s, p, i, k);
    if CutOffLink(s, m, p, list.exTag)(i, k) {
      CutOffInteracts(s, m, i, k, p.rCut);
      if i < k {
        list.PairAccepted(i, k);
      } else {
        list.PairAccepted(k, i);
      }
    }
  }

  /** With checks that suffice, working off the cached lists gives the sum over all pairs within the cut-off now. */
  lemma CachedListsSuffice(list: NeighborList, m: Model)
    requires list.Valid() && !list.force && list.lastChecked == list.now && list.ChecksSuffice()
    requires Ready(list.sys, m) && m.Valid() && m.rCut <= list.params.rCut
    ensures Accumulated(PairOf(list.sys, m), list.params.storage == Half, list.nlist, list.sys.n, list.sys.n)
            == BruteForce(list.sys, m, list.params, list.exTag)
  {
    var s, b, p, ex := list.sys, list.built, list.params, list.exTag;
    if s.n > 0 {
      list.StillWide();
    }
    assert list.nlist == FinalLists(b, p, ex);
    ListsGiveSum(b, s, m, p, ex);
    forall i: nat | i < s.n
      ensures Acc(PairOf(s, m), AllLinks(b, p, ex), i, s.n) == Acc(PairOf(s, m), CutOffLink(s, m, p, ex), i, s.n)
    {
      forall k: nat | k < s.n
        ensures Dispensable(PairOf(s, m), AllLinks(b, p, ex), CutOffLink(s, m, p, ex), i, k)
      {
        LinksThatCount(list, m, i, k);
      }
      AccPruned(PairOf(s, m), AllLinks(b, p, ex), CutOffLink(s, m, p, ex), i, s.n);
    }
  }

  /** Compute the forces of one time step. Whenever this returns normally, the forces are what the code accumulates over
      the lists at hand; and with checks that suffice they are, in either storage mode, the sum over all pairs that are
      within the cut-off now and not excluded, and add up to zero. */
  method ComputeForces(list: NeighborList, pairs: PairForceCompute, t: nat) returns (r: Outcome)
    requires list.Valid() && t == list.now && list.sys.n == list.sys.Total()
    requires Ready(list.sys, pairs.model) && pairs.model.Valid()
    modifies list`nMax, list`nlist, list`nNeigh, list`conditions, list`exIdx, list`lastPos, list`lastL, list`built
    modifies list`force, list`lastUpdated, list`lastChecked, list`lastCheckResult
    modifies list`firstCompute, list`lastComputed, list`forceCompute, list`computations, pairs`force
    ensures r.Ok? ==> list.Valid() && !list.force && list.lastChecked == t
    ensures r.Ok? ==> |list.nlist| == list.sys.n
    ensures r.Ok? && (list.every <= 1 || t >= old(list.lastUpdated) + list.every) ==> list.Checked()
    ensures r.Ok? ==>
              pairs.force == Accumulated(PairOf(list.sys, pairs.model), list.params.storage == Half, list.nlist, list.sys.n, list.sys.n)
    ensures r.Ok? && list.ChecksSuffice() && pairs.model.rCut <= list.params.rCut ==>
              && pairs.force == BruteForce(list.sys, pairs.model, list.params, list.exTag)
              && SumsOfTerms(pairs.force, list.sys, pairs.model, list.params, list.exTag)
              && SumOfForces(pairs.force) == V3(0.0, 0.0, 0.0)
    ensures !r.Ok? ==> pairs.force == old(pairs.force)
  {
    r := list.Compute(t);
    if r.Ok? {
      EntriesAreLocal(list);
      pairs.Accumulate(list.sys, list.params.storage == Half, list.nlist);
      if list.ChecksSuffice() && pairs.model.rCut <= list.params.rCut {
        CachedListsSuffice(list, pairs.model);
        NothingInTotal(list, pairs.model);
        BruteForceIsSum(list.sys, pairs.model, list.params, list.exTag);
      }
    }
  }

  lemma EntriesAreLocal(list: NeighborList)
    requires list.Valid() && !list.force && list.sys.n == list.sys.Total()
    ensures |list.nlist| == list.sys.n
    ensures forall i, j :: 0 <= i < list.sys.n && 0 <= j < |list.nlist[i]| ==> list.nlist[i][j] < list.sys.n
  {
    forall i, j | 0 <= i < list.sys.n && 0 <= j < |list.nlist[i]|
      ensures list.nlist[i][j] < list.sys.n
    {
      assert list.nlist[i] == FinalList(list.built, list.params, list.exTag, i);
      ListEntries(list.built, list.params, list.exTag, i, j);
    }
  }

  lemma NothingInTotal(list: NeighborList, m: Model)
    requires list.Valid() && !list.force && list.lastChecked == list.now && list.ChecksSuffice()
    requires Ready(list.sys, m) && m.Valid() && m.rCut <= list.params.rCut
    ensures SumOfForces(BruteForce(list.sys, m, list.params, list.exTag)) == V3(0.0, 0.0, 0.0)
  {
    var s, pair, link := list.sys, PairOf(list.sys, m), CutOffLink(list.sys, m, list.params, list.exTag);
    if s.n > 0 {
      list.StillWide();
    }
    PairsReact(s, m);
    forall i: nat, k: nat
      ensures (link(i, k) <==> link(k, i)) && !link(i, i)
    {
      if i < s.n && k < s.n {
        BodySymmetric(s, list.params, i, k);
        Reversed(s.L, Minus(s.pos[i], s.pos[k]), m.rCut);
        assert Minus(s.pos[k], s.pos[i]) == Negative(Minus(s.pos[i], s.pos[k]));
      }
    }
    NoTotalForce(pair, link, s.n);
  }
}
