/** The Verlet neighbour list: a cache of "all pairs within the list radius" that is rebuilt only
    when particles have moved too far, when it is forced, or when its memory has overflowed. */
module NeighborLists {
  import opened Arithmetic
  import opened Vectors
  import opened Distances
  import opened Verlet
  import opened Sequences
  import opened NeighborSpec
  import opened Overflow

  datatype Outcome = Ok | BoxTooSmall

  /** All tags have a row in the table of exclusions. */
  predicate TagsIn(s: System, ex: Exclusions) {
    forall i :: 0 <= i < |s.tag| ==> s.tag[i] < |ex|
  }

  predicate NoExclusions(ex: Exclusions) {
    forall t :: 0 <= t < |ex| ==> ex[t] == []
  }

  /** The indices are the translated exclusions of the particles. */
  ghost predicate AreTranslated(s: System, ex: Exclusions, idx: seq<seq<int>>)
    requires s.Valid() && TagsIn(s, ex)
  {
    |idx| == s.n && forall i :: 0 <= i < s.n ==> idx[i] == Translated(ex[s.tag[i]], s.rtag)
  }

  /** These are the final lists of the system `b`. */
  ghost predicate AreLists(b: System, p: Params, ex: Exclusions, lists: seq<seq<nat>>, sizes: seq<nat>)
    requires b.Valid() && forall i :: 0 <= i < b.n ==> b.tag[i] < |ex|
  {
    |lists| == |sizes| == b.n && forall i :: 0 <= i < b.n ==> lists[i] == FinalList(b, p, ex, i) && sizes[i] == |lists[i]|
  }

  /** All drifts are below the bound from which on the lists have to be rebuilt. */
  ghost predicate AllBelow(s: System, p: Params, lastPos: seq<V3<real>>, lastL: V3<real>)
    requires Proper(s.L) && Proper(lastL) && s.n <= |s.pos| && s.n <= |lastPos|
  {
    forall i :: 0 <= i < s.n ==> Square(Drift(s.L, lastL, s.pos[i], lastPos[i])) < MaxSquare(s, p, lastL)
  }

  class NeighborList {
    // list memory: nMax entries per particle are stored, nNeigh counts also those that did not fit
    var nMax: nat
    var nlist: seq<seq<nat>>
    var nNeigh: seq<nat>
    // largest overflowed count of the last build
    var conditions: nat

    // excluded tags and their translation to array indices
    var exTag: Exclusions
    var exHeight: nat
    var exIdx: seq<seq<int>>
    var exclusionsSet: bool

    // positions and box at the last build
    var lastPos: seq<V3<real>>
    var lastL: V3<real>

    // parameters
    var params: Params
    var every: nat
    var distCheck: bool

    // rebuild state
    var force: bool
    var lastUpdated: nat
    var lastChecked: nat
    var lastCheckResult: bool

    // caching of computations
    var firstCompute: bool
    var lastComputed: nat
    var forceCompute: bool

    // the particles that the list belongs to
    var sys: System

    // the present time step, and the particles as they were at the last build
    ghost var now: nat
    ghost var built: System
    // how often the lists have been brought up to date
    ghost var computations: nat

    constructor (particles: System, p: Params, nGlobal: nat)
      requires particles.Valid() && p.Sensible() && (p.storage == Full ==> particles.n == particles.Total())
      requires forall i :: 0 <= i < |particles.tag| ==> particles.tag[i] < nGlobal
      ensures Valid() && now == 0 && sys == particles && force && params == p && every == 0 && distCheck
      ensures |exTag| == nGlobal && (forall t :: 0 <= t < nGlobal ==> exTag[t] == []) && exIdx == seq(particles.n, _ => [])
      ensures lastChecked == 0 && lastCheckResult
    {
      nMax, nlist, nNeigh, conditions := 8, [], [], 0;
      exTag, exHeight, exIdx, exclusionsSet := seq(nGlobal, _ => []), 1, seq(particles.n, _ => []), false;
      lastPos, lastL := [], particles.L;
      params, every, distCheck := p, 0, true;
      force, lastUpdated, lastChecked, lastCheckResult := true, 0, 0, true;
      firstCompute, lastComputed, forceCompute := true, 0, false;
      sys, now, built, computations := particles, 0, particles, 0;
    }

    // ------------------------------------------------------------ invariant

    ghost predicate Sound()
      reads this
    {
      && sys.Valid() && params.Sensible() && (params.storage == Full ==> sys.n == sys.Total())
      && TagsIn(sys, exTag) && SoundExclusions(exTag, exHeight) && (!exclusionsSet ==> NoExclusions(exTag))
      && lastUpdated <= lastChecked <= now && lastComputed <= now
      && (lastUpdated == lastChecked ==> lastCheckResult)
    }

    /** The exclusion indices refer to the present particle order and exclusions. */
    ghost predicate IndicesFresh()
      requires Sound()
      reads this
    {
      exclusionsSet ==> AreTranslated(sys, exTag, exIdx)
    }

    /** The lists are exactly those of the particles `b`. */
    ghost predicate ListsOf(b: System)
      requires b.Valid() && forall i :: 0 <= i < b.n ==> b.tag[i] < |exTag|
      reads this
    {
      AreLists(b, params, exTag, nlist, nNeigh)
    }

    /** The lists are those of the last build, and no particle has changed its index since. */
    ghost predicate Current()
      requires Sound()
      reads this
    {
      && built.Valid() && built.SameOrder(sys) && ListsOf(built) && IndicesFresh()
      && |lastPos| == sys.n && lastPos == built.pos[..sys.n] && lastL == built.L
      && 2.0 * params.RMax() < built.L.x && 2.0 * params.RMax() < built.L.y && 2.0 * params.RMax() < built.L.z
    }

    /** No particle has drifted as far as the buffer allows, beyond the dilation of the box. */
    ghost predicate NobodyTooFar()
      requires Sound() && Current()
      reads this
    {
      AllBelow(sys, params, lastPos, lastL)
    }

    /** The last check was made on the present positions, and what it said is still so: a check that is due under the
        check period and does not ask for an update says that no particle has drifted too far. */
    ghost predicate CheckHolds()
      requires Sound() && Current()
      reads this
    {
      && (lastCheckResult ==> built.pos == sys.pos && built.L == sys.L)
      && (!lastCheckResult && now >= lastUpdated + every ==> NobodyTooFar())
    }

    /** Unless an update is pending, the lists are current; and if this time step has been checked or
        computed already, the result of that is still valid. */
    ghost predicate Valid()
      reads this
    {
      && Consistent()
      && (!force && !firstCompute && lastComputed == now ==> lastChecked == now)
    }

    ghost predicate Consistent()
      reads this
    {
      && Sound()
      && (!force ==> Current())
      && (!force && lastChecked == now ==> CheckHolds())
    }

    // ------------------------------------------------------------ what happens between computations

    method ForceUpdate()
      requires Sound()
      modifies this`force
      ensures Valid() && force
    {
      force := true;
    }

    method SetEvery(n: nat, check: bool)
      requires Valid()
      modifies this`every, this`distCheck, this`force
      ensures Valid() && force && every == n && distCheck == check
    {
      every, distCheck := n, check;
      ForceUpdate();
    }

    method SetStorageMode(mode: Storage)
      requires Valid() && (mode == Full ==> sys.n == sys.Total())
      modifies this`params, this`force
      ensures Valid() && force && params == old(params).(storage := mode)
    {
      params := params.(storage := mode);
      ForceUpdate();
    }

    /** Time passes: particles move and the box may be rescaled, but nobody changes its index. */
    method Move(t: nat, pos: seq<V3<real>>, L: V3<real>)
      requires Valid() && t > now && |pos| == |sys.pos| && sys.(pos := pos, L := L).Valid()
      modifies this`sys, this`now
      ensures Valid() && now == t && sys == old(sys).(pos := pos, L := L)
    {
      sys, now := sys.(pos := pos, L := L), t;
    }

    /** The particle data have been sorted, or particles have migrated: the signal forces an update. */
    method Sort(particles: System)
      requires Sound() && particles.Valid() && (params.storage == Full ==> particles.n == particles.Total())
      requires forall i :: 0 <= i < |particles.tag| ==> particles.tag[i] < |exTag|
      modifies this`sys, this`force
      ensures Valid() && force && sys == particles
    {
      sys := particles;
      ForceUpdate();
    }

    // ------------------------------------------------------------ exclusions

    method IsExcluded(t: nat, u: nat) returns (r: bool)
      requires t < |exTag|
      ensures r <==> Excluded(exTag, t, u)
    {
      r := false;
      for k := 0 to |exTag[t]|
        invariant !r && u !in exTag[t][..k]
      {
        if exTag[t][k] == u {
          return true;
        }
      }
    }

    /** Exclude a pair of particles: both directions are recorded, unless they are already. */
    method AddExclusion(t: nat, u: nat)
      requires Valid() && t < |exTag| && u < |exTag| && t != u
      modifies this`exTag, this`exHeight, this`exclusionsSet, this`force
      ensures Valid() && exclusionsSet && |exTag| == old(|exTag|)
      ensures forall a: nat, b: nat :: Excluded(exTag, a, b) <==> old(Excluded(exTag, a, b)) || (a == t && b == u) || (a == u && b == t)
      ensures old(Excluded(exTag, t, u)) ==> exTag == old(exTag)
      ensures !old(Excluded(exTag, t, u)) ==> force
    {
      var already := IsExcluded(t, u);
      exclusionsSet := true;
      if already {
        return;
      }
      var grow := |exTag[t]| == exHeight || |exTag[u]| == exHeight;
      if grow {
        GrowExclusionList();
      }
      ghost var before := exTag;
      exTag := exTag[t := exTag[t] + [u]];
      exTag := exTag[u := exTag[u] + [t]];
      StillSound(before, exTag, exHeight, t, u);
      ForceUpdate();
    }

    /** Make room for one more exclusion per particle. */
    method GrowExclusionList()
      modifies this`exHeight, this`force
      ensures exHeight == old(exHeight) + 1 && force
    {
      exHeight := exHeight + 1;
      force := true;
    }

    /** Translate the excluded tags of all local particles to indices. */
    method UpdateExListIdx()
      requires Sound()
      modifies this`exIdx
      ensures Sound() && IndicesFresh()
    {
      exIdx := [];
      for i := 0 to sys.n
        invariant |exIdx| == i
        invariant forall k :: 0 <= k < i ==> exIdx[k] == Translated(exTag[sys.tag[k]], sys.rtag)
      {
        var tags := exTag[sys.tag[i]];
        var row: seq<int> := [];
        for offset := 0 to |tags|
          invariant row == Translated(tags, sys.rtag)[..offset]
        {
          row := row + [IndexOf(sys.rtag, tags[offset])];
        }
        exIdx := exIdx + [row];
      }
    }

    /** Regenerate one list without the excluded neighbours. */
    method FilterRow(i: nat)
      requires i < |nlist| == |nNeigh| && i < |exIdx|
      modifies this`nlist, this`nNeigh
      ensures nlist == old(nlist)[i := Filter(old(nlist[i]), NotAmong(exIdx[i]))]
      ensures nNeigh == old(nNeigh)[i := |nlist[i]|]
    {
      var row := nlist[i];
      var kept: seq<nat> := [];
      for k := 0 to |row|
        invariant kept == Filter(row[..k], NotAmong(exIdx[i]))
      {
        assert row[..k + 1][..k] == row[..k];
        var excluded := false;
        for e := 0 to |exIdx[i]|
          invariant excluded <==> row[k] in exIdx[i][..e]
        {
          if exIdx[i][e] == row[k] {
            excluded := true;
            assert exIdx[i][..e + 1] == exIdx[i][..e] + [exIdx[i][e]];
            assert row[k] in exIdx[i];
            break;
          }
        }
        assert exIdx[i][..|exIdx[i]|] == exIdx[i];
        if !excluded {
          kept := kept + [row[k]];
        }
      }
      assert row[..|row|] == row;
      nlist := nlist[i := kept];
      nNeigh := nNeigh[i := |kept|];
    }

    method FilterNlist()
      requires |nlist| == |nNeigh| == sys.n == |exIdx|
      modifies this`nlist, this`nNeigh
      ensures |nlist| == |nNeigh| == sys.n
      ensures forall i :: 0 <= i < sys.n ==> nlist[i] == Filter(old(nlist[i]), NotAmong(exIdx[i])) && nNeigh[i] == |nlist[i]|
    {
      for i := 0 to sys.n
        invariant |nlist| == |nNeigh| == sys.n
        invariant forall k :: 0 <= k < i ==> nlist[k] == Filter(old(nlist[k]), NotAmong(exIdx[k])) && nNeigh[k] == |nlist[k]|
        invariant forall k :: i <= k < sys.n ==> nlist[k] == old(nlist[k])
      {
        FilterRow(i);
      }
    }

    // ------------------------------------------------------------ building

    /** The memory stands for the rows `full`, as far as it reaches. */
    ghost predicate Holds(full: seq<seq<nat>>)
      reads this
    {
      Stored(nlist, nNeigh, nMax, full) && Exact(full, nMax, conditions)
    }

    method Insert(i: nat, j: nat, ghost full: seq<seq<nat>>)
      requires Holds(full) && i < |full|
      modifies this`nlist, this`nNeigh, this`conditions
      ensures Holds(full[i := full[i] + [j]])
    {
      var pos := nNeigh[i];
      GrownExact(full, nMax, conditions, i, j);
      if pos < nMax {
        nlist := nlist[i := nlist[i] + [j]];
      } else {
        conditions := Max(conditions, nNeigh[i] + 1);
      }
      nNeigh := nNeigh[i := nNeigh[i] + 1];
    }

    /** One pair of the double loop. */
    method Visit(s: System, p: Params, i: nat, j: nat)
      requires s.Valid() && i < s.n && i < j < s.Total() && (p.storage == Full ==> s.n == s.Total())
      requires Holds(RowsAt(s, p, i, j))
      modifies this`nlist, this`nNeigh, this`conditions
      ensures Holds(RowsAt(s, p, i, j + 1))
    {
      ghost var full := RowsAt(s, p, i, j);
      NextPair(s, p, i, j);
      if Accepts(s, p, i, j) {
        if p.storage == Full {
          Insert(i, j, full);
          Insert(j, i, full[i := full[i] + [j]]);
        } else {
          Insert(i, j, full);
        }
      }
    }

    /** Loop over all pairs. The box must be more than twice as wide as the list radius. */
    method BuildNlist(s: System, p: Params) returns (r: Outcome)
      requires s.Valid() && (p.storage == Full ==> s.n == s.Total())
      modifies this`nlist, this`nNeigh, this`conditions
      ensures r.Ok? <==> 2.0 * p.RMax() < s.L.x && 2.0 * p.RMax() < s.L.y && 2.0 * p.RMax() < s.L.z
      ensures r.Ok? ==> Holds(AllRows(s, p))
    {
      var rMax := p.RMax();
      if s.L.x <= rMax * 2.0 || s.L.y <= rMax * 2.0 || s.L.z <= rMax * 2.0 {
        return BoxTooSmall;
      }
      nNeigh, nlist, conditions := seq(s.n, _ => 0), seq(s.n, _ => []), 0;
      FirstPair(s, p);
      for i := 0 to s.n
        invariant Holds(StageRows(s, p, i))
      {
        EnterRow(s, p, i);
        for j := i + 1 to s.Total()
          invariant Holds(RowsAt(s, p, i, j))
        {
          Visit(s, p, i, j);
        }
        LeaveRow(s, p, i);
      }
      LastRow(s, p);
      r := Ok;
    }

    // ------------------------------------------------------------ rebuilding until the memory suffices

    /** If the list has overflowed, note how much memory is needed. */
    method CheckConditions(ghost full: seq<seq<nat>>) returns (overflowed: bool)
      requires Holds(full)
      modifies this`nMax
      ensures overflowed <==> exists r :: 0 <= r < |full| && |full[r]| > old(nMax)
      ensures overflowed ==> forall r :: 0 <= r < |full| ==> |full[r]| <= nMax
      ensures !overflowed ==> nMax == old(nMax)
    {
      overflowed := false;
      if conditions > nMax {
        nMax := conditions;
        overflowed := true;
      }
    }

    /** Allocate new list memory, rounded up to a multiple of eight. */
    method AllocateNlist()
      modifies this`nMax, this`nlist
      ensures nMax > old(nMax) && nMax % 8 == 0
    {
      nMax := nMax + 8 - nMax % 8;
      nlist := seq(|nlist|, _ => []);
    }

    /** Build the list until there is no overflow: twice at most. */
    method Rebuild() returns (r: Outcome, builds: nat)
      requires Sound()
      modifies this`nMax, this`nlist, this`nNeigh, this`conditions
      ensures r.Ok? <==> 2.0 * params.RMax() < sys.L.x && 2.0 * params.RMax() < sys.L.y && 2.0 * params.RMax() < sys.L.z
      ensures builds <= 2
      ensures r.Ok? ==> nlist == AllRows(sys, params) && |nNeigh| == sys.n && forall i :: 0 <= i < sys.n ==> nNeigh[i] == |nlist[i]|
    {
      ghost var full := AllRows(sys, params);
      builds := 0;
      var overflowed := true;
      while overflowed
        invariant builds <= 2 && (builds == 0 ==> overflowed) && (builds == 2 ==> !overflowed)
        invariant builds == 1 && overflowed ==> forall i :: 0 <= i < |full| ==> |full[i]| <= nMax
        invariant !overflowed ==> Holds(full) && forall i :: 0 <= i < |full| ==> |full[i]| <= nMax
        invariant builds > 0 ==> 2.0 * params.RMax() < sys.L.x && 2.0 * params.RMax() < sys.L.y && 2.0 * params.RMax() < sys.L.z
        decreases 2 - builds
      {
        r := BuildNlist(sys, params);
        if r.BoxTooSmall? {
          return;
        }
        overflowed := CheckConditions(full);
        if overflowed {
          AllocateNlist();
          conditions := 0;
        }
        builds := builds + 1;
      }
      assert forall i :: 0 <= i < |full| ==> nlist[i] == full[i];
      r := Ok;
    }

    // ------------------------------------------------------------ when to rebuild

    /** Has any particle moved further than the buffer allows? */
    method DistanceCheck() returns (r: bool)
      requires Sound() && Proper(lastL) && |lastPos| == sys.n
      ensures r <==> exists i :: 0 <= i < sys.n && Square(Drift(sys.L, lastL, sys.pos[i], lastPos[i])) >= MaxSquare(sys, params, lastL)
    {
      var maxsq := MaxSquare(sys, params, lastL);
      r := false;
      for i := 0 to sys.n
        invariant !r && forall k :: 0 <= k < i ==> Square(Drift(sys.L, lastL, sys.pos[k], lastPos[k])) < maxsq
      {
        var dx := Drift(sys.L, lastL, sys.pos[i], lastPos[i]);
        if Square(dx) >= maxsq {
          return true;
        }
      }
    }

    /** Remember the positions and the box for the next distance checks. */
    method SetLastUpdatedPos()
      requires Sound()
      modifies this`lastPos, this`lastL
      ensures lastPos == sys.pos[..sys.n] && lastL == sys.L
    {
      lastPos := [];
      for i := 0 to sys.n
        invariant lastPos == sys.pos[..i]
      {
        lastPos := lastPos + [sys.pos[i]];
      }
      lastL := sys.L;
    }

    /** Some particle has drifted as far as the buffer allows. */
    ghost predicate SomebodyTooFar()
      reads this
    {
      && Proper(sys.L) && Proper(lastL) && sys.n <= |sys.pos| && sys.n <= |lastPos|
      && Exceeds(sys, params, lastPos, lastL)
    }

    /** Decide whether the list has to be rebuilt. Within one time step the answer stays the same,
        unless an update has been forced in between. A forced update is always granted, and the flag is consumed.
        Otherwise a check is made once the period has passed: with checks on, the answer is whether some particle has
        drifted too far; with checks off it is yes without looking when the period is hit; and with a tiny buffer always. */
    method NeedsUpdating(t: nat) returns (r: bool)
      requires Consistent() && t == now
      modifies this`force, this`lastChecked, this`lastUpdated, this`lastCheckResult
      ensures Sound() && (!r ==> Consistent())
      ensures !force && lastChecked == t && lastCheckResult == r
      ensures old(force) ==> r
      ensures !old(force) && old(lastChecked) == t ==> r == old(lastCheckResult)
      ensures !old(force) && old(lastChecked) < t && t < old(lastUpdated) + every ==> !r
      ensures !old(force) && old(lastChecked) < t && t >= old(lastUpdated) + every && params.rBuff < 0.000001 ==> r
      ensures !old(force) && old(lastChecked) < t && t >= old(lastUpdated) + every && params.rBuff >= 0.000001 ==>
                if distCheck || (every != 0 && (every == 1 || t != old(lastUpdated) + every)) then r <==> SomebodyTooFar()
                else r
      ensures var asked := old(lastChecked) < t || (old(force) && !old(lastCheckResult));
              lastUpdated == if asked && r then t else old(lastUpdated)
    {
      if lastChecked == t {
        if !force || lastCheckResult {
          force := false;
          return lastCheckResult;
        }
      }
      r := MakeCheck(t);
    }

    /** The part that comes after looking whether this time step has been checked already. */
    method MakeCheck(t: nat) returns (r: bool)
      requires Consistent() && t == now && (lastChecked < t || (force && !lastCheckResult))
      modifies this`force, this`lastChecked, this`lastUpdated, this`lastCheckResult
      ensures Sound() && (!r ==> Consistent())
      ensures !force && lastChecked == t && lastCheckResult == r
      ensures old(force) ==> r
      ensures !old(force) && t < old(lastUpdated) + every ==> !r
      ensures !old(force) && t >= old(lastUpdated) + every && params.rBuff < 0.000001 ==> r
      ensures !old(force) && t >= old(lastUpdated) + every && params.rBuff >= 0.000001 ==>
                if distCheck || (every != 0 && (every == 1 || t != old(lastUpdated) + every)) then r <==> SomebodyTooFar()
                else r
      ensures lastUpdated == if r then t else old(lastUpdated)
    {
      lastChecked := t;
      if t < lastUpdated + every && !force {
        lastCheckResult := false;
        return false;
      }
      if force {
        r := true;
        force := false;
      } else {
        r := BufferUsedUp(t);
      }
      if r {
        lastUpdated := t;
      }
      lastCheckResult := r;
    }

    /** The test for updates that are not forced. No distance check is needed if the buffer is tiny. */
    method BufferUsedUp(t: nat) returns (r: bool)
      requires Sound() && Proper(lastL) && |lastPos| == sys.n
      requires t >= lastUpdated + every
      ensures r <==> params.rBuff < 0.000001
                     || (!distCheck && (every == 0 || (every > 1 && t == lastUpdated + every)))
                     || SomebodyTooFar()
    {
      if params.rBuff < 0.000001 || (!distCheck && (every == 0 || (every > 1 && t == lastUpdated + every))) {
        r := true;
      } else {
        r := DistanceCheck();
      }
    }

    /** Computations are made once per time step, unless forced. */
    method ShouldCompute(t: nat) returns (r: bool)
      modifies this`firstCompute, this`lastComputed, this`forceCompute
      ensures r <==> old(firstCompute) || old(forceCompute) || old(lastComputed) != t
      ensures !firstCompute
      ensures lastComputed == if !old(firstCompute) && old(forceCompute) then old(lastComputed) else t
      ensures forceCompute <==> old(firstCompute) && old(forceCompute)
    {
      if firstCompute {
        firstCompute := false;
        lastComputed := t;
        return true;
      }
      if forceCompute {
        forceCompute := false;
        return true;
      }
      if lastComputed != t {
        lastComputed := t;
        return true;
      }
      return false;
    }

    // ------------------------------------------------------------ compute

    /** Rebuild the lists for the present particles. */
    method RebuildLists() returns (r: Outcome)
      requires Sound() && IndicesFresh()
      modifies this`nMax, this`nlist, this`nNeigh, this`conditions
      ensures r.Ok? <==> 2.0 * params.RMax() < sys.L.x && 2.0 * params.RMax() < sys.L.y && 2.0 * params.RMax() < sys.L.z
      ensures r.Ok? ==> ListsOf(sys)
    {
      var builds: nat;
      r, builds := Rebuild();
      if r.BoxTooSmall? {
        return;
      }
      if exclusionsSet {
        FilterNlist();
      } else {
        forall i | 0 <= i < sys.n
          ensures AllRows(sys, params)[i] == FinalList(sys, params, exTag, i)
        {
          NothingExcluded(Neighbors(sys, params, i, sys.Total()), sys.rtag);
        }
      }
    }

    method Update() returns (r: Outcome)
      requires Sound() && IndicesFresh() && !force && lastChecked == now && lastCheckResult
      modifies this`nMax, this`nlist, this`nNeigh, this`conditions, this`lastPos, this`lastL, this`built
      ensures r.Ok? <==> 2.0 * params.RMax() < sys.L.x && 2.0 * params.RMax() < sys.L.y && 2.0 * params.RMax() < sys.L.z
      ensures r.Ok? ==> Valid() && built == sys
    {
      r := RebuildLists();
      if r.Ok? {
        Adopt();
      }
    }

    /** From here on the lists are those of the present positions. */
    method Adopt()
      requires Sound() && IndicesFresh() && !force && lastChecked == now && lastCheckResult && ListsOf(sys)
      requires 2.0 * params.RMax() < sys.L.x && 2.0 * params.RMax() < sys.L.y && 2.0 * params.RMax() < sys.L.z
      modifies this`lastPos, this`lastL, this`built
      ensures Valid() && built == sys
    {
      SetLastUpdatedPos();
      built := sys;
      assert Current() && CheckHolds();
    }

    /** For a forced update the exclusions are translated anew. */
    method RefreshIndices()
      requires Consistent()
      modifies this`exIdx
      ensures Consistent() && IndicesFresh()
    {
      if force && exclusionsSet {
        UpdateExListIdx();
      }
    }

    /** Act on the answer of the check. */
    method UpdateIf(need: bool) returns (r: Outcome)
      requires Sound() && IndicesFresh() && !force && lastChecked == now && lastCheckResult == need && (!need ==> Consistent())
      modifies this`nMax, this`nlist, this`nNeigh, this`conditions, this`lastPos, this`lastL, this`built
      ensures r.BoxTooSmall? ==> 2.0 * params.RMax() >= sys.L.x || 2.0 * params.RMax() >= sys.L.y || 2.0 * params.RMax() >= sys.L.z
      ensures r.Ok? ==> Valid() && (need ==> built == sys)
    {
      r := Ok;
      if need {
        r := Update();
      }
    }

    method CheckAndUpdate(t: nat) returns (r: Outcome)
      requires Consistent() && t == now
      modifies this`nMax, this`nlist, this`nNeigh, this`conditions, this`exIdx, this`lastPos, this`lastL, this`built
      modifies this`force, this`lastUpdated, this`lastChecked, this`lastCheckResult
      ensures r.BoxTooSmall? ==> 2.0 * params.RMax() >= sys.L.x || 2.0 * params.RMax() >= sys.L.y || 2.0 * params.RMax() >= sys.L.z
      ensures r.Ok? ==> Valid() && !force && lastChecked == now
      ensures r.Ok? && old(force) ==> built == sys
      ensures r.Ok? && (every <= 1 || t >= old(lastUpdated) + every) ==> Checked()
    {
      RefreshIndices();
      var need := NeedsUpdating(t);
      r := UpdateIf(need);
    }

    /** A computation is made once per time step, and whenever it or an update has been forced. */
    method Wanted(t: nat) returns (r: bool)
      requires Valid() && t == now
      modifies this`firstCompute, this`lastComputed, this`forceCompute, this`computations
      ensures Consistent() && (!r ==> Valid() && !force && lastChecked == now)
      ensures r <==> old(firstCompute || forceCompute || force) || old(lastComputed) != t
      ensures computations == old(computations) + if r then 1 else 0
    {
      r := ShouldCompute(t);
      r := r || force;
      if r {
        computations := computations + 1;
      }
    }

    method ComputeIfWanted(t: nat) returns (r: Outcome)
      requires Valid() && t == now
      modifies this`nMax, this`nlist, this`nNeigh, this`conditions, this`exIdx, this`lastPos, this`lastL, this`built
      modifies this`force, this`lastUpdated, this`lastChecked, this`lastCheckResult
      modifies this`firstCompute, this`lastComputed, this`forceCompute, this`computations
      ensures r.BoxTooSmall? ==> 2.0 * params.RMax() >= sys.L.x || 2.0 * params.RMax() >= sys.L.y || 2.0 * params.RMax() >= sys.L.z
      ensures r.Ok? ==> Valid() && !force && lastChecked == now
      ensures r.Ok? && old(force) ==> built == sys
      ensures r.Ok? && (every <= 1 || t >= old(lastUpdated) + every) ==> Checked()
      ensures computations == old(computations) +
                if old(firstCompute || forceCompute || force) || old(lastComputed) != t then 1 else 0
    {
      r := Ok;
      var wanted := Wanted(t);
      if wanted {
        r := CheckAndUpdate(t);
      }
    }

    /** Bring the lists up to date. Whenever this returns normally, the lists and exclusion indices are current and
        the last check holds for the present positions; a pending update has been carried out on these positions. */
    method Compute(t: nat) returns (r: Outcome)
      requires Valid() && t == now
      modifies this`nMax, this`nlist, this`nNeigh, this`conditions, this`exIdx, this`lastPos, this`lastL, this`built
      modifies this`force, this`lastUpdated, this`lastChecked, this`lastCheckResult
      modifies this`firstCompute, this`lastComputed, this`forceCompute, this`computations
      ensures r.BoxTooSmall? ==> 2.0 * params.RMax() >= sys.L.x || 2.0 * params.RMax() >= sys.L.y || 2.0 * params.RMax() >= sys.L.z
      ensures r.Ok? ==> Valid() && !force && lastChecked == now && Complete()
      ensures r.Ok? && old(force) ==> built == sys
      ensures r.Ok? && (every <= 1 || t >= old(lastUpdated) + every) ==> Checked()
      ensures computations == old(computations) +
                if old(firstCompute || forceCompute || force) || old(lastComputed) != t then 1 else 0
    {
      r := ComputeIfWanted(t);
      if r.Ok? {
        NoPairMissing();
      }
    }

    /** If a check was due under the check period, or the lists have just been built, and without the diameter test, the list
        of each particle holds every later particle - a full list also every earlier one - that is within the cut-off now,
        however the particles have moved since the list was built. */
    ghost predicate Complete()
      requires Sound() && |nlist| == sys.n
      reads this
    {
      Covers() ==>
        forall i: nat, j: nat :: i < j < sys.n && Expected(i, j) ==> j in nlist[i] && (params.storage == Full ==> i in nlist[j])
    }

    /** The pair is within the cut-off - widened by the diameter test, if that is on - and nothing excludes it. */
    ghost predicate Expected(i: nat, j: nat)
      requires Sound() && i < sys.n && j < sys.n
      reads this
    {
      && Reach(sys, params, i, j) >= 0.0 && Interacting(sys.L, sys.pos[i], sys.pos[j], Reach(sys, params, i, j))
      && !(params.filterBody && sys.body[i].Body? && sys.body[j].Body? && sys.body[i].id == sys.body[j].id)
      && sys.tag[j] !in exTag[sys.tag[i]]
      && DilationAllows(i, j)
    }

    /** The bound on drifts does not know about diameters. If the box has been rescaled since the last build it covers the
        pairs whose excess over the cut-off is not reduced by that: all pairs without the diameter test, and large particles
        unless the box has shrunk. */
    ghost predicate DilationAllows(i: nat, j: nat)
      requires Sound() && i < sys.n && j < sys.n
      reads this
    {
      || lastCheckResult
      || (Proper(lastL) && Excess(sys, params, i, j) <= Times(Excess(sys, params, i, j), Smallest(Scale(sys.L, lastL))))
    }

    /** In the present time step the lists have been built, or the check period has passed so that drifts were looked at. */
    ghost predicate Checked()
      reads this
    {
      lastCheckResult || now >= lastUpdated + every
    }

    /** A check was made, and what it bounds is enough for the pairs within the cut-off. */
    ghost predicate Covers()
      reads this
    {
      Checked() && params.RMax() >= params.rCut && sys.n == sys.Total()
    }

    /** The cut-off is the same for all pairs. */
    ghost predicate ChecksSuffice()
      reads this
    {
      Covers() && !params.filterDiameter
    }

    /** With a check period of at most one that is every step. */
    lemma CheckedEveryStep()
      requires Sound() && lastChecked == now && every <= 1
      ensures Checked()
    {
    }

    lemma NoPairMissing()
      requires Valid() && !force && lastChecked == now
      ensures Complete()
    {
      if Covers() {
        forall i: nat, j: nat | i < j < sys.n && Expected(i, j)
          ensures j in nlist[i] && (params.storage == Full ==> i in nlist[j])
        {
          PairListed(i, j);
        }
      }
    }

    /** A pair that interacts now passed the test of the last build. */
    lemma PairAccepted(i: nat, j: nat)
      requires Valid() && !force && lastChecked == now && Covers() && i < sys.n && j < sys.n && DilationAllows(i, j)
      requires Reach(sys, params, i, j) >= 0.0 && Interacting(sys.L, sys.pos[i], sys.pos[j], Reach(sys, params, i, j))
      requires !BodyExcluded(sys, params, i, j)
      ensures Accepts(built, params, i, j)
    {
      if lastCheckResult {
        InteractingIsAccepted(sys, params, i, j);
        assert built == sys.(pos := built.pos, L := built.L);
      } else {
        NotExceeded(sys, params, lastPos, lastL, i, j);
        WasAccepted(sys, built, params, i, j);
      }
    }

    lemma PairListed(i: nat, j: nat)
      requires Valid() && !force && lastChecked == now && Covers()
      requires i < j < sys.n && Expected(i, j)
      ensures j in nlist[i] && (params.storage == Full ==> i in nlist[j])
    {
      PairAccepted(i, j);
      FinalListMeans(built, params, exTag, i);
      assert nlist[i] == FinalList(built, params, exTag, i);
      FinalListMeans(built, params, exTag, j);
      assert nlist[j] == FinalList(built, params, exTag, j);
    }

    /** The check that the box is wide enough, made at the last build, still holds for the cut-off. */
    lemma StillWide()
      requires Valid() && !force && lastChecked == now && ChecksSuffice() && sys.n > 0
      ensures 2.0 * params.rCut < sys.L.x && 2.0 * params.rCut < sys.L.y && 2.0 * params.rCut < sys.L.z
    {
      if !lastCheckResult {
        NotExceeded(sys, params, lastPos, lastL, 0, 0);
        DilatedWide(sys.L, lastL, params.rCut, params.RMax());
      }
    }

    /** A computation in any case, also if one was made in this time step already. */
    method ForceCompute(t: nat) returns (r: Outcome)
      requires Valid() && t == now
      modifies this
      ensures r.Ok? ==> Valid() && !force && lastChecked == now && Complete()
      ensures computations == old(computations) + 1
    {
      forceCompute := true;
      r := Compute(t);
    }

    // ------------------------------------------------------------ requests to the communicator

    /** Would the list be rebuilt now? The question consumes a forced update. */
    method PeekUpdate(t: nat) returns (r: bool)
      requires Valid() && t == now
      modifies this`force, this`lastChecked, this`lastUpdated, this`lastCheckResult
      ensures Sound() && !force && (!r ==> Valid()) && (old(force) ==> r)
    {
      r := NeedsUpdating(t);
    }

    /** The communicator asks, and migrates and sorts the particles if the answer is yes. Together the two keep the
        invariant: the update that the question consumed is requested again by the sort. */
    method MigrateIfRequested(t: nat, migrated: System) returns (r: bool)
      requires Valid() && t == now && migrated.Valid() && (params.storage == Full ==> migrated.n == migrated.Total())
      requires forall i :: 0 <= i < |migrated.tag| ==> migrated.tag[i] < |exTag|
      modifies this`force, this`lastChecked, this`lastUpdated, this`lastCheckResult, this`sys
      ensures Valid() && (if r then force && sys == migrated else !force && sys == old(sys))
      ensures old(force) ==> r
    {
      r := PeekUpdate(t);
      if r {
        Sort(migrated);
      }
    }
  }

  /** Asking without migrating breaks the hand-off: in the first time step the question consumes the forced update
      while the exclusion indices are still those from before the exclusion was made. */
  method PeekAloneLosesTheUpdate(particles: System, p: Params, nGlobal: nat) returns (list: NeighborList)
    requires particles.Valid() && p.Sensible() && (p.storage == Full ==> particles.n == particles.Total())
    requires forall i :: 0 <= i < |particles.tag| ==> particles.tag[i] < nGlobal
    requires particles.n >= 2
    ensures list.Sound() && list.sys == particles && !list.force && !list.IndicesFresh()
  {
    list := new NeighborList(particles, p, nGlobal);
    var t, u := particles.tag[0], particles.tag[1];
    assert particles.rtag[t] == 0 && particles.rtag[u] == 1;
    list.AddExclusion(t, u);
    var r := list.PeekUpdate(0);
    assert Excluded(list.exTag, t, u);
    assert list.exIdx[0] == [] && |Translated(list.exTag[t], particles.rtag)| > 0;
  }

  /** Without exclusions nothing is filtered out. */
  lemma {:induction false} NothingExcluded(ms: seq<nat>, rtag: map<nat, nat>)
    ensures Filter(ms, NotAmong(Translated([], rtag))) == ms
    decreases |ms|
  {
    if ms != [] {
      NothingExcluded(ms[..|ms| - 1], rtag);
      assert ms == ms[..|ms| - 1] + [ms[|ms| - 1]];
    }
  }

  // ------------------------------------------------------------ exclusion tables

  lemma StillSound(before: Exclusions, after: Exclusions, height: nat, t: nat, u: nat)
    requires t < |before| && u < |before| && t != u && !Excluded(before, t, u)
    requires SoundExclusions(before, height) && |before[t]| < height && |before[u]| < height
    requires after == before[t := before[t] + [u]][u := before[u] + [t]]
    ensures SoundExclusions(after, height)
    ensures forall a: nat, b: nat :: Excluded(after, a, b) <==> Excluded(before, a, b) || (a == t && b == u) || (a == u && b == t)
  {
    assert !Excluded(before, u, t);
    forall a: nat, b: nat
      ensures Excluded(after, a, b) <==> Excluded(before, a, b) || (a == t && b == u) || (a == u && b == t)
    {
    }
  }

  // ------------------------------------------------------------ distance check

  /** Squared displacement from which on the list has to be rebuilt. */
  function MaxSquare(s: System, p: Params, lastL: V3<real>): real
    requires Proper(lastL)
  {
    var delta := MaxDrift(s.L, lastL, p.rCut, p.RMax());
    if delta > 0.0 then Sq(delta) else 0.0
  }

  ghost predicate Exceeds(s: System, p: Params, lastPos: seq<V3<real>>, lastL: V3<real>)
    requires Proper(s.L) && Proper(lastL) && s.n <= |s.pos| && s.n <= |lastPos|
  {
    exists i :: 0 <= i < s.n && Square(Drift(s.L, lastL, s.pos[i], lastPos[i])) >= MaxSquare(s, p, lastL)
  }

  /** If the check is passed, no particle has drifted by more than a positive bound. */
  lemma NotExceeded(s: System, p: Params, lastPos: seq<V3<real>>, lastL: V3<real>, i: nat, j: nat)
    requires Proper(s.L) && Proper(lastL) && s.n <= |s.pos| && s.n <= |lastPos| && i < s.n && j < s.n
    requires !Exceeds(s, p, lastPos, lastL)
    ensures var delta := MaxDrift(s.L, lastL, p.rCut, p.RMax());
            && delta > 0.0
            && Square(Drift(s.L, lastL, s.pos[i], lastPos[i])) <= Sq(delta)
            && Square(Drift(s.L, lastL, s.pos[j], lastPos[j])) <= Sq(delta)
  {
    var u := Drift(s.L, lastL, s.pos[i], lastPos[i]);
    SqSign(u.x);
    SqSign(u.y);
    SqSign(u.z);
    assert Square(u) >= 0.0;
  }

  /** A pair that interacts in `s` was accepted in `b`, if the drifts since are within the bound. */
  lemma WasAccepted(s: System, b: System, p: Params, i: nat, j: nat)
    requires s.Valid() && b.Valid() && b.SameOrder(s) && p.Sensible() && i < s.n && j < s.n
    requires var delta := MaxDrift(s.L, b.L, p.rCut, p.RMax());
             && delta > 0.0
             && Square(Drift(s.L, b.L, s.pos[i], b.pos[i])) <= Sq(delta)
             && Square(Drift(s.L, b.L, s.pos[j], b.pos[j])) <= Sq(delta)
    requires Reach(s, p, i, j) >= 0.0 && Interacting(s.L, s.pos[i], s.pos[j], Reach(s, p, i, j)) && !BodyExcluded(s, p, i, j)
    requires Excess(s, p, i, j) <= Times(Excess(s, p, i, j), Smallest(Scale(s.L, b.L)))
    ensures Accepts(b, p, i, j)
  {
    var e := Excess(s, p, i, j);
    LargerDrift(s.L, b.L, p.rCut, p.RMax(), e, Drift(s.L, b.L, s.pos[i], b.pos[i]));
    LargerDrift(s.L, b.L, p.rCut, p.RMax(), e, Drift(s.L, b.L, s.pos[j], b.pos[j]));
    StaysListed(s.L, b.L, s.pos[i], s.pos[j], b.pos[i], b.pos[j], p.rCut + e, p.RMax() + e);
    AcceptedWithin(b, p, i, j);
  }

  /** Widening both radii by an excess that the dilation does not reduce leaves at least as much room for drifts. */
  lemma LargerDrift(L: V3<real>, last: V3<real>, rCut: real, rMax: real, e: real, u: V3<real>)
    requires Proper(last) && e <= Times(e, Smallest(Scale(L, last)))
    requires MaxDrift(L, last, rCut, rMax) > 0.0 && Square(u) <= Sq(MaxDrift(L, last, rCut, rMax))
    ensures MaxDrift(L, last, rCut + e, rMax + e) > 0.0 && Square(u) <= Sq(MaxDrift(L, last, rCut + e, rMax + e))
  {
    var f := Smallest(Scale(L, last));
    assert Times(rMax + e, f) == Times(rMax, f) + Times(e, f);
    SqMono(MaxDrift(L, last, rCut, rMax), MaxDrift(L, last, rCut + e, rMax + e));
  }

  /** Two particles of diameter three on the x axis of a cubic box. */
  function LargePair(L: real, x: real, y: real): System {
    System(2, V3(L, L, L), [V3(x, 0.0, 0.0), V3(y, 0.0, 0.0)], [3.0, 3.0], [NoBody, NoBody], [0, 1], map[0 := 0, 1 := 1])
  }

  lemma NotWrapped(L: real, x: real)
    requires L > 0.0 && -L / 2.0 < x < L / 2.0
    ensures MinImage(V3(L, L, L), V3(x, 0.0, 0.0)) == V3(x, 0.0, 0.0)
  {
  }

  lemma ScaledBy(L: real, last: real, f: real, x: real)
    requires last > 0.0 && L == f * last
    ensures Scale(V3(L, L, L), V3(last, last, last)) == V3(f, f, f)
    ensures Scaled(V3(f, f, f), V3(x, 0.0, 0.0)) == V3(f * x, 0.0, 0.0)
  {
    QuotientTimes(L, last);
    EqualFactors(L / last, f, last);
    assert Times(f, x) == f * x && Times(f, 0.0) == 0.0;
  }

  lemma EqualFactors(x: real, y: real, c: real)
    requires c > 0.0 && x * c == y * c
    ensures x == y
  {
    if x < y {
      RealMulStrict(x, y, c);
    } else if y < x {
      RealMulStrict(y, x, c);
    }
  }

  /** The condition on dilations is needed: while the box shrinks by a tenth, two large particles drift by less than the
      bound, interact afterwards, and were not accepted before. */
  lemma ShrinkingLosesLargePairs(p: Params, b: System, s: System)
    requires p == Params(1.0, 0.5, 3.0, false, true, Half) && b == LargePair(20.0, 0.0, 3.7) && s == LargePair(18.0, 0.17, 3.16)
    ensures b.Valid() && s.Valid() && b.SameOrder(s)
    ensures forall i :: 0 <= i < 2 ==> Square(Drift(s.L, b.L, s.pos[i], b.pos[i])) < MaxSquare(s, p, b.L)
    ensures Interacting(s.L, s.pos[0], s.pos[1], Reach(s, p, 0, 1)) && !Accepts(b, p, 0, 1)
  {
    ScaledBy(18.0, 20.0, 0.9, 0.0);
    ScaledBy(18.0, 20.0, 0.9, 3.7);
    NotWrapped(18.0, 0.17);
    NotWrapped(18.0, -0.17);
    NotWrapped(20.0, 3.7);
    assert Minus(s.pos[1], V3(0.9 * 3.7, 0.0, 0.0)) == V3(-0.17, 0.0, 0.0);
    assert Minus(s.pos[0], V3(0.9 * 0.0, 0.0, 0.0)) == V3(0.17, 0.0, 0.0);
    assert MaxDrift(s.L, b.L, 1.0, 1.5) == 0.175;
    assert Minus(s.pos[1], s.pos[0]) == V3(2.99, 0.0, 0.0);
    assert ImageOf(s.L, V3(2.99, 0.0, 0.0), V3(0, 0, 0)) == V3(2.99, 0.0, 0.0);
    assert Square(V3(2.99, 0.0, 0.0)) <= Sq(3.0);
    assert Minus(b.pos[1], b.pos[0]) == V3(3.7, 0.0, 0.0);
    assert Square(V3(3.7, 0.0, 0.0)) > Sq(1.5) + Widening(b, p, 0, 1);
  }

  // ------------------------------------------------------------ rows during the double loop

  /** Upper end of what row `r` covers when all pairs before (i, j) have been looked at. */
  function Covered(p: Params, total: nat, r: nat, i: nat, j: nat): nat
    requires i < total && j <= total
  {
    if r < i then total
    else if r == i then j
    else match p.storage
      case Half => 0
      case Full => if r < j then i + 1 else i
  }

  function RowsAt(s: System, p: Params, i: nat, j: nat): (rows: seq<seq<nat>>)
    requires s.Valid() && i < s.n && j <= s.Total()
    ensures |rows| == s.n
    ensures forall r :: 0 <= r < s.n ==> rows[r] == Neighbors(s, p, r, Covered(p, s.Total(), r, i, j))
  {
    seq(s.n, r requires 0 <= r < s.n => Neighbors(s, p, r, Covered(p, s.Total(), r, i, j)))
  }

  /** The rows when the outer loop has finished the first `i` particles. */
  function StageRows(s: System, p: Params, i: nat): (rows: seq<seq<nat>>)
    requires s.Valid() && i <= s.n
    ensures |rows| == s.n
    ensures forall r :: 0 <= r < s.n ==>
              rows[r] == Neighbors(s, p, r, if r < i then s.Total() else if p.storage == Full then i else 0)
  {
    seq(s.n, r requires 0 <= r < s.n => Neighbors(s, p, r, if r < i then s.Total() else if p.storage == Full then i else 0))
  }

  /** The complete neighbour lists of all local particles. */
  function AllRows(s: System, p: Params): (rows: seq<seq<nat>>)
    requires s.Valid()
    ensures |rows| == s.n
    ensures forall r :: 0 <= r < s.n ==> rows[r] == Neighbors(s, p, r, s.Total())
  {
    seq(s.n, r requires 0 <= r < s.n => Neighbors(s, p, r, s.Total()))
  }

  lemma FirstPair(s: System, p: Params)
    requires s.Valid()
    ensures StageRows(s, p, 0) == seq(s.n, _ => [])
  {
  }

  lemma EnterRow(s: System, p: Params, i: nat)
    requires s.Valid() && i < s.n
    ensures RowsAt(s, p, i, i + 1) == StageRows(s, p, i)
  {
    forall r | 0 <= r < s.n
      ensures RowsAt(s, p, i, i + 1)[r] == StageRows(s, p, i)[r]
    {
      if r == i {
        assert !Listed(s, p, i, i);
        if p.storage == Half {
          NothingBefore(s, p, i, i + 1);
        }
      }
    }
  }

  lemma LeaveRow(s: System, p: Params, i: nat)
    requires s.Valid() && i < s.n && (p.storage == Full ==> s.n == s.Total())
    ensures StageRows(s, p, i + 1) == RowsAt(s, p, i, s.Total())
  {
    forall r | 0 <= r < s.n
      ensures StageRows(s, p, i + 1)[r] == RowsAt(s, p, i, s.Total())[r]
    {
    }
  }

  lemma LastRow(s: System, p: Params)
    requires s.Valid()
    ensures StageRows(s, p, s.n) == AllRows(s, p)
  {
    forall r | 0 <= r < s.n
      ensures StageRows(s, p, s.n)[r] == AllRows(s, p)[r]
    {
    }
  }

  /** What row `r` gains when the pair (i, j) is looked at. */
  function Gain(accepted: bool, storage: Storage, i: nat, j: nat, r: nat): seq<nat> {
    if !accepted then []
    else if r == i then [j]
    else if r == j && storage == Full then [i]
    else []
  }

  lemma NextRow(s: System, p: Params, i: nat, j: nat, r: nat)
    requires s.Valid() && i < s.n && r < s.n && i < j < s.Total() && (p.storage == Full ==> s.n == s.Total())
    ensures RowsAt(s, p, i, j + 1)[r] == RowsAt(s, p, i, j)[r] + Gain(Accepts(s, p, i, j), p.storage, i, j, r)
  {
    if r == i {
      NextNeighbor(s, p, i, j);
    } else if r == j && p.storage == Full {
      NextNeighbor(s, p, j, i);
    } else {
      assert Covered(p, s.Total(), r, i, j + 1) == Covered(p, s.Total(), r, i, j);
    }
  }

  lemma NextNeighbor(s: System, p: Params, r: nat, u: nat)
    requires s.Valid() && r < s.Total() && u < s.Total()
    ensures Neighbors(s, p, r, u + 1) == Neighbors(s, p, r, u) + if Listed(s, p, r, u) then [u] else []
  {
  }

  /** The rows after one pair. */
  function Gained(full: seq<seq<nat>>, accepted: bool, storage: Storage, i: nat, j: nat): seq<seq<nat>>
    requires i < |full| && (storage == Full ==> j < |full|)
  {
    if !accepted then full
    else if storage == Full then full[i := full[i] + [j]][j := full[j] + [i]]
    else full[i := full[i] + [j]]
  }

  lemma GainedRows(full: seq<seq<nat>>, next: seq<seq<nat>>, accepted: bool, storage: Storage, i: nat, j: nat)
    requires i < |full| == |next| && i < j && (storage == Full ==> j < |full|)
    requires forall r: nat :: r < |full| ==> next[r] == full[r] + Gain(accepted, storage, i, j, r)
    ensures next == Gained(full, accepted, storage, i, j)
  {
    forall r: nat | r < |full|
      ensures next[r] == Gained(full, accepted, storage, i, j)[r]
    {
    }
  }

  /** Looking at one more pair adds the entries that its acceptance calls for, and no others. */
  lemma NextPair(s: System, p: Params, i: nat, j: nat)
    requires s.Valid() && i < s.n && i < j < s.Total() && (p.storage == Full ==> s.n == s.Total())
    ensures RowsAt(s, p, i, j + 1) == Gained(RowsAt(s, p, i, j), Accepts(s, p, i, j), p.storage, i, j)
  {
    forall r: nat | r < s.n
      ensures RowsAt(s, p, i, j + 1)[r] == RowsAt(s, p, i, j)[r] + Gain(Accepts(s, p, i, j), p.storage, i, j, r)
    {
      NextRow(s, p, i, j, r);
    }
    GainedRows(RowsAt(s, p, i, j), RowsAt(s, p, i, j + 1), Accepts(s, p, i, j), p.storage, i, j);
  }
}
