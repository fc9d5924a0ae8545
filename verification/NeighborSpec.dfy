/** Which pairs belong into a neighbour list. */
module NeighborSpec {
  import opened Vectors
  import opened Distances
  import opened Verlet
  import opened Sequences

  datatype Storage = Half | Full

  datatype Body = NoBody | Body(id: nat)

  datatype Params = Params(rCut: real, rBuff: real, dMax: real, filterBody: bool, filterDiameter: bool, storage: Storage) {
    /** Radius up to which pairs are listed; the diameter test takes care of larger particles if it is on. */
    function RMax(): real {
      rCut + rBuff + if filterDiameter then 0.0 else dMax - 1.0
    }

    predicate Sensible() {
      rCut >= 0.0 && rBuff >= 0.0
    }
  }

  /** The particle arrays: `n` local particles followed by ghosts. */
  datatype System = System(n: nat, L: V3<real>, pos: seq<V3<real>>, diameter: seq<real>, body: seq<Body>,
                           tag: seq<nat>, rtag: map<nat, nat>) {
    function Total(): nat { |pos| }

    ghost predicate Valid() {
      && Proper(L)
      && n <= |pos| == |diameter| == |body| == |tag|
      && (forall i :: 0 <= i < |tag| ==> tag[i] in rtag && rtag[tag[i]] == i)
      && (forall t :: t in rtag ==> rtag[t] < |tag| && tag[rtag[t]] == t)
      && (forall i :: 0 <= i < |pos| ==> -L.z / 2.0 <= pos[i].z <= L.z / 2.0)
    }

    /** The same particles at the same array positions. */
    predicate SameOrder(s: System) {
      n == s.n && tag == s.tag && rtag == s.rtag && body == s.body && diameter == s.diameter && |pos| == |s.pos|
    }
  }

  predicate BodyExcluded(s: System, p: Params, i: nat, j: nat)
    requires i < |s.body| && j < |s.body|
  {
    p.filterBody && s.body[i] != NoBody && s.body[i] == s.body[j]
  }

  /** How much the squared radius is widened for two particles by the diameter test. */
  function Widening(s: System, p: Params, i: nat, j: nat): real
    requires i < |s.diameter| && j < |s.diameter|
  {
    var delta := (s.diameter[i] + s.diameter[j]) * 0.5 - 1.0;
    if p.filterDiameter then Times(delta + 2.0 * p.RMax(), delta) else 0.0
  }

  /** The test made for the pair i < j. */
  predicate Accepts(s: System, p: Params, i: nat, j: nat)
    requires i < |s.pos| && j < |s.pos| && |s.body| == |s.diameter| == |s.pos| && s.L.x > 0.0 && s.L.y > 0.0
  {
    Square(MinImage(s.L, Minus(s.pos[j], s.pos[i]))) <= Sq(p.RMax()) + Widening(s, p, i, j) && !BodyExcluded(s, p, i, j)
  }

  /** The diameter test widens the radius by half the excess of the two diameters over one. */
  lemma WideningIsRadius(s: System, p: Params, i: nat, j: nat)
    requires i < |s.diameter| && j < |s.diameter| && p.filterDiameter
    ensures Sq(p.RMax()) + Widening(s, p, i, j) == Sq(p.RMax() + (s.diameter[i] + s.diameter[j] - 2.0) / 2.0)
  {
    var r, delta := p.RMax(), (s.diameter[i] + s.diameter[j]) * 0.5 - 1.0;
    SquareOfSum(r, delta);
    assert (delta + 2.0 * r) * delta == delta * delta + 2.0 * (r * delta);
  }

  /** By how much the diameter test widens all radii for a pair; less than nothing for small particles. */
  function Excess(s: System, p: Params, i: nat, j: nat): real
    requires i < |s.diameter| && j < |s.diameter|
  {
    if p.filterDiameter then (s.diameter[i] + s.diameter[j] - 2.0) / 2.0 else 0.0
  }

  /** The distance up to which the pair interacts. */
  function Reach(s: System, p: Params, i: nat, j: nat): real
    requires i < |s.diameter| && j < |s.diameter|
  {
    p.rCut + Excess(s, p, i, j)
  }

  /** With and without the diameter test, a pair is accepted up to its own radius. */
  lemma AcceptedWithin(s: System, p: Params, i: nat, j: nat)
    requires s.Valid() && i < s.Total() && j < s.Total()
    ensures Accepts(s, p, i, j) <==>
            && Square(MinImage(s.L, Minus(s.pos[j], s.pos[i]))) <= Sq(p.RMax() + Excess(s, p, i, j))
            && !(p.filterBody && s.body[i].Body? && s.body[j].Body? && s.body[i].id == s.body[j].id)
  {
    if p.filterDiameter {
      WideningIsRadius(s, p, i, j);
    }
  }

  /** A pair that interacts passes the test of a build. */
  lemma InteractingIsAccepted(s: System, p: Params, i: nat, j: nat)
    requires s.Valid() && p.Sensible() && p.RMax() >= p.rCut && i < s.n && j < s.n && Reach(s, p, i, j) >= 0.0
    requires Interacting(s.L, s.pos[i], s.pos[j], Reach(s, p, i, j)) && !BodyExcluded(s, p, i, j)
    ensures Accepts(s, p, i, j)
  {
    var d, reach := Minus(s.pos[j], s.pos[i]), Reach(s, p, i, j);
    var k: V3<int> :| Square(ImageOf(s.L, d, k)) <= Sq(reach);
    MinImageShortest(s.L, d, k);
    SqMono(reach, p.RMax() + Excess(s, p, i, j));
    AcceptedWithin(s, p, i, j);
  }

  /** Without the diameter test a fresh list covers all pairs within the cut-off if and only if the list radius
      does; a maximum diameter below one minus the buffer makes it miss pairs. */
  lemma RadiusMustCoverCutoff(p: Params)
    requires p.Sensible() && !p.filterDiameter && p.RMax() >= 0.0
    ensures p.RMax() >= p.rCut <==>
            forall s: System, i: nat, j: nat ::
              s.Valid() && i < j < s.n && Interacting(s.L, s.pos[i], s.pos[j], p.rCut) && !BodyExcluded(s, p, i, j) ==> Accepts(s, p, i, j)
  {
    if p.RMax() >= p.rCut {
      forall s: System, i: nat, j: nat |
        s.Valid() && i < j < s.n && Interacting(s.L, s.pos[i], s.pos[j], p.rCut) && !BodyExcluded(s, p, i, j)
        ensures Accepts(s, p, i, j)
      {
        InteractingIsAccepted(s, p, i, j);
      }
    } else {
      var s := PairAtCutoff(p.rCut);
      MissedPair(s, p);
    }
  }

  /** Two particles exactly one cut-off apart, in a large box. */
  function PairAtCutoff(r: real): (s: System)
    requires r > 0.0
    ensures s.Valid()
  {
    System(2, V3(4.0 * r, 4.0 * r, 4.0 * r), [V3(0.0, 0.0, 0.0), V3(r, 0.0, 0.0)], [1.0, 1.0], [NoBody, NoBody],
           [0, 1], map[0 := 0, 1 := 1])
  }

  lemma MissedPair(s: System, p: Params)
    requires p.Sensible() && !p.filterDiameter && 0.0 <= p.RMax() < p.rCut && s == PairAtCutoff(p.rCut)
    ensures Interacting(s.L, s.pos[0], s.pos[1], p.rCut) && !BodyExcluded(s, p, 0, 1) && !Accepts(s, p, 0, 1)
  {
    var d := Minus(s.pos[1], s.pos[0]);
    assert d == V3(p.rCut, 0.0, 0.0);
    assert MinImage(s.L, d) == d && ImageOf(s.L, d, V3(0, 0, 0)) == d;
    assert Sq(0.0) == 0.0 && Square(d) == Sq(p.rCut);
    SmallerSquared(p.RMax(), p.rCut);
  }

  lemma SmallerSquared(x: real, y: real)
    requires 0.0 <= x < y
    ensures Sq(x) < Sq(y)
  {
    PositiveProduct(y - x, y + x);
    SqDifference(x, y);
  }

  /** Particle `m` belongs into the list of particle `r`. */
  predicate Listed(s: System, p: Params, r: nat, m: nat)
    requires r < |s.pos| && m < |s.pos| && |s.body| == |s.diameter| == |s.pos| && s.L.x > 0.0 && s.L.y > 0.0
  {
    match p.storage
    case Half => r < m && Accepts(s, p, r, m)
    case Full => (r < m && Accepts(s, p, r, m)) || (m < r && Accepts(s, p, m, r))
  }

  /** The neighbours of particle `r` with index below `u`, in increasing order. */
  function Neighbors(s: System, p: Params, r: nat, u: nat): (ms: seq<nat>)
    requires s.Valid() && r < s.Total() && u <= s.Total()
  {
    if u == 0 then []
    else Neighbors(s, p, r, u - 1) + if Listed(s, p, r, u - 1) then [u - 1] else []
  }

  /** The neighbours are in increasing order, and exactly the particles below `u` that belong into the list. */
  lemma {:induction false} NeighborsMean(s: System, p: Params, r: nat, u: nat)
    requires s.Valid() && r < s.Total() && u <= s.Total()
    ensures Increasing(Neighbors(s, p, r, u))
    ensures forall m: nat :: m in Neighbors(s, p, r, u) <==> m < u && Listed(s, p, r, m)
  {
    if u > 0 {
      NeighborsMean(s, p, r, u - 1);
      var ms := Neighbors(s, p, r, u - 1);
      assert forall k :: 0 <= k < |ms| ==> ms[k] in ms;
    }
  }

  /** In half mode a list holds later particles only. */
  lemma {:induction false} NothingBefore(s: System, p: Params, r: nat, u: nat)
    requires s.Valid() && r < s.Total() && u <= r + 1 && p.storage == Half
    ensures Neighbors(s, p, r, u) == []
  {
    if u > 0 {
      NothingBefore(s, p, r, u - 1);
    }
  }

  /** In full mode the lists are symmetric, and each is the half list plus the reverse entries. */
  lemma FullIsSymmetric(s: System, p: Params, r: nat, m: nat)
    requires s.Valid() && r < s.Total() && m < s.Total() && p.storage == Full
    ensures m in Neighbors(s, p, r, s.Total()) <==> r in Neighbors(s, p, m, s.Total())
    ensures m in Neighbors(s, p, r, s.Total()) <==>
              m in Neighbors(s, p.(storage := Half), r, s.Total()) || r in Neighbors(s, p.(storage := Half), m, s.Total())
  {
    assert Listed(s, p, r, m) <==> Listed(s, p, m, r);
    var h := p.(storage := Half);
    assert Listed(s, p, r, m) <==> Listed(s, h, r, m) || Listed(s, h, m, r);
    InNeighbors(s, p, r, m);
    InNeighbors(s, p, m, r);
    InNeighbors(s, h, r, m);
    InNeighbors(s, h, m, r);
  }

  lemma InNeighbors(s: System, p: Params, r: nat, m: nat)
    requires s.Valid() && r < s.Total() && m < s.Total()
    ensures m in Neighbors(s, p, r, s.Total()) <==> Listed(s, p, r, m)
  {
    NeighborsMean(s, p, r, s.Total());
  }

  // ------------------------------------------------------------ exclusions

  /** Excluded tags, one row per tag. */
  type Exclusions = seq<seq<nat>>

  predicate Excluded(ex: Exclusions, t: nat, u: nat) {
    t < |ex| && u in ex[t]
  }

  /** Exclusion is symmetric, and nothing excludes itself. */
  ghost predicate Symmetric(ex: Exclusions) {
    forall t: nat, u: nat :: Excluded(ex, t, u) ==> u != t && Excluded(ex, u, t)
  }

  /** Rows are free of duplicates and fit into the allocated height. */
  ghost predicate WithinHeight(ex: Exclusions, height: nat) {
    forall t :: 0 <= t < |ex| ==> |ex[t]| <= height && forall a, b :: 0 <= a < b < |ex[t]| ==> ex[t][a] != ex[t][b]
  }

  ghost predicate SoundExclusions(ex: Exclusions, height: nat) {
    Symmetric(ex) && WithinHeight(ex, height)
  }

  /** The array indices of a row of tags; -1 stands for a tag that is not local. */
  function Translated(tags: seq<nat>, rtag: map<nat, nat>): (idx: seq<int>)
    ensures |idx| == |tags|
    ensures forall k :: 0 <= k < |tags| ==> idx[k] == if tags[k] in rtag then rtag[tags[k]] else -1
  {
    seq(|tags|, k requires 0 <= k < |tags| => IndexOf(rtag, tags[k]))
  }

  function IndexOf(rtag: map<nat, nat>, t: nat): int {
    if t in rtag then rtag[t] else -1
  }

  function NotAmong(idx: seq<int>): nat -> bool {
    (m: nat) => m !in idx
  }

  /** The final list of particle `i`: its neighbours without the excluded ones. */
  function FinalList(s: System, p: Params, ex: Exclusions, i: nat): seq<nat>
    requires s.Valid() && i < s.n && s.tag[i] < |ex|
  {
    Filter(Neighbors(s, p, i, s.Total()), NotAmong(Translated(ex[s.tag[i]], s.rtag)))
  }

  lemma {:induction false} FilterIncreasing(ms: seq<nat>, keep: nat -> bool)
    requires Increasing(ms)
    ensures Increasing(Filter(ms, keep))
    decreases |ms|
  {
    if ms != [] {
      var rest, last := ms[..|ms| - 1], ms[|ms| - 1];
      assert Increasing(rest);
      FilterIncreasing(rest, keep);
      var kept := Filter(rest, keep);
      forall k | 0 <= k < |kept|
        ensures kept[k] < last
      {
        FilterSelects(rest, keep, kept[k]);
        var j :| 0 <= j < |rest| && rest[j] == kept[k];
        assert ms[j] == kept[k];
      }
    }
  }

  /** The final list of a particle holds, in increasing order, exactly the particles that pass the tests
      and whose tags are not excluded. */
  lemma FinalListMeans(s: System, p: Params, ex: Exclusions, i: nat)
    requires s.Valid() && i < s.n && s.tag[i] < |ex|
    ensures Increasing(FinalList(s, p, ex, i))
    ensures forall m: nat :: m in FinalList(s, p, ex, i) <==>
              m < s.Total() && Listed(s, p, i, m) && !Excluded(ex, s.tag[i], s.tag[m])
  {
    var ms, row := Neighbors(s, p, i, s.Total()), ex[s.tag[i]];
    var idx := Translated(row, s.rtag);
    NeighborsMean(s, p, i, s.Total());
    FilterIncreasing(ms, NotAmong(idx));
    FilterMembers(ms, NotAmong(idx));
    forall m: nat
      ensures m in FinalList(s, p, ex, i) <==> m < s.Total() && Listed(s, p, i, m) && !Excluded(ex, s.tag[i], s.tag[m])
    {
      if m < s.Total() && s.tag[m] in row {
        var k :| 0 <= k < |row| && row[k] == s.tag[m];
        assert idx[k] == m;
      }
    }
  }
}
