/** Accumulation of pair forces over the neighbour list: a half list together with Newton's third law
    gives the same forces, energies and virials as a full list, and the forces add up to zero. */
module PairForces {
  import opened Arithmetic
  import opened Vectors
  import opened Box
  import opened Distances
  import opened Sequences
  import opened NeighborSpec
  import opened PairSums

  // ------------------------------------------------------------ the pair function

  datatype Coefficients = Coefficients(lj12: real, lj9: real, lj6: real, lj4: real)

  /** The pair function: force divided by distance, and half the pair energy, from the squared distance. */
  datatype Law = Law(force: (real, Coefficients) -> real, energy: (real, Coefficients) -> real)

  /** Everything a force computation looks at besides the lists. */
  datatype Model = Model(law: Law, rCut: real, types: seq<nat>, numTypes: nat, lj12: seq<real>, lj9: seq<real>, lj6: seq<real>, lj4: seq<real>) {
    predicate Shape() {
      |lj12| == |lj9| == |lj6| == |lj4| == numTypes * numTypes
    }

    ghost predicate Valid() {
      && Shape() && rCut >= 0.0 && (forall i :: 0 <= i < |types| ==> types[i] < numTypes)
      && SymmetricMatrix(lj12, numTypes) && SymmetricMatrix(lj9, numTypes)
      && SymmetricMatrix(lj6, numTypes) && SymmetricMatrix(lj4, numTypes)
    }

    function Row(a: nat, b: nat): Coefficients
      requires Shape() && a < numTypes && b < numTypes
    {
      MulBelow(a, numTypes, b, numTypes);
      var k := a * numTypes + b;
      Coefficients(lj12[k], lj9[k], lj6[k], lj4[k])
    }
  }

  function Entry(m: seq<real>, n: nat, a: nat, b: nat): real
    requires |m| == n * n && a < n && b < n
  {
    MulBelow(a, n, b, n);
    m[a * n + b]
  }

  ghost predicate SymmetricMatrix(m: seq<real>, n: nat) {
    |m| == n * n && forall a: nat, b: nat :: a < n && b < n ==> Entry(m, n, a, b) == Entry(m, n, b, a)
  }

  lemma RowSymmetric(m: Model, a: nat, b: nat)
    requires m.Valid() && a < m.numTypes && b < m.numTypes
    ensures m.Row(a, b) == m.Row(b, a)
  {
    assert Entry(m.lj12, m.numTypes, a, b) == Entry(m.lj12, m.numTypes, b, a);
    assert Entry(m.lj9, m.numTypes, a, b) == Entry(m.lj9, m.numTypes, b, a);
    assert Entry(m.lj6, m.numTypes, a, b) == Entry(m.lj6, m.numTypes, b, a);
    assert Entry(m.lj4, m.numTypes, a, b) == Entry(m.lj4, m.numTypes, b, a);
  }

  /** Force, energy and virial for a separation. */
  function Contribution(law: Law, c: Coefficients, dx: V3<real>): Tally {
    var rsq := Square(dx);
    var f := law.force(rsq, c);
    Tally(V3(Times(dx.x, f), Times(dx.y, f), Times(dx.z, f)), law.energy(rsq, c),
          Virial(Times(0.5 * Times(dx.x, dx.x), f), Times(0.5 * Times(dx.x, dx.y), f), Times(0.5 * Times(dx.x, dx.z), f),
                 Times(0.5 * Times(dx.y, dx.y), f), Times(0.5 * Times(dx.y, dx.z), f), Times(0.5 * Times(dx.z, dx.z), f)))
  }

  predicate Ready(s: System, m: Model) {
    Verlet.Proper(s.L) && |s.pos| == |m.types| && m.Shape() && forall i :: 0 <= i < |m.types| ==> m.types[i] < m.numTypes
  }

  /** What particle `k` contributes to particle `i`. */
  function Pair(s: System, m: Model, i: nat, k: nat): Tally
    requires Ready(s, m) && i < |s.pos| && k < |s.pos|
  {
    var dx := MinImage(s.L, Minus(s.pos[i], s.pos[k]));
    if Square(dx) < Sq(m.rCut) then Contribution(m.law, m.Row(m.types[i], m.types[k]), dx) else Nothing
  }

  // ------------------------------------------------------------ action and reaction

  /** Reversing a separation reverses its minimum image, except for separations of exactly half the box. */
  lemma TurnsOdd(L: real, w: real)
    requires L > 0.0
    ensures var r, r' := Image(L, w, Turns(L, w)), Image(L, -w, Turns(L, -w));
            r' == -r || (Abs(r) == L / 2.0 && Abs(r') == L / 2.0)
  {
    if w == L / 2.0 || w == -L / 2.0 {
      HalfTurn(L);
    } else if w > L / 2.0 {
      FarTurns(L, w);
    } else if w < -L / 2.0 {
      FarTurns(L, -w);
      assert -(-w) == w;
    }
  }

  lemma HalfTurn(L: real)
    requires L > 0.0
    ensures Image(L, L / 2.0, Turns(L, L / 2.0)) == -L / 2.0 && Image(L, -L / 2.0, Turns(L, -L / 2.0)) == -L / 2.0
  {
    assert (L / 2.0) / L + 0.5 == 1.0;
    assert Turns(L, L / 2.0) == -1;
  }

  lemma FarTurns(L: real, w: real)
    requires L > 0.0 && w > L / 2.0
    ensures Image(L, -w, Turns(L, -w)) == -Image(L, w, Turns(L, w))
  {
    var t := Turns(L, w);
    assert Turns(L, -w) == -t;
    assert (-t) as real * L == -(t as real * L);
  }

  lemma OneTurnOdd(L: real, w: real)
    requires L > 0.0
    ensures var r, r' := Image(L, w, OneTurn(L, w)), Image(L, -w, OneTurn(L, -w));
            r' == -r || (Abs(r) == L / 2.0 && Abs(r') == L / 2.0)
  {
    assert 1 as real * L == L && (-1) as real * L == -L && 0 as real * L == 0.0;
  }

  lemma AxisReversed(L: real, r: real, r': real, rCut: real)
    requires OppositeOrHalf(L, r, r') && 0.0 <= rCut <= L / 2.0
    ensures SameLength(r, r', rCut)
  {
    SqSign(r);
    SqMono(r, r');
    SqMono(r', r);
    if r' != -r {
      SqMono(rCut, r);
    }
  }

  predicate OppositeOrHalf(L: real, r: real, r': real) {
    r' == -r || (Abs(r) == L / 2.0 && Abs(r') == L / 2.0)
  }

  /** Equally long, and opposite if shorter than the cut-off. */
  predicate SameLength(r: real, r': real, rCut: real) {
    Sq(r') == Sq(r) && Sq(r) >= 0.0 && (Sq(r) < Sq(rCut) ==> r' == -r)
  }

  lemma MinImageOdd(L: V3<real>, w: V3<real>)
    requires Verlet.Proper(L)
    ensures var r, r' := MinImage(L, w), MinImage(L, Negative(w));
            OppositeOrHalf(L.x, r.x, r'.x) && OppositeOrHalf(L.y, r.y, r'.y) && OppositeOrHalf(L.z, r.z, r'.z)
  {
    TurnsOdd(L.x, w.x);
    TurnsOdd(L.y, w.y);
    OneTurnOdd(L.z, w.z);
  }

  lemma SumBelow(x: real, y: real, z: real, t: real)
    requires x >= 0.0 && y >= 0.0 && z >= 0.0 && x + y + z < t
    ensures x < t && y < t && z < t
  {
  }

  lemma OppositeVectors(r: V3<real>, r': V3<real>, rCut: real)
    requires SameLength(r.x, r'.x, rCut) && SameLength(r.y, r'.y, rCut) && SameLength(r.z, r'.z, rCut)
    ensures Square(r') == Square(r) && (Square(r) < Sq(rCut) ==> r' == Negative(r))
  {
    if Square(r) < Sq(rCut) {
      SumBelow(Sq(r.x), Sq(r.y), Sq(r.z), Sq(rCut));
    }
  }

  /** Within the cut-off the separations of the two particles are opposite; their lengths are the same in any case. */
  lemma Reversed(L: V3<real>, w: V3<real>, rCut: real)
    requires Verlet.Proper(L) && 0.0 <= rCut <= L.x / 2.0 && rCut <= L.y / 2.0 && rCut <= L.z / 2.0
    ensures Square(MinImage(L, Negative(w))) == Square(MinImage(L, w))
    ensures Square(MinImage(L, w)) < Sq(rCut) ==> MinImage(L, Negative(w)) == Negative(MinImage(L, w))
  {
    MinImageOdd(L, w);
    var r, r' := MinImage(L, w), MinImage(L, Negative(w));
    AxisReversed(L.x, r.x, r'.x, rCut);
    AxisReversed(L.y, r.y, r'.y, rCut);
    AxisReversed(L.z, r.z, r'.z, rCut);
    OppositeVectors(r, r', rCut);
  }

  lemma OppositeFactor(x: real, f: real)
    ensures Times(-x, f) == -Times(x, f)
  {
  }

  lemma ContributionReversed(law: Law, c: Coefficients, dx: V3<real>)
    ensures Contribution(law, c, Negative(dx)) == Reaction(Contribution(law, c, dx))
  {
    var f := law.force(Square(dx), c);
    NegativeProduct(dx.x, dx.x);
    NegativeProduct(dx.x, dx.y);
    NegativeProduct(dx.x, dx.z);
    NegativeProduct(dx.y, dx.y);
    NegativeProduct(dx.y, dx.z);
    NegativeProduct(dx.z, dx.z);
    OppositeFactor(dx.x, f);
    OppositeFactor(dx.y, f);
    OppositeFactor(dx.z, f);
  }

  /** The box is large enough for the minimum image of an interacting pair to be unique. */
  predicate WideBox(s: System, m: Model) {
    m.rCut <= s.L.x / 2.0 && m.rCut <= s.L.y / 2.0 && m.rCut <= s.L.z / 2.0
  }

  /** Newton's third law, given parameters that are the same for (a, b) and (b, a). */
  lemma ThirdLaw(s: System, m: Model, i: nat, k: nat)
    requires Ready(s, m) && m.Valid() && WideBox(s, m) && i < |s.pos| && k < |s.pos|
    ensures Pair(s, m, k, i) == Reaction(Pair(s, m, i, k))
  {
    var w := Minus(s.pos[i], s.pos[k]);
    assert Minus(s.pos[k], s.pos[i]) == Negative(w);
    Reversed(s.L, w, m.rCut);
    RowSymmetric(m, m.types[i], m.types[k]);
    if Square(MinImage(s.L, w)) < Sq(m.rCut) {
      ContributionReversed(m.law, m.Row(m.types[i], m.types[k]), MinImage(s.L, w));
    }
  }

  // ------------------------------------------------------------ lists as sums

  /** The pair contributions as a function of the two indices. */
  function PairOf(s: System, m: Model): Pairs {
    (i: nat, k: nat) => if Ready(s, m) && i < |s.pos| && k < |s.pos| then Pair(s, m, i, k) else Nothing
  }

  /** Particles `i` and `k` interact: they pass the tests of the list and are not excluded. */
  predicate Linked(s: System, p: Params, ex: Exclusions, i: nat, k: nat)
    requires s.Valid() && i < s.Total() && k < s.Total()
  {
    Listed(s, p.(storage := Full), i, k) && !Excluded(ex, s.tag[i], s.tag[k])
  }

  ghost function LinkOf(s: System, p: Params, ex: Exclusions): Links {
    (i: nat, k: nat) => s.Valid() && i < s.Total() && k < s.Total() && Linked(s, p, ex, i, k)
  }

  lemma LinksSymmetric(s: System, p: Params, ex: Exclusions)
    requires s.Valid() && Symmetric(ex)
    ensures SymmetricLinks(LinkOf(s, p, ex))
  {
    var link := LinkOf(s, p, ex);
    forall i: nat, k: nat
      ensures (link(i, k) <==> link(k, i)) && !link(i, i)
    {
    }
  }

  lemma PairsReact(s: System, m: Model)
    requires Ready(s, m) && m.Valid() && (|s.pos| > 0 ==> WideBox(s, m))
    ensures Reacting(PairOf(s, m))
  {
    var pair := PairOf(s, m);
    forall i: nat, k: nat
      ensures pair(k, i) == Reaction(pair(i, k))
    {
      if i < |s.pos| && k < |s.pos| {
        ThirdLaw(s, m, i, k);
      }
    }
  }

  lemma PickedMeans(s: System, p: Params, ex: Exclusions, i: nat, k: nat)
    requires s.Valid() && i < s.n && k < s.Total()
    ensures Picked(LinkOf(s, p.(storage := Full), ex), p.storage == Half, i, k)
            <==> Listed(s, p, i, k) && !Excluded(ex, s.tag[i], s.tag[k])
  {
  }

  /** The final list of a particle selects the particles it is linked with - all of them, or the later ones. */
  lemma FinalListSelects(s: System, p: Params, ex: Exclusions, i: nat)
    requires s.Valid() && i < s.n && s.tag[i] < |ex|
    ensures FinalList(s, p, ex, i) == Selected(LinkOf(s, p.(storage := Full), ex), p.storage == Half, i, s.Total())
  {
    var link := LinkOf(s, p.(storage := Full), ex);
    FinalListMeans(s, p, ex, i);
    SelectedMeans(link, p.storage == Half, i, s.Total());
    forall k: nat
      ensures k in FinalList(s, p, ex, i) <==> k in Selected(link, p.storage == Half, i, s.Total())
    {
      if k < s.Total() {
        PickedMeans(s, p, ex, i, k);
      }
    }
    SameMembers(FinalList(s, p, ex, i), Selected(link, p.storage == Half, i, s.Total()));
  }

  // ------------------------------------------------------------ the force computation

  /** A matrix with the same value at (a, b) and (b, a) stays symmetric. */
  function Mirrored(m: seq<real>, n: nat, a: nat, b: nat, v: real): (r: seq<real>)
    requires |m| == n * n && a < n && b < n
    ensures |r| == |m|
  {
    MulBelow(a, n, b, n);
    MulBelow(b, n, a, n);
    m[a * n + b := v][b * n + a := v]
  }

  lemma MirroredEntries(m: seq<real>, n: nat, a: nat, b: nat, v: real)
    requires SymmetricMatrix(m, n) && a < n && b < n
    ensures SymmetricMatrix(Mirrored(m, n, a, b, v), n)
    ensures forall c: nat, d: nat :: c < n && d < n ==>
              Entry(Mirrored(m, n, a, b, v), n, c, d) ==
              if (c == a && d == b) || (c == b && d == a) then v else Entry(m, n, c, d)
  {
    forall c: nat, d: nat | c < n && d < n
      ensures Entry(Mirrored(m, n, a, b, v), n, c, d) ==
              if (c == a && d == b) || (c == b && d == a) then v else Entry(m, n, c, d)
    {
      MulBelow(c, n, d, n);
      MulBelow(a, n, b, n);
      MulBelow(b, n, a, n);
      QuotientUnique(c, n, d);
      QuotientUnique(a, n, b);
      QuotientUnique(b, n, a);
    }
    forall c: nat, d: nat | c < n && d < n
      ensures Entry(Mirrored(m, n, a, b, v), n, c, d) == Entry(Mirrored(m, n, a, b, v), n, d, c)
    {
      assert Entry(m, n, c, d) == Entry(m, n, d, c);
    }
  }

  function Zeros(size: nat): (m: seq<real>)
    ensures |m| == size && forall k :: 0 <= k < size ==> m[k] == 0.0
  {
    seq(size, _ => 0.0)
  }

  lemma ZerosSymmetric(m: seq<real>, n: nat)
    requires |m| == n * n && forall k :: 0 <= k < |m| ==> m[k] == 0.0
    ensures SymmetricMatrix(m, n)
  {
    forall a: nat, b: nat | a < n && b < n
      ensures Entry(m, n, a, b) == Entry(m, n, b, a)
    {
      MulBelow(a, n, b, n);
      MulBelow(b, n, a, n);
    }
  }

  lemma TakeMore(ks: seq<nat>, j: nat)
    requires j < |ks|
    ensures ks[..j + 1] == ks[..j] + [ks[j]]
  {
  }

  class PairForceCompute {
    var model: Model
    var force: seq<Tally>

    constructor (law: Law, rCut: real, types: seq<nat>, numTypes: nat)
      requires rCut >= 0.0 && forall i :: 0 <= i < |types| ==> types[i] < numTypes
      ensures model.Valid() && model.law == law && model.rCut == rCut && model.types == types && model.numTypes == numTypes
    {
      MulMono(0, numTypes, numTypes);
      var zero := Zeros(numTypes * numTypes);
      ZerosSymmetric(zero, numTypes);
      model := Model(law, rCut, types, numTypes, zero, zero, zero, zero);
      force := [];
    }

    /** Set the parameters of a pair of types, in both places of each matrix; unknown types are rejected. */
    method SetParams(a: nat, b: nat, c: Coefficients) returns (ok: bool)
      requires model.Valid()
      modifies this`model
      ensures model.Valid()
      ensures ok <==> a < model.numTypes && b < model.numTypes
      ensures !ok ==> model == old(model)
      ensures model.numTypes == old(model.numTypes)
      ensures ok ==> forall d: nat, e: nat :: d < model.numTypes && e < model.numTypes ==>
                model.Row(d, e) == if (d == a && e == b) || (d == b && e == a) then c else old(model.Row(d, e))
    {
      var n := model.numTypes;
      if a >= n || b >= n {
        return false;
      }
      MirroredEntries(model.lj12, n, a, b, c.lj12);
      MirroredEntries(model.lj9, n, a, b, c.lj9);
      MirroredEntries(model.lj6, n, a, b, c.lj6);
      MirroredEntries(model.lj4, n, a, b, c.lj4);
      ghost var before := model;
      model := model.(lj12 := Mirrored(model.lj12, n, a, b, c.lj12), lj9 := Mirrored(model.lj9, n, a, b, c.lj9),
                      lj6 := Mirrored(model.lj6, n, a, b, c.lj6), lj4 := Mirrored(model.lj4, n, a, b, c.lj4));
      forall d: nat, e: nat | d < n && e < n
        ensures model.Row(d, e) == if (d == a && e == b) || (d == b && e == a) then c else before.Row(d, e)
      {
        RowEntries(model, d, e);
        RowEntries(before, d, e);
      }
      ok := true;
    }

    method PairContribution(s: System, i: nat, k: nat) returns (c: Tally)
      requires Ready(s, model) && i < |s.pos| && k < |s.pos|
      ensures c == PairOf(s, model)(i, k)
    {
      c := Pair(s, model, i, k);
    }

    /** Work off the list of one particle; with a half list every entry also acts on the other particle. */
    method AddList(s: System, i: nat, ks: seq<nat>, thirdLaw: bool)
      requires Ready(s, model) && i < |force| <= |s.pos| && (forall j :: 0 <= j < |ks| ==> ks[j] < |force|)
      modifies this`force
      ensures |force| == old(|force|)
      ensures var pair := PairOf(s, model);
              var ts := Reacted(pair, old(force), thirdLaw, i, ks);
              force == ts[i := Add(ts[i], SumOver(pair, i, ks))]
    {
      ghost var pair := PairOf(s, model);
      var fi := Nothing;
      for j := 0 to |ks|
        invariant |force| == old(|force|)
        invariant fi == SumOver(pair, i, ks[..j]) && force == Reacted(pair, old(force), thirdLaw, i, ks[..j])
      {
        var k := ks[j];
        TakeMore(ks, j);
        SumOverAppend(pair, i, ks[..j], k);
        ReactedAppend(pair, old(force), thirdLaw, i, ks[..j], k);
        var c := PairContribution(s, i, k);
        fi := Add(fi, c);
        if thirdLaw {
          force := force[k := Add(force[k], Reaction(c))];
        }
      }
      assert ks[..|ks|] == ks;
      force := force[i := Add(force[i], fi)];
    }

    /** Accumulate over the lists as they are, at the present positions. */
    method Accumulate(s: System, thirdLaw: bool, nlist: seq<seq<nat>>)
      requires Ready(s, model) && |nlist| == s.n <= |s.pos|
      requires forall i, j :: 0 <= i < s.n && 0 <= j < |nlist[i]| ==> nlist[i][j] < s.n
      modifies this`force
      ensures force == Accumulated(PairOf(s, model), thirdLaw, nlist, s.n, s.n)
    {
      ghost var pair := PairOf(s, model);
      force := seq(s.n, _ => Nothing);
      for i := 0 to s.n
        invariant force == Accumulated(pair, thirdLaw, nlist, s.n, i)
      {
        AddList(s, i, nlist[i], thirdLaw);
      }
    }
  }

  lemma RowEntries(m: Model, d: nat, e: nat)
    requires m.Shape() && d < m.numTypes && e < m.numTypes
    ensures m.Row(d, e) == Coefficients(Entry(m.lj12, m.numTypes, d, e), Entry(m.lj9, m.numTypes, d, e),
                                        Entry(m.lj6, m.numTypes, d, e), Entry(m.lj4, m.numTypes, d, e))
  {
  }

  // ------------------------------------------------------------ half lists, full lists and brute force

  /** The lists of all particles of the system `b`. */
  ghost function FinalLists(b: System, p: Params, ex: Exclusions): (lists: seq<seq<nat>>)
    requires b.Valid() && forall i :: 0 <= i < b.n ==> b.tag[i] < |ex|
    ensures |lists| == b.n && forall i :: 0 <= i < b.n ==> lists[i] == FinalList(b, p, ex, i)
  {
    seq(b.n, i requires 0 <= i < b.n && b.Valid() && b.tag[i] < |ex| => FinalList(b, p, ex, i))
  }

  /** The links of the system, which do not depend on how lists are stored. */
  ghost function AllLinks(b: System, p: Params, ex: Exclusions): Links {
    LinkOf(b, p.(storage := Full), ex)
  }

  /** The lists select the links of the system that they were built for. */
  lemma ListsSelect(b: System, p: Params, ex: Exclusions)
    requires b.Valid() && b.n == b.Total() && forall i :: 0 <= i < b.n ==> b.tag[i] < |ex|
    ensures FinalLists(b, p, ex) == Lists(AllLinks(b, p, ex), p.storage == Half, b.n)
  {
    forall i | 0 <= i < b.n
      ensures FinalLists(b, p, ex)[i] == Selected(AllLinks(b, p, ex), p.storage == Half, i, b.n)
    {
      FinalListSelects(b, p, ex, i);
    }
  }

  lemma ListEntries(b: System, p: Params, ex: Exclusions, i: nat, j: nat)
    requires b.Valid() && b.n == b.Total() && i < b.n && b.tag[i] < |ex| && j < |FinalList(b, p, ex, i)|
    ensures FinalList(b, p, ex, i)[j] < b.n
  {
    FinalListSelects(b, p, ex, i);
    SelectedMeans(AllLinks(b, p, ex), p.storage == Half, i, b.n);
    assert FinalList(b, p, ex, i)[j] in FinalList(b, p, ex, i);
  }

  /** The lists of `b`, worked off at the positions of `s`: the sum over all links of `b`, however they are stored. */
  lemma ListsGiveSum(b: System, s: System, m: Model, p: Params, ex: Exclusions)
    requires b.Valid() && b.n == b.Total() && (forall i :: 0 <= i < b.n ==> b.tag[i] < |ex|) && Symmetric(ex)
    requires p.storage == Half ==> Ready(s, m) && m.Valid() && (|s.pos| > 0 ==> WideBox(s, m))
    ensures Accumulated(PairOf(s, m), p.storage == Half, FinalLists(b, p, ex), b.n, b.n)
            == AllTallies(PairOf(s, m), AllLinks(b, p, ex), b.n)
  {
    ListsSelect(b, p, ex);
    LinksSymmetric(b, p.(storage := Full), ex);
    if p.storage == Half {
      PairsReact(s, m);
    }
    AccumulatedIsSum(PairOf(s, m), AllLinks(b, p, ex), p.storage == Half, b.n);
  }

  /** Half lists with the third law give what full lists give: for lists built at any earlier positions (`b`) and pairs
      evaluated at the present ones (`s`), the code accumulates the same forces, energies and virials; and the forces of
      all particles add up to zero. */
  lemma ThirdLawEquivalence(b: System, s: System, m: Model, p: Params, ex: Exclusions)
    requires b.Valid() && b.n == b.Total() && (forall i :: 0 <= i < b.n ==> b.tag[i] < |ex|) && Symmetric(ex)
    requires Ready(s, m) && m.Valid() && (|s.pos| > 0 ==> WideBox(s, m))
    ensures var pair, half, full := PairOf(s, m), FinalLists(b, p.(storage := Half), ex), FinalLists(b, p.(storage := Full), ex);
            && Accumulated(pair, true, half, b.n, b.n) == Accumulated(pair, false, full, b.n, b.n)
            && SumOfForces(Accumulated(pair, true, half, b.n, b.n)) == V3(0.0, 0.0, 0.0)
  {
    ListsGiveSum(b, s, m, p.(storage := Half), ex);
    ListsGiveSum(b, s, m, p.(storage := Full), ex);
    PairsReact(s, m);
    LinksSymmetric(b, p.(storage := Full), ex);
    NoTotalForce(PairOf(s, m), AllLinks(b, p, ex), b.n);
  }

  lemma NoTotalForce(pair: Pairs, link: Links, n: nat)
    requires Reacting(pair) && SymmetricLinks(link)
    ensures SumOfForces(AllTallies(pair, link, n)) == V3(0.0, 0.0, 0.0)
  {
    ForcesCancel(pair, link, n);
    SumIsTotal(pair, link, n, n);
    assert AllTallies(pair, link, n)[..n] == AllTallies(pair, link, n);
  }

  /** The pairs that count now: within the cut-off of the force and not excluded. */
  ghost function CutOffLink(s: System, m: Model, p: Params, ex: Exclusions): Links {
    (i: nat, k: nat) => Ready(s, m) && s.Valid() && i < s.Total() && k < s.Total() && WithinCutOff(s, m, p, ex, i, k)
  }

  ghost predicate WithinCutOff(s: System, m: Model, p: Params, ex: Exclusions, i: nat, k: nat)
    requires Ready(s, m) && s.Valid() && i < s.Total() && k < s.Total()
  {
    && i != k && Square(MinImage(s.L, Minus(s.pos[i], s.pos[k]))) < Sq(m.rCut)
    && !BodyExcluded(s, p, i, k) && !Excluded(ex, s.tag[i], s.tag[k])
  }

  /** The sum over all pairs, without any list. */
  ghost function BruteForce(s: System, m: Model, p: Params, ex: Exclusions): seq<Tally> {
    AllTallies(PairOf(s, m), CutOffLink(s, m, p, ex), s.n)
  }

  /** A pair within the cut-off of the force has an image within the cut-off of the list, seen from either side. */
  lemma CutOffInteracts(s: System, m: Model, i: nat, k: nat, rCut: real)
    requires Ready(s, m) && s.Valid() && 0.0 <= m.rCut <= rCut && i < s.Total() && k < s.Total()
    requires Square(MinImage(s.L, Minus(s.pos[i], s.pos[k]))) < Sq(m.rCut)
    ensures Verlet.Interacting(s.L, s.pos[i], s.pos[k], rCut) && Verlet.Interacting(s.L, s.pos[k], s.pos[i], rCut)
  {
    var w := Minus(s.pos[i], s.pos[k]);
    MinImageShortest(s.L, w, V3(0, 0, 0));
    var q: V3<int> :| MinImage(s.L, w) == ImageOf(s.L, w, q);
    SqMono(m.rCut, rCut);
    assert Square(ImageOf(s.L, Minus(s.pos[i], s.pos[k]), q)) <= Sq(rCut);
    var q' := V3(-q.x, -q.y, -q.z);
    ImageReversed(s.L, w, q);
    assert Minus(s.pos[k], s.pos[i]) == Negative(w);
    assert Square(ImageOf(s.L, Minus(s.pos[k], s.pos[i]), q')) <= Sq(rCut);
  }

  lemma ImageReversed(L: V3<real>, w: V3<real>, q: V3<int>)
    ensures Square(ImageOf(L, Negative(w), V3(-q.x, -q.y, -q.z))) == Square(ImageOf(L, w, q))
  {
    assert (-q.x) as real * L.x == -(q.x as real * L.x);
    assert (-q.y) as real * L.y == -(q.y as real * L.y);
    assert (-q.z) as real * L.z == -(q.z as real * L.z);
    NegativeProduct(Image(L.x, w.x, q.x), Image(L.x, w.x, q.x));
    NegativeProduct(Image(L.y, w.y, q.y), Image(L.y, w.y, q.y));
    NegativeProduct(Image(L.z, w.z, q.z), Image(L.z, w.z, q.z));
  }

  function SumOfForces(ts: seq<Tally>): V3<real> {
    if ts == [] then V3(0.0, 0.0, 0.0) else Plus(SumOfForces(ts[..|ts| - 1]), ts[|ts| - 1].force)
  }

  lemma {:induction false} SumIsTotal(pair: Pairs, link: Links, n: nat, v: nat)
    requires v <= n
    ensures SumOfForces(AllTallies(pair, link, n)[..v]) == TotalForce(pair, link, v, n)
  {
    if v > 0 {
      SumIsTotal(pair, link, n, v - 1);
      assert AllTallies(pair, link, n)[..v][..v - 1] == AllTallies(pair, link, n)[..v - 1];
    }
  }
}
