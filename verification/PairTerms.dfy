/** What the force arrays hold, number by number: for each component of force, energy and virial one plain sum over the other
    particles, with its terms written out. */
module PairTerms {
  import opened Arithmetic
  import opened Vectors
  import opened Distances
  import opened Verlet
  import opened NeighborSpec
  import opened PairSums
  import opened PairForces

  /** The numbers that are kept for every particle. */
  datatype Component = ForceX | ForceY | ForceZ | Energy | VirialXX | VirialXY | VirialXZ | VirialYY | VirialYZ | VirialZZ

  function Of(t: Tally, c: Component): real {
    match c
    case ForceX => t.force.x
    case ForceY => t.force.y
    case ForceZ => t.force.z
    case Energy => t.energy
    case VirialXX => t.virial.xx
    case VirialXY => t.virial.xy
    case VirialXZ => t.virial.xz
    case VirialYY => t.virial.yy
    case VirialYZ => t.virial.yz
    case VirialZZ => t.virial.zz
  }

  function Sum(n: nat, g: nat -> real): real {
    if n == 0 then 0.0 else Sum(n - 1, g) + g(n - 1)
  }

  /** The separation of particle `i` from particle `k`, pointing from `k` to `i`. */
  function Separation(s: System, i: nat, k: nat): V3<real>
    requires Proper(s.L) && i < |s.pos| && k < |s.pos|
  {
    MinImage(s.L, V3(s.pos[i].x - s.pos[k].x, s.pos[i].y - s.pos[k].y, s.pos[i].z - s.pos[k].z))
  }

  function LengthSquared(v: V3<real>): real {
    v.x * v.x + v.y * v.y + v.z * v.z
  }

  /** Particle `k` acts on particle `i`: it is another one within the cut-off, in another body, and not excluded. */
  predicate ActsOn(s: System, m: Model, p: Params, ex: Exclusions, i: nat, k: nat)
    requires Ready(s, m) && s.Valid() && i < |s.pos| && k < |s.pos|
  {
    && i != k
    && LengthSquared(Separation(s, i, k)) < m.rCut * m.rCut
    && !(p.filterBody && s.body[i].Body? && s.body[k].Body? && s.body[i].id == s.body[k].id)
    && !(s.tag[i] < |ex| && s.tag[k] in ex[s.tag[i]])
  }

  /** The force divided by the distance. A positive one pushes the particles apart. */
  function Strength(s: System, m: Model, i: nat, k: nat): real
    requires Ready(s, m) && i < |s.pos| && k < |s.pos|
  {
    m.law.force(LengthSquared(Separation(s, i, k)), m.Row(m.types[i], m.types[k]))
  }

  /** The energy that each particle of the pair gets. */
  function Share(s: System, m: Model, i: nat, k: nat): real
    requires Ready(s, m) && i < |s.pos| && k < |s.pos|
  {
    m.law.energy(LengthSquared(Separation(s, i, k)), m.Row(m.types[i], m.types[k]))
  }

  /** The term that particle `k` adds to a number of particle `i`. */
  function Term(s: System, m: Model, c: Component, i: nat, k: nat): real
    requires Ready(s, m) && i < |s.pos| && k < |s.pos|
  {
    WrittenOut(c, Separation(s, i, k), Strength(s, m, i, k), Share(s, m, i, k))
  }

  function WrittenOut(c: Component, dx: V3<real>, f: real, energy: real): real {
    match c
    case ForceX => dx.x * f
    case ForceY => dx.y * f
    case ForceZ => dx.z * f
    case Energy => energy
    case VirialXX => 0.5 * (dx.x * dx.x) * f
    case VirialXY => 0.5 * (dx.x * dx.y) * f
    case VirialXZ => 0.5 * (dx.x * dx.z) * f
    case VirialYY => 0.5 * (dx.y * dx.y) * f
    case VirialYZ => 0.5 * (dx.y * dx.z) * f
    case VirialZZ => 0.5 * (dx.z * dx.z) * f
  }

  ghost function Terms(s: System, m: Model, p: Params, ex: Exclusions, c: Component, i: nat): nat -> real {
    (k: nat) =>
      if Ready(s, m) && s.Valid() && i < |s.pos| && k < |s.pos| && ActsOn(s, m, p, ex, i, k) then Term(s, m, c, i, k) else 0.0
  }

  /** Every number of every particle is the sum of these terms. */
  ghost predicate SumsOfTerms(force: seq<Tally>, s: System, m: Model, p: Params, ex: Exclusions) {
    |force| == s.n && forall i: nat, c: Component :: i < s.n ==> Of(force[i], c) == Sum(s.n, Terms(s, m, p, ex, c, i))
  }

  lemma ActsIfCounted(s: System, m: Model, p: Params, ex: Exclusions, i: nat, k: nat)
    requires Ready(s, m) && s.Valid() && i < s.Total() && k < s.Total()
    ensures CutOffLink(s, m, p, ex)(i, k) <==> ActsOn(s, m, p, ex, i, k)
  {
    SameSeparation(s, i, k);
  }

  lemma SameSeparation(s: System, i: nat, k: nat)
    requires Proper(s.L) && i < |s.pos| && k < |s.pos|
    ensures MinImage(s.L, Minus(s.pos[i], s.pos[k])) == Separation(s, i, k)
    ensures Square(Separation(s, i, k)) == LengthSquared(Separation(s, i, k))
  {
    assert Minus(s.pos[i], s.pos[k]) == V3(s.pos[i].x - s.pos[k].x, s.pos[i].y - s.pos[k].y, s.pos[i].z - s.pos[k].z);
  }

  lemma ContributionTerm(law: Law, row: Coefficients, dx: V3<real>, c: Component)
    ensures Of(Contribution(law, row, dx), c) == WrittenOut(c, dx, law.force(Square(dx), row), law.energy(Square(dx), row))
  {
  }

  lemma PairTerm(s: System, m: Model, p: Params, ex: Exclusions, c: Component, i: nat, k: nat)
    requires Ready(s, m) && s.Valid() && i < s.Total() && k < s.Total() && ActsOn(s, m, p, ex, i, k)
    ensures Of(PairOf(s, m)(i, k), c) == Term(s, m, c, i, k)
  {
    SameSeparation(s, i, k);
    ContributionTerm(m.law, m.Row(m.types[i], m.types[k]), Separation(s, i, k), c);
    assert PairOf(s, m)(i, k) == Contribution(m.law, m.Row(m.types[i], m.types[k]), Separation(s, i, k));
  }

  lemma AddedComponent(a: Tally, b: Tally, c: Component)
    ensures Of(Add(a, b), c) == Of(a, c) + Of(b, c)
  {
  }

  lemma {:induction false} AccIsSum(s: System, m: Model, p: Params, ex: Exclusions, c: Component, i: nat, u: nat)
    requires Ready(s, m) && s.Valid() && i < s.Total() && u <= s.Total()
    ensures Of(Acc(PairOf(s, m), CutOffLink(s, m, p, ex), i, u), c) == Sum(u, Terms(s, m, p, ex, c, i))
  {
    if u > 0 {
      AccIsSum(s, m, p, ex, c, i, u - 1);
      ActsIfCounted(s, m, p, ex, i, u - 1);
      if ActsOn(s, m, p, ex, i, u - 1) {
        PairTerm(s, m, p, ex, c, i, u - 1);
        AddedComponent(Acc(PairOf(s, m), CutOffLink(s, m, p, ex), i, u - 1), PairOf(s, m)(i, u - 1), c);
      }
    }
  }

  /** The sum over all pairs, number by number. */
  lemma BruteForceIsSum(s: System, m: Model, p: Params, ex: Exclusions)
    requires Ready(s, m) && s.Valid()
    ensures SumsOfTerms(BruteForce(s, m, p, ex), s, m, p, ex)
  {
    forall i: nat, c: Component | i < s.n
      ensures Of(BruteForce(s, m, p, ex)[i], c) == Sum(s.n, Terms(s, m, p, ex, c, i))
    {
      AccIsSum(s, m, p, ex, c, i, s.n);
    }
  }

  // ------------------------------------------------------------ one partner, or none

  lemma {:induction false} NoTerms(g: nat -> real, n: nat)
    requires forall k: nat :: k < n ==> g(k) == 0.0
    ensures Sum(n, g) == 0.0
  {
    if n > 0 {
      NoTerms(g, n - 1);
    }
  }

  lemma {:induction false} OneTerm(g: nat -> real, n: nat, j: nat)
    requires j < n && forall k: nat :: k < n && k != j ==> g(k) == 0.0
    ensures Sum(n, g) == g(j)
  {
    if j == n - 1 {
      NoTerms(g, n - 1);
    } else {
      OneTerm(g, n - 1, j);
    }
  }

  /** Nobody but `k` acts on the particle. */
  ghost predicate OnlyActor(s: System, m: Model, p: Params, ex: Exclusions, i: nat, k: nat)
    requires Ready(s, m) && s.Valid()
  {
    i < |s.pos| && k < |s.pos| && forall j: nat :: j < |s.pos| ==> (ActsOn(s, m, p, ex, i, j) <==> j == k)
  }

  lemma OnlyTerm(force: seq<Tally>, s: System, m: Model, p: Params, ex: Exclusions, i: nat, k: nat, c: Component)
    requires Ready(s, m) && s.Valid() && s.n == s.Total() && SumsOfTerms(force, s, m, p, ex) && i < s.n
    requires OnlyActor(s, m, p, ex, i, k)
    ensures Of(force[i], c) == Term(s, m, c, i, k)
  {
    OneTerm(Terms(s, m, p, ex, c, i), s.n, k);
  }

  /** The scalar product. */
  function Along(u: V3<real>, v: V3<real>): real {
    u.x * v.x + u.y * v.y + u.z * v.z
  }

  /** The particle is pushed along `dx` if `f` is positive, and pulled against it if `f` is negative. */
  predicate Pushed(t: Tally, dx: V3<real>, f: real, energy: real) {
    && t.force == V3(dx.x * f, dx.y * f, dx.z * f) && t.energy == energy
    && (f > 0.0 && LengthSquared(dx) > 0.0 ==> Along(t.force, dx) > 0.0)
    && (f < 0.0 && LengthSquared(dx) > 0.0 ==> Along(t.force, dx) < 0.0)
  }

  /** A particle on which only `k` acts: its force is along the line to `k`, and away from it if the law is repulsive. */
  lemma OnePartner(force: seq<Tally>, s: System, m: Model, p: Params, ex: Exclusions, i: nat, k: nat)
    requires Ready(s, m) && s.Valid() && s.n == s.Total() && SumsOfTerms(force, s, m, p, ex) && i < s.n
    requires OnlyActor(s, m, p, ex, i, k)
    ensures Pushed(force[i], Separation(s, i, k), Strength(s, m, i, k), Share(s, m, i, k))
  {
    forall c: Component
      ensures Of(force[i], c) == WrittenOut(c, Separation(s, i, k), Strength(s, m, i, k), Share(s, m, i, k))
    {
      OnlyTerm(force, s, m, p, ex, i, k, c);
    }
    PushedIfWritten(force[i], Separation(s, i, k), Strength(s, m, i, k), Share(s, m, i, k));
  }

  lemma PushedIfWritten(t: Tally, dx: V3<real>, f: real, energy: real)
    requires forall c: Component :: Of(t, c) == WrittenOut(c, dx, f, energy)
    ensures Pushed(t, dx, f, energy)
  {
    assert Of(t, ForceX) == dx.x * f && Of(t, ForceY) == dx.y * f && Of(t, ForceZ) == dx.z * f && Of(t, Energy) == energy;
    assert t.force == V3(dx.x * f, dx.y * f, dx.z * f);
    SignOfAlong(dx, f);
  }

  lemma SignOfAlong(dx: V3<real>, f: real)
    ensures f > 0.0 && LengthSquared(dx) > 0.0 ==> Along(V3(dx.x * f, dx.y * f, dx.z * f), dx) > 0.0
    ensures f < 0.0 && LengthSquared(dx) > 0.0 ==> Along(V3(dx.x * f, dx.y * f, dx.z * f), dx) < 0.0
  {
    var q, r := LengthSquared(dx), Along(V3(dx.x * f, dx.y * f, dx.z * f), dx);
    AlongFactor(dx.x, dx.y, dx.z, f);
    assert r == q * f;
    if q > 0.0 {
      SignOfProduct(q, f);
    }
  }

  lemma AlongFactor(x: real, y: real, z: real, f: real)
    ensures x * f * x + y * f * y + z * f * z == (x * x + y * y + z * z) * f
  {
    assert x * f * x == x * x * f && y * f * y == y * y * f && z * f * z == z * z * f;
  }

  lemma SignOfProduct(q: real, f: real)
    requires q > 0.0
    ensures (f > 0.0 ==> q * f > 0.0) && (f < 0.0 ==> q * f < 0.0)
  {
    if f < 0.0 {
      RealMulStrict(f, 0.0, q);
    } else if f > 0.0 {
      RealMulStrict(0.0, f, q);
    }
  }

  /** A particle on which nobody acts has no force, energy or virial. */
  lemma NoPartner(force: seq<Tally>, s: System, m: Model, p: Params, ex: Exclusions, i: nat, c: Component)
    requires Ready(s, m) && s.Valid() && s.n == s.Total() && SumsOfTerms(force, s, m, p, ex) && i < s.n
    requires forall j: nat :: j < s.n ==> !ActsOn(s, m, p, ex, i, j)
    ensures Of(force[i], c) == 0.0
  {
    NoTerms(Terms(s, m, p, ex, c, i), s.n);
  }
}
