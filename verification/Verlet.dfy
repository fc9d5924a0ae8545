/** Why a list built with a buffer stays complete while particles move: if no particle has drifted by
    more than half of what the buffer leaves, every pair that is within the cut-off now was within the
    list radius when the list was built - also when the box has been rescaled since. */
module Verlet {
  import opened Arithmetic
  import opened Vectors
  import opened Box
  import opened Distances

  /** Box lengths are positive. */
  predicate Proper(L: V3<real>) {
    L.x > 0.0 && L.y > 0.0 && L.z > 0.0
  }

  /** Relative change of the box lengths. */
  function Scale(L: V3<real>, last: V3<real>): V3<real>
    requires Proper(last)
  {
    V3(L.x / last.x, L.y / last.y, L.z / last.z)
  }

  function Smallest(v: V3<real>): (m: real)
    ensures m <= v.x && m <= v.y && m <= v.z && (m == v.x || m == v.y || m == v.z)
  {
    var xy := if v.x < v.y then v.x else v.y;
    if xy < v.z then xy else v.z
  }

  function Scaled(f: V3<real>, p: V3<real>): V3<real> {
    V3(Times(f.x, p.x), Times(f.y, p.y), Times(f.z, p.z))
  }

  /** Displacement of a particle since the last build, without the homogeneous dilation of the box. */
  function Drift(L: V3<real>, last: V3<real>, now: V3<real>, then_: V3<real>): V3<real>
    requires Proper(L) && Proper(last)
  {
    DriftBy(L, Scale(L, last), now, then_)
  }

  function DriftBy(L: V3<real>, f: V3<real>, now: V3<real>, then_: V3<real>): V3<real>
    requires Proper(L)
  {
    MinImage(L, Minus(now, Scaled(f, then_)))
  }

  /** Half of what the buffer leaves after the box has been rescaled. */
  function MaxDrift(L: V3<real>, last: V3<real>, rCut: real, rMax: real): real
    requires Proper(last)
  {
    (Times(rMax, Smallest(Scale(L, last))) - rCut) / 2.0
  }

  /** Some periodic image of the pair is within the cut-off. */
  ghost predicate Interacting(L: V3<real>, p: V3<real>, q: V3<real>, rCut: real) {
    exists k: V3<int> :: Square(ImageOf(L, Minus(q, p), k)) <= Sq(rCut)
  }

  lemma ScaleTimesLast(L: V3<real>, last: V3<real>)
    requires Proper(L) && Proper(last)
    ensures Scaled(Scale(L, last), last) == L
    ensures Proper(Scale(L, last)) && Smallest(Scale(L, last)) > 0.0
  {
    ScaleBack(L.x, last.x);
    ScaleBack(L.y, last.y);
    ScaleBack(L.z, last.z);
    assert Scaled(Scale(L, last), last) == V3(L.x, L.y, L.z);
  }

  lemma ScaleBack(a: real, b: real)
    requires a > 0.0 && b > 0.0
    ensures a / b > 0.0 && Times(a / b, b) == a
  {
    PositiveQuotient(a, b);
  }

  /** One axis: the pair's present separation, undone by both drifts, is an image of the old separation, rescaled. */
  lemma AxisSeparation(L: real, last: real, f: real, pi: real, pj: real, bi: real, bj: real, k: int, mi: int, mj: int)
    requires f * last == L
    ensures Image(L, pj - pi, k) + (Image(L, pi - f * bi, mi) - Image(L, pj - f * bj, mj)) == f * Image(last, bj - bi, k + mi - mj)
  {
    var m := k + mi - mj;
    assert m as real * L == k as real * L + mi as real * L - mj as real * L;
    assert f * (m as real * last) == m as real * (f * last);
    assert f * (bj - bi) == f * bj - f * bi;
    assert f * Image(last, bj - bi, m) == f * (bj - bi) + f * (m as real * last);
  }

  /** The square of `v` is at least that of `m` times `w`. */
  predicate Shrunk(m: real, w: real, v: real) {
    Sq(m) * Sq(w) <= Sq(v)
  }

  lemma SmallerSquare(f: real, m: real, w: real, v: real)
    requires 0.0 < m <= f && v == f * w
    ensures Shrunk(m, w, v)
  {
    SqMono(m, f);
    SqSign(w);
    RealMulMono(Sq(m), Sq(f), Sq(w));
    assert (f * f) * (w * w) == (f * w) * (f * w);
  }

  lemma ShrinkBy(c: real, rr: real, x: real, y: real, z: real, X: real, Y: real, Z: real)
    requires c > 0.0 && c * x <= X && c * y <= Y && c * z <= Z && X + Y + Z <= c * rr
    ensures x + y + z <= rr
  {
    Distribute(c, x, y, z);
    CancelFactor(c, x + y + z, rr);
  }

  lemma Shrink(v: V3<real>, w: V3<real>, m: real, r: real, s: real)
    requires m > 0.0 && s == Times(r, m) && Square(v) <= Sq(s)
    requires Shrunk(m, w.x, v.x) && Shrunk(m, w.y, v.y) && Shrunk(m, w.z, v.z)
    ensures Square(w) <= Sq(r)
  {
    SqSign(m);
    assert Sq(s) == Sq(m) * Sq(r) by {
      assert (r * m) * (r * m) == (m * m) * (r * r);
    }
    ShrinkBy(Sq(m), Sq(r), Sq(w.x), Sq(w.y), Sq(w.z), Sq(v.x), Sq(v.y), Sq(v.z));
  }

  lemma CancelFactor(c: real, x: real, y: real)
    requires c > 0.0 && c * x <= c * y
    ensures x <= y
  {
    if x > y {
      RealMulStrict(y, x, c);
    }
  }

  /** One component of the present separation, with both drifts undone. */
  function Undone(L: real, d: real, k: int, ui: real, mi: int, uj: real, mj: int): real {
    Image(L, d, k) + (Image(L, ui, mi) - Image(L, uj, mj))
  }

  /** It is at least as long as the old separation shrunk by `m`. */
  lemma OldSeparation(L: real, last: real, f: real, m: real, d: real, ui: real, uj: real, bi: real, bj: real, k: int, mi: int, mj: int)
    requires Times(f, last) == L && 0.0 < m <= f && d == (uj + Times(f, bj)) - (ui + Times(f, bi))
    ensures Shrunk(m, Image(last, bj - bi, k + mi - mj), Undone(L, d, k, ui, mi, uj, mj))
  {
    AxisSeparation(L, last, f, ui + f * bi, uj + f * bj, bi, bj, k, mi, mj);
    SmallerSquare(f, m, Image(last, bj - bi, k + mi - mj), Undone(L, d, k, ui, mi, uj, mj));
  }

  /** Undoing both drifts adds at most twice the bound to the separation. */
  lemma UndoDrifts(d: V3<real>, ui: V3<real>, uj: V3<real>, rCut: real, delta: real)
    requires rCut >= 0.0 && delta > 0.0
    requires Square(d) <= Sq(rCut) && Square(ui) <= Sq(delta) && Square(uj) <= Sq(delta)
    ensures Square(Plus(d, Minus(ui, uj))) <= Sq(rCut + (delta + delta))
  {
    var zero := V3(0.0, 0.0, 0.0);
    SquareOfNegative(uj);
    Triangle(ui, Minus(zero, uj), delta, delta);
    assert Plus(ui, Minus(zero, uj)) == Minus(ui, uj);
    Triangle(d, Minus(ui, uj), rCut, delta + delta);
  }

  /** The image of the old separation that belongs to the present one. */
  function OldImage(L: V3<real>, ui: V3<real>, uj: V3<real>, k: V3<int>): V3<int>
    requires Proper(L)
  {
    V3(k.x + Turns(L.x, ui.x) - Turns(L.x, uj.x), k.y + Turns(L.y, ui.y) - Turns(L.y, uj.y), k.z + OneTurn(L.z, ui.z) - OneTurn(L.z, uj.z))
  }

  /** `d` is the separation of two particles that have moved by `ui` and `uj` beyond the dilation of the box. */
  predicate Displaced(f: V3<real>, d: V3<real>, ui: V3<real>, uj: V3<real>, bi: V3<real>, bj: V3<real>) {
    && d.x == (uj.x + Times(f.x, bj.x)) - (ui.x + Times(f.x, bi.x))
    && d.y == (uj.y + Times(f.y, bj.y)) - (ui.y + Times(f.y, bi.y))
    && d.z == (uj.z + Times(f.z, bj.z)) - (ui.z + Times(f.z, bi.z))
  }

  function AllUndone(L: V3<real>, d: V3<real>, k: V3<int>, ui: V3<real>, uj: V3<real>): V3<real>
    requires Proper(L)
  {
    V3(Undone(L.x, d.x, k.x, ui.x, Turns(L.x, ui.x), uj.x, Turns(L.x, uj.x)),
       Undone(L.y, d.y, k.y, ui.y, Turns(L.y, ui.y), uj.y, Turns(L.y, uj.y)),
       Undone(L.z, d.z, k.z, ui.z, OneTurn(L.z, ui.z), uj.z, OneTurn(L.z, uj.z)))
  }

  lemma UndoneInFull(L: V3<real>, d: V3<real>, k: V3<int>, ui: V3<real>, uj: V3<real>)
    requires Proper(L)
    ensures AllUndone(L, d, k, ui, uj) == Plus(ImageOf(L, d, k), Minus(MinImage(L, ui), MinImage(L, uj)))
  {
  }

  lemma OnX(L: V3<real>, last: V3<real>, f: V3<real>, m: real,
            d: V3<real>, ui: V3<real>, uj: V3<real>, bi: V3<real>, bj: V3<real>, k: V3<int>, v: V3<real>, w: V3<real>)
    requires Proper(L) && Scaled(f, last) == L && 0.0 < m <= f.x && Displaced(f, d, ui, uj, bi, bj)
    requires v == AllUndone(L, d, k, ui, uj) && w == ImageOf(last, Minus(bj, bi), OldImage(L, ui, uj, k))
    ensures Shrunk(m, w.x, v.x)
  {
    OldSeparation(L.x, last.x, f.x, m, d.x, ui.x, uj.x, bi.x, bj.x, k.x, Turns(L.x, ui.x), Turns(L.x, uj.x));
  }

  lemma OnY(L: V3<real>, last: V3<real>, f: V3<real>, m: real,
            d: V3<real>, ui: V3<real>, uj: V3<real>, bi: V3<real>, bj: V3<real>, k: V3<int>, v: V3<real>, w: V3<real>)
    requires Proper(L) && Scaled(f, last) == L && 0.0 < m <= f.y && Displaced(f, d, ui, uj, bi, bj)
    requires v == AllUndone(L, d, k, ui, uj) && w == ImageOf(last, Minus(bj, bi), OldImage(L, ui, uj, k))
    ensures Shrunk(m, w.y, v.y)
  {
    OldSeparation(L.y, last.y, f.y, m, d.y, ui.y, uj.y, bi.y, bj.y, k.y, Turns(L.y, ui.y), Turns(L.y, uj.y));
  }

  lemma OnZ(L: V3<real>, last: V3<real>, f: V3<real>, m: real,
            d: V3<real>, ui: V3<real>, uj: V3<real>, bi: V3<real>, bj: V3<real>, k: V3<int>, v: V3<real>, w: V3<real>)
    requires Proper(L) && Scaled(f, last) == L && 0.0 < m <= f.z && Displaced(f, d, ui, uj, bi, bj)
    requires v == AllUndone(L, d, k, ui, uj) && w == ImageOf(last, Minus(bj, bi), OldImage(L, ui, uj, k))
    ensures Shrunk(m, w.z, v.z)
  {
    OldSeparation(L.z, last.z, f.z, m, d.z, ui.z, uj.z, bi.z, bj.z, k.z, OneTurn(L.z, ui.z), OneTurn(L.z, uj.z));
  }

  lemma WasClose(L: V3<real>, last: V3<real>, f: V3<real>, m: real, delta: real,
                 d: V3<real>, ui: V3<real>, uj: V3<real>, bi: V3<real>, bj: V3<real>, k: V3<int>, rCut: real, rMax: real)
    requires Proper(L) && Scaled(f, last) == L
    requires 0.0 < m <= f.x && m <= f.y && m <= f.z && Displaced(f, d, ui, uj, bi, bj)
    requires rCut >= 0.0 && delta > 0.0 && rCut + (delta + delta) == Times(rMax, m)
    requires Square(MinImage(L, ui)) <= Sq(delta) && Square(MinImage(L, uj)) <= Sq(delta)
    requires Square(ImageOf(L, d, k)) <= Sq(rCut)
    ensures Square(ImageOf(last, Minus(bj, bi), OldImage(L, ui, uj, k))) <= Sq(rMax)
  {
    var v, w := AllUndone(L, d, k, ui, uj), ImageOf(last, Minus(bj, bi), OldImage(L, ui, uj, k));
    OnX(L, last, f, m, d, ui, uj, bi, bj, k, v, w);
    OnY(L, last, f, m, d, ui, uj, bi, bj, k, v, w);
    OnZ(L, last, f, m, d, ui, uj, bi, bj, k, v, w);
    UndoneInFull(L, d, k, ui, uj);
    UndoDrifts(ImageOf(L, d, k), MinImage(L, ui), MinImage(L, uj), rCut, delta);
    Shrink(v, w, m, rMax, rCut + (delta + delta));
  }

  lemma TwiceHalf(s: real, rCut: real)
    ensures rCut + ((s - rCut) / 2.0 + (s - rCut) / 2.0) == s
  {
  }

  /** A pair that interacts now was within the list radius at the last build. */
  lemma StaysListed(L: V3<real>, last: V3<real>, pi: V3<real>, pj: V3<real>, bi: V3<real>, bj: V3<real>, rCut: real, rMax: real)
    requires Proper(L) && Proper(last) && rCut >= 0.0
    requires var delta := MaxDrift(L, last, rCut, rMax);
             && delta > 0.0
             && Square(Drift(L, last, pi, bi)) <= Sq(delta)
             && Square(Drift(L, last, pj, bj)) <= Sq(delta)
    requires -1.5 * last.z <= bj.z - bi.z <= 1.5 * last.z
    requires Interacting(L, pi, pj, rCut)
    ensures Square(MinImage(last, Minus(bj, bi))) <= Sq(rMax)
  {
    var k: V3<int> :| Square(ImageOf(L, Minus(pj, pi), k)) <= Sq(rCut);
    var f := Scale(L, last);
    var ui, uj := Minus(pi, Scaled(f, bi)), Minus(pj, Scaled(f, bj));
    ScaleTimesLast(L, last);
    TwiceHalf(Times(rMax, Smallest(f)), rCut);
    WasClose(L, last, f, Smallest(f), MaxDrift(L, last, rCut, rMax), Minus(pj, pi), ui, uj, bi, bj, k, rCut, rMax);
    MinImageShortest(last, Minus(bj, bi), OldImage(L, ui, uj, k));
  }

  /** A box that was more than twice as wide as the list radius is still more than twice as wide as the cut-off, as long
      as the bound on drifts is positive. */
  lemma DilatedWide(L: V3<real>, last: V3<real>, rCut: real, rMax: real)
    requires Proper(L) && Proper(last) && rMax >= 0.0 && MaxDrift(L, last, rCut, rMax) > 0.0
    requires 2.0 * rMax < last.x && 2.0 * rMax < last.y && 2.0 * rMax < last.z
    ensures 2.0 * rCut < L.x && 2.0 * rCut < L.y && 2.0 * rCut < L.z
  {
    var f := Scale(L, last);
    ScaleTimesLast(L, last);
    DilatedAxis(L.x, last.x, f.x, Smallest(f), rCut, rMax);
    DilatedAxis(L.y, last.y, f.y, Smallest(f), rCut, rMax);
    DilatedAxis(L.z, last.z, f.z, Smallest(f), rCut, rMax);
  }

  lemma DilatedAxis(L: real, last: real, f: real, m: real, rCut: real, rMax: real)
    requires Times(f, last) == L && 0.0 < m <= f && rMax >= 0.0 && 2.0 * rMax < last && Times(rMax, m) > rCut
    ensures 2.0 * rCut < L
  {
    RealMulMono(m, f, last);
    RealMulMono(2.0 * rMax, last, m);
    assert (2.0 * rMax) * m == 2.0 * (rMax * m);
  }
}
