/** Stable selection from a sequence. */
module Sequences {

  function Filter<T>(xs: seq<T>, keep: T -> bool): seq<T> {
    if xs == [] then []
    else
      var last := xs[|xs| - 1];
      Filter(xs[..|xs| - 1], keep) + if keep(last) then [last] else []
  }

  lemma {:induction false} FilterMembers<T>(xs: seq<T>, keep: T -> bool)
    ensures forall x :: x in Filter(xs, keep) <==> x in xs && keep(x)
    decreases |xs|
  {
    if xs != [] {
      FilterMembers(xs[..|xs| - 1], keep);
      assert xs == xs[..|xs| - 1] + [xs[|xs| - 1]];
    }
  }

  lemma FilterAppend<T>(xs: seq<T>, keep: T -> bool, x: T)
    ensures Filter(xs + [x], keep) == Filter(xs, keep) + if keep(x) then [x] else []
  {
    assert (xs + [x])[..|xs|] == xs;
  }

  lemma FilterTake<T>(xs: seq<T>, keep: T -> bool, i: nat)
    requires i < |xs|
    ensures Filter(xs[..i + 1], keep) == Filter(xs[..i], keep) + if keep(xs[i]) then [xs[i]] else []
  {
    assert xs[..i + 1] == xs[..i] + [xs[i]];
    FilterAppend(xs[..i], keep, xs[i]);
  }

  lemma FilterSelects<T>(xs: seq<T>, keep: T -> bool, x: T)
    requires x in Filter(xs, keep)
    ensures x in xs && keep(x)
  {
    FilterMembers(xs, keep);
  }

  /** Elements carry keys, and no key occurs twice. */
  ghost predicate DistinctKeys<T>(xs: seq<T>, key: T -> nat) {
    forall i, j :: 0 <= i < j < |xs| ==> key(xs[i]) != key(xs[j])
  }

  lemma {:induction false} FilterDistinct<T>(xs: seq<T>, keep: T -> bool, key: T -> nat)
    requires DistinctKeys(xs, key)
    ensures DistinctKeys(Filter(xs, keep), key)
    decreases |xs|
  {
    if xs != [] {
      var rest, last := xs[..|xs| - 1], xs[|xs| - 1];
      FilterDistinct(rest, keep, key);
      forall x | x in Filter(rest, keep)
        ensures key(x) != key(last)
      {
        FilterSelects(rest, keep, x);
        var j :| 0 <= j < |rest| && rest[j] == x;
        assert xs[j] == x;
      }
    }
  }

  ghost predicate Increasing(ks: seq<nat>) {
    forall j, l :: 0 <= j < l < |ks| ==> ks[j] < ks[l]
  }

  /** An increasing sequence is determined by its members. */
  lemma {:induction false} SameMembers(xs: seq<nat>, ys: seq<nat>)
    requires Increasing(xs) && Increasing(ys) && forall x: nat :: x in xs <==> x in ys
    ensures xs == ys
    decreases |xs|
  {
    assert |xs| > 0 ==> xs[|xs| - 1] in xs;
    assert |ys| > 0 ==> ys[|ys| - 1] in ys;
    if xs != [] && ys != [] {
      var x, y := xs[|xs| - 1], ys[|ys| - 1];
      LastIsLargest(xs, y);
      LastIsLargest(ys, x);
      var before, before' := xs[..|xs| - 1], ys[..|ys| - 1];
      assert xs == before + [x] && ys == before' + [x];
      forall z: nat
        ensures z in before <==> z in before'
      {
        assert z in before ==> z in xs && z != x;
        assert z in before' ==> z in ys && z != x;
      }
      SameMembers(before, before');
    }
  }

  lemma LastIsLargest(xs: seq<nat>, x: nat)
    requires Increasing(xs) && x in xs
    ensures x <= xs[|xs| - 1]
  {
    var j :| 0 <= j < |xs| && xs[j] == x;
    assert j < |xs| - 1 ==> xs[j] < xs[|xs| - 1];
  }
}
