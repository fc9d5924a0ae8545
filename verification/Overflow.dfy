/** List memory with a fixed number of entries per row: rows are filled as far as they fit, but
    counted in full, and the largest count that did not fit is recorded. */
module Overflow {

  function Min(a: nat, b: nat): nat {
    if a <= b then a else b
  }

  function Max(a: nat, b: nat): nat {
    if a >= b then a else b
  }

  /** The overflow condition is the largest row length that exceeds the memory, or zero. */
  ghost predicate Exact<T>(full: seq<seq<T>>, nMax: nat, conditions: nat) {
    && (forall r :: 0 <= r < |full| && |full[r]| > nMax ==> |full[r]| <= conditions)
    && (conditions > 0 ==> conditions > nMax && exists r :: 0 <= r < |full| && |full[r]| == conditions)
  }

  /** Memory and counts stand for the rows `full`. */
  ghost predicate Stored<T>(rows: seq<seq<T>>, counts: seq<nat>, nMax: nat, full: seq<seq<T>>) {
    && |rows| == |counts| == |full|
    && forall r :: 0 <= r < |full| ==> counts[r] == |full[r]| && rows[r] == full[r][..Min(|full[r]|, nMax)]
  }

  lemma GrownExact<T>(full: seq<seq<T>>, nMax: nat, conditions: nat, i: nat, x: T)
    requires Exact(full, nMax, conditions) && i < |full|
    ensures Exact(full[i := full[i] + [x]], nMax, if |full[i]| < nMax then conditions else Max(conditions, |full[i]| + 1))
  {
    var grown := full[i := full[i] + [x]];
    if conditions > 0 {
      var r :| 0 <= r < |full| && |full[r]| == conditions;
      assert |grown[r]| >= conditions && |grown[i]| == |full[i]| + 1;
    } else {
      assert |grown[i]| == |full[i]| + 1;
    }
  }

  /** The condition exceeds the memory exactly if some row does, and then it is the memory needed. */
  lemma ExactDecides<T>(full: seq<seq<T>>, nMax: nat, conditions: nat)
    requires Exact(full, nMax, conditions)
    ensures conditions > nMax <==> exists r :: 0 <= r < |full| && |full[r]| > nMax
    ensures conditions > nMax ==> (forall r :: 0 <= r < |full| ==> |full[r]| <= conditions) && exists r :: 0 <= r < |full| && |full[r]| == conditions
  {
  }
}
