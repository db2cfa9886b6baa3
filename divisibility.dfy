/**
 * `isMultiply(target, denoms)`: whether every denominator in the list divides
 * the target. The source walks the list with a flag that starts true and
 * breaks out at the first denominator that leaves a remainder.
 */
module Divisibility {

  /**
   * `target % denom === 0`. A zero denominator makes the JavaScript remainder
   * NaN, and `NaN !== 0`, so zero divides nothing.
   */
  predicate Divides(d: nat, n: nat) {
    d != 0 && n % d == 0
  }

  /** The specification of `isMultiply`: every denominator divides `n`. */
  predicate AllDivide(n: nat, ds: seq<nat>) {
    forall i :: 0 <= i < |ds| ==> Divides(ds[i], n)
  }

  /**
   * The loop of the source, flag and early `break` included. The result is
   * the plain "every denominator divides" test, so the early exit changes
   * nothing, and an empty list gives true.
   */
  method IsMultiply(target: nat, denoms: seq<nat>) returns (response: bool)
    ensures response <==> AllDivide(target, denoms)
  {
    response := true;
    for i := 0 to |denoms|
      invariant response
      invariant forall j :: 0 <= j < i ==> Divides(denoms[j], target)
    {
      if denoms[i] == 0 || target % denoms[i] != 0 {
        response := false;
        break;
      }
    }
  }

  /** A list of denominators splits into its parts. */
  lemma {:induction false} AllDivideConcat(n: nat, a: seq<nat>, b: seq<nat>)
    ensures AllDivide(n, a + b) <==> AllDivide(n, a) && AllDivide(n, b)
  {
    if AllDivide(n, a) && AllDivide(n, b) {
      forall i | 0 <= i < |a + b| ensures Divides((a + b)[i], n) {
        if i >= |a| {
          assert (a + b)[i] == b[i - |a|];
        }
      }
    }
    if AllDivide(n, a + b) {
      forall i | 0 <= i < |a| ensures Divides(a[i], n) {
        assert (a + b)[i] == a[i];
      }
      forall i | 0 <= i < |b| ensures Divides(b[i], n) {
        assert (a + b)[|a| + i] == b[i];
      }
    }
  }
}
