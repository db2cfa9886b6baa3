/**
 * The classification chain of the `/:command` route: an ordered
 * if/else-if over the denominator lists [2, 3, 5], [2, 3], [2, 5], [3, 5],
 * [2], [3], [5], the first passing `isMultiply` choosing the label, and the
 * default "INVALID" kept when none passes.
 */
module Classifier {
  import opened Divisibility

  /** The eight bodies the route can send. */
  const Labels: set<string> := {"GUROBI", "GURO", "GUBI", "ROBI", "GU", "RO", "BI", "INVALID"}

  /** The chain, in the order the source tries it. */
  function Classify(n: nat): (result: string)
    ensures result in Labels
  {
    if AllDivide(n, [2, 3, 5]) then "GUROBI"
    else if AllDivide(n, [2, 3]) then "GURO"
    else if AllDivide(n, [2, 5]) then "GUBI"
    else if AllDivide(n, [3, 5]) then "ROBI"
    else if AllDivide(n, [2]) then "GU"
    else if AllDivide(n, [3]) then "RO"
    else if AllDivide(n, [5]) then "BI"
    else "INVALID"
  }

  /**
   * The rule as the problem statement words it: "GU" for a multiple of 2,
   * "RO" for a multiple of 3, "BI" for a multiple of 5, the combination in
   * that order when several apply, and "INVALID" when none does.
   */
  function ComposedLabel(n: nat): string {
    var parts := (if Divides(2, n) then "GU" else "")
               + (if Divides(3, n) then "RO" else "")
               + (if Divides(5, n) then "BI" else "");
    if parts == "" then "INVALID" else parts
  }

  lemma AllDivideOne(n: nat, a: nat)
    ensures AllDivide(n, [a]) <==> Divides(a, n)
  {
    assert [a][0] == a;
  }

  lemma AllDivideTwo(n: nat, a: nat, b: nat)
    ensures AllDivide(n, [a, b]) <==> Divides(a, n) && Divides(b, n)
  {
    AllDivideOne(n, a);
    AllDivideOne(n, b);
    AllDivideConcat(n, [a], [b]);
    assert [a] + [b] == [a, b];
  }

  lemma AllDivideThree(n: nat, a: nat, b: nat, c: nat)
    ensures AllDivide(n, [a, b, c]) <==> Divides(a, n) && Divides(b, n) && Divides(c, n)
  {
    AllDivideTwo(n, a, b);
    AllDivideOne(n, c);
    AllDivideConcat(n, [a, b], [c]);
    assert [a, b] + [c] == [a, b, c];
  }

  /** Each test of the chain, stated on the three divisors. */
  lemma ChainTests(n: nat)
    ensures AllDivide(n, [2, 3, 5]) <==> Divides(2, n) && Divides(3, n) && Divides(5, n)
    ensures AllDivide(n, [2, 3]) <==> Divides(2, n) && Divides(3, n)
    ensures AllDivide(n, [2, 5]) <==> Divides(2, n) && Divides(5, n)
    ensures AllDivide(n, [3, 5]) <==> Divides(3, n) && Divides(5, n)
    ensures AllDivide(n, [2]) <==> Divides(2, n)
    ensures AllDivide(n, [3]) <==> Divides(3, n)
    ensures AllDivide(n, [5]) <==> Divides(5, n)
  {
    AllDivideThree(n, 2, 3, 5);
    AllDivideTwo(n, 2, 3);
    AllDivideTwo(n, 2, 5);
    AllDivideTwo(n, 3, 5);
    AllDivideOne(n, 2);
    AllDivideOne(n, 3);
    AllDivideOne(n, 5);
  }

  /** The first-match chain computes the composed label for every number. */
  lemma ClassifyIsComposed(n: nat)
    ensures Classify(n) == ComposedLabel(n)
  {
    ChainTests(n);
  }

  /**
   * Each label names exactly one divisibility pattern. In particular a number
   * divisible by 2, 3 and 5 gets "GUROBI" and never falls through to a
   * partial label.
   */
  lemma ClassifyExactly(n: nat)
    ensures Classify(n) == "GUROBI" <==> Divides(2, n) && Divides(3, n) && Divides(5, n)
    ensures Classify(n) == "GURO" <==> Divides(2, n) && Divides(3, n) && !Divides(5, n)
    ensures Classify(n) == "GUBI" <==> Divides(2, n) && !Divides(3, n) && Divides(5, n)
    ensures Classify(n) == "ROBI" <==> !Divides(2, n) && Divides(3, n) && Divides(5, n)
    ensures Classify(n) == "GU" <==> Divides(2, n) && !Divides(3, n) && !Divides(5, n)
    ensures Classify(n) == "RO" <==> !Divides(2, n) && Divides(3, n) && !Divides(5, n)
    ensures Classify(n) == "BI" <==> !Divides(2, n) && !Divides(3, n) && Divides(5, n)
    ensures Classify(n) == "INVALID" <==> !Divides(2, n) && !Divides(3, n) && !Divides(5, n)
  {
    ChainTests(n);
  }

  lemma ShiftByThirty(x: nat)
    ensures (x + 30) % 2 == x % 2 && (x + 30) % 3 == x % 3 && (x + 30) % 5 == x % 5
    ensures (x + 30) % 30 == x % 30
  {
  }

  /** The remainders by 2, 3 and 5 are those of the remainder by 30. */
  lemma {:induction false} RemaindersModThirty(n: nat)
    ensures n % 2 == (n % 30) % 2
    ensures n % 3 == (n % 30) % 3
    ensures n % 5 == (n % 30) % 5
  {
    if n >= 30 {
      RemaindersModThirty(n - 30);
      ShiftByThirty(n - 30);
    }
  }

  /** The label depends only on the remainder modulo 30 = 2 * 3 * 5. */
  lemma ClassifyPeriodic(n: nat)
    ensures Classify(n) == Classify(n % 30)
  {
    RemaindersModThirty(n);
    ChainTests(n);
    ChainTests(n % 30);
  }

  lemma Examples()
    ensures Classify(30) == "GUROBI" && Classify(6) == "GURO" && Classify(20) == "GUBI"
    ensures Classify(15) == "ROBI" && Classify(2) == "GU" && Classify(3) == "RO"
    ensures Classify(5) == "BI" && Classify(7) == "INVALID"
  {
    ChainTests(30);
    ChainTests(6);
    ChainTests(20);
    ChainTests(15);
    ChainTests(2);
    ChainTests(3);
    ChainTests(5);
    ChainTests(7);
  }
}
