/**
 * The input validator of the `/:command` route: the path token is accepted
 * exactly when it matches `^[1-9]\d*$`. Without the `u` flag, `\d` is the
 * ASCII class 0-9, and without the `m` flag `$` anchors at the end of the
 * whole token.
 *
 * Besides the predicate, the module gives the decimal value of a digit string
 * (`Parse`) and the canonical decimal rendering of a natural number (`Show`),
 * and proves that the accepted tokens are exactly the canonical renderings of
 * the integers >= 1.
 */
module Digits {

  predicate IsDigit(c: char) {
    '0' <= c <= '9'
  }

  predicate IsNonZeroDigit(c: char) {
    '1' <= c <= '9'
  }

  /** `/^[1-9]\d*$/.test(command)` */
  predicate ValidToken(s: string) {
    |s| > 0 && IsNonZeroDigit(s[0]) && forall i :: 1 <= i < |s| ==> IsDigit(s[i])
  }

  predicate AllDigits(s: string) {
    forall i :: 0 <= i < |s| ==> IsDigit(s[i])
  }

  function DigitValue(c: char): (d: nat)
    requires IsDigit(c)
    ensures d < 10
    ensures IsNonZeroDigit(c) <==> d != 0
  {
    c as int - '0' as int
  }

  function DigitChar(d: nat): (c: char)
    requires d < 10
    ensures IsDigit(c) && DigitValue(c) == d
  {
    ('0' as int + d) as char
  }

  /** The number a digit string denotes, most significant digit first. */
  function Parse(s: string): nat
    requires AllDigits(s)
    decreases |s|
  {
    if s == [] then 0 else Parse(s[..|s| - 1]) * 10 + DigitValue(s[|s| - 1])
  }

  /** The canonical decimal rendering of `n`: no sign and no leading zero. */
  function Show(n: nat): (s: string)
    ensures |s| > 0 && AllDigits(s)
    ensures ValidToken(s) <==> n != 0
  {
    if n < 10 then [DigitChar(n)] else Show(n / 10) + [DigitChar(n % 10)]
  }

  lemma ValidIsAllDigits(s: string)
    requires ValidToken(s)
    ensures AllDigits(s)
  {
    forall i | 0 <= i < |s| ensures IsDigit(s[i]) {
      if i == 0 {
        assert IsNonZeroDigit(s[0]);
      }
    }
  }

  /** Every accepted token denotes an integer >= 1. */
  lemma {:induction false} ParsePositive(s: string)
    requires ValidToken(s)
    ensures AllDigits(s) && Parse(s) >= 1
  {
    ValidIsAllDigits(s);
    if |s| > 1 {
      var p := s[..|s| - 1];
      assert ValidToken(p);
      ParsePositive(p);
    } else {
      assert s[..0] == [];
    }
  }

  /** Reading back the rendering of `n` gives `n`. */
  lemma {:induction false} ParseShow(n: nat)
    ensures Parse(Show(n)) == n
  {
    var s := Show(n);
    if n < 10 {
      assert s[..0] == [];
    } else {
      ParseShow(n / 10);
      assert s[..|s| - 1] == Show(n / 10);
    }
  }

  /** An accepted token is the rendering of the number it denotes. */
  lemma {:induction false} ShowParse(s: string)
    requires ValidToken(s)
    ensures AllDigits(s) && Show(Parse(s)) == s
  {
    ValidIsAllDigits(s);
    var last := s[|s| - 1];
    if |s| == 1 {
      assert s[..0] == [];
      assert Show(Parse(s)) == [DigitChar(DigitValue(last))];
    } else {
      var p := s[..|s| - 1];
      assert ValidToken(p);
      ParsePositive(p);
      ShowParse(p);
      var n := Parse(s);
      assert n == Parse(p) * 10 + DigitValue(last);
      assert n / 10 == Parse(p) && n % 10 == DigitValue(last);
      assert Show(n) == Show(Parse(p)) + [DigitChar(DigitValue(last))];
      assert s == p + [last];
    }
  }

  /**
   * The validator accepts a token if and only if it is the canonical decimal
   * rendering of an integer >= 1: "0", "007", "-5", "+5", "1.0", "abc" and
   * the empty token are all rejected.
   */
  lemma AcceptedIffCanonical(s: string)
    ensures ValidToken(s) <==> exists n: nat :: n >= 1 && Show(n) == s
  {
    if ValidToken(s) {
      ParsePositive(s);
      ShowParse(s);
      var n := Parse(s);
      assert n >= 1 && Show(n) == s;
    }
  }

  /** The inverse direction: every integer >= 1, rendered, is accepted and read back. */
  lemma CanonicalAccepted(n: nat)
    requires n >= 1
    ensures ValidToken(Show(n)) && Parse(Show(n)) == n
  {
    ParseShow(n);
  }

  lemma RejectedTokens()
    ensures !ValidToken("") && !ValidToken("0") && !ValidToken("007")
    ensures !ValidToken("-5") && !ValidToken("+5") && !ValidToken("1.0") && !ValidToken("abc")
    ensures ValidToken("7") && ValidToken("30") && ValidToken("100")
  {
    assert "1.0"[1] == '.';
  }
}
