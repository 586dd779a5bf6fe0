/** Positional numerals: the digits a divmod loop produces, padding on the left, and reading them back. */
module Numerals {

  /** Big-endian digits of n; zero has no digits, as in a loop that runs while the number is positive. */
  function Digits(n: nat, base: nat): (ds: seq<nat>)
    requires base >= 2
    ensures forall i :: 0 <= i < |ds| ==> ds[i] < base
    decreases n
  {
    if n == 0 then [] else Digits(n / base, base) + [n % base]
  }

  function Value(ds: seq<nat>, base: nat): nat {
    if ds == [] then 0 else Value(ds[..|ds| - 1], base) * base + ds[|ds| - 1]
  }

  function Zeros(k: nat): seq<nat> {
    seq(k, _ => 0)
  }

  /** Digits right-justified to at least `width` places with zeros. */
  function Padded(n: nat, base: nat, width: nat): (ds: seq<nat>)
    requires base >= 2
    ensures forall i :: 0 <= i < |ds| ==> ds[i] < base
  {
    var ds := Digits(n, base);
    Zeros(if |ds| < width then width - |ds| else 0) + ds
  }

  function Power(base: nat, e: nat): nat {
    if e == 0 then 1 else Power(base, e - 1) * base
  }

  lemma DivisionIdentity(n: nat, base: nat)
    requires base >= 1
    ensures n / base * base + n % base == n
  {
  }

  lemma QuotientIsSmaller(n: nat, q: nat, r: nat, base: nat)
    requires n > 0 && base >= 2 && q * base + r == n
    ensures q < n
  {
    if q >= 1 {
      assert q * base >= q * 2;
    }
  }

  lemma ValueOfMore(ds: seq<nat>, d: nat, base: nat)
    ensures Value(ds + [d], base) == Value(ds, base) * base + d
  {
    assert (ds + [d])[..|ds|] == ds;
  }

  lemma {:induction false} ValueOfDigits(n: nat, base: nat)
    requires base >= 2
    ensures Value(Digits(n, base), base) == n
    decreases n
  {
    if n != 0 {
      hide Value;
      var q, r := n / base, n % base;
      DivisionIdentity(n, base);
      QuotientIsSmaller(n, q, r, base);
      ValueOfDigits(q, base);
      assert Digits(n, base) == Digits(q, base) + [r];
      ValueOfMore(Digits(q, base), r, base);
    }
  }

  lemma {:induction false} LeadingZerosDoNotCount(k: nat, ds: seq<nat>, base: nat)
    ensures Value(Zeros(k) + ds, base) == Value(ds, base)
    decreases |ds|, k
  {
    var all := Zeros(k) + ds;
    if ds != [] {
      assert all[..|all| - 1] == Zeros(k) + ds[..|ds| - 1];
      LeadingZerosDoNotCount(k, ds[..|ds| - 1], base);
    } else if k > 0 {
      assert all[..|all| - 1] == Zeros(k - 1) + [];
      LeadingZerosDoNotCount(k - 1, [], base);
    }
  }

  /** Padding loses nothing: the number can be read back, so different numbers print differently. */
  lemma PaddedReadsBack(n: nat, base: nat, width: nat)
    requires base >= 2
    ensures Value(Padded(n, base, width), base) == n
  {
    var ds := Digits(n, base);
    LeadingZerosDoNotCount(if |ds| < width then width - |ds| else 0, ds, base);
    ValueOfDigits(n, base);
  }

  lemma QuotientBelow(q: nat, r: nat, base: nat, p: nat)
    requires r < base
    ensures q < p <==> q * base + r < p * base
  {
    if q < p {
      assert (q + 1) * base <= p * base;
    } else {
      assert q * base >= p * base;
    }
  }

  /** A number has at most k digits exactly when it is below base^k. */
  lemma {:induction false} DigitCount(n: nat, base: nat, k: nat)
    requires base >= 2
    ensures |Digits(n, base)| <= k <==> n < Power(base, k)
    decreases k
  {
    if n == 0 {
      PowerPositive(base, k);
    } else if k > 0 {
      var q, r := n / base, n % base;
      DigitCount(q, base, k - 1);
      QuotientBelow(q, r, base, Power(base, k - 1));
      assert |Digits(n, base)| == |Digits(q, base)| + 1;
      DivisionIdentity(n, base);
    }
  }

  lemma {:induction false} PowerPositive(base: nat, k: nat)
    requires base >= 2
    ensures Power(base, k) > 0
  {
    if k > 0 {
      PowerPositive(base, k - 1);
    }
  }

  /** The first digit of a positive number is not zero. */
  lemma {:induction false} NoLeadingZero(n: nat, base: nat)
    requires base >= 2 && n > 0
    ensures Digits(n, base) != [] && Digits(n, base)[0] != 0
    decreases n
  {
    var q, r := n / base, n % base;
    DivisionIdentity(n, base);
    QuotientIsSmaller(n, q, r, base);
    if q > 0 {
      NoLeadingZero(q, base);
    }
  }
}
