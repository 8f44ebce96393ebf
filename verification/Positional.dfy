/** Big-endian positional notation in an arbitrary base, with leading zeros kept as symbols of
    their own: the arithmetic under base58 (src/crypto/onchain.py) and under little-endian integers. */
module Positional {

  ghost predicate InBase(s: seq<int>, b: int) {
    forall i :: 0 <= i < |s| ==> 0 <= s[i] < b
  }

  function Value(s: seq<int>, b: int): int {
    if s == [] then 0 else Value(s[..|s| - 1], b) * b + s[|s| - 1]
  }

  /** The digits of `n`, most significant first and without leading zeros; zero has no digits. */
  function Digits(n: nat, b: int): (s: seq<int>)
    requires b > 1
    ensures InBase(s, b)
    ensures s != [] ==> s[0] != 0
    decreases n
  {
    if n == 0 then [] else
    Shrinks(n, b);
    Digits(n / b, b) + [n % b]
  }

  lemma Shrinks(n: nat, b: int)
    requires n > 0 && b > 1
    ensures 0 <= n / b < n
    ensures n / b == 0 ==> n % b != 0
  {
    assert n == n / b * b + n % b;
    if n / b >= n {
      assert n / b * b >= n * b by { Scale(n, n / b, b); }
      assert n * b >= n * 2 by { Scale(2, b, n); }
    }
  }

  lemma Scale(x: int, y: int, c: int)
    requires x <= y && c >= 0
    ensures x * c <= y * c && c * x <= c * y
  {
  }

  function Zeros(k: nat): (s: seq<int>)
    ensures |s| == k && forall i :: 0 <= i < k ==> s[i] == 0
  {
    seq(k, _ => 0)
  }

  function LeadingZeros(s: seq<int>): (k: nat)
    ensures k <= |s|
    ensures s[..k] == Zeros(k)
    ensures k < |s| ==> s[k] != 0
  {
    if s == [] || s[0] != 0 then 0 else 1 + LeadingZeros(s[1..])
  }

  /** Rewrite from one base to another; every leading zero becomes one leading zero. */
  function Recode(s: seq<int>, from: int, to: int): (t: seq<int>)
    requires to > 1 && from > 0 && InBase(s, from)
    ensures InBase(t, to)
  {
    ValueNonNegative(s, from);
    Zeros(LeadingZeros(s)) + Digits(Value(s, from), to)
  }

  lemma {:induction false} ValueNonNegative(s: seq<int>, b: int)
    requires b > 0 && InBase(s, b)
    ensures Value(s, b) >= 0
  {
    if s != [] {
      ValueNonNegative(s[..|s| - 1], b);
      Scale(0, Value(s[..|s| - 1], b), b);
    }
  }

  lemma {:induction false} ValueOfDigits(n: nat, b: int)
    requires b > 1
    ensures Value(Digits(n, b), b) == n
  {
    if n > 0 {
      Shrinks(n, b);
      var q := n / b;
      ValueOfDigits(q, b);
      ValueAppend(Digits(q, b), n % b, b);
      assert Digits(n, b) == Digits(q, b) + [n % b];
      DivModIdentity(n, b);
    }
  }

  lemma DivModIdentity(n: int, b: int)
    requires b > 0
    ensures n / b * b + n % b == n
  {
  }

  lemma ValueAppend(s: seq<int>, d: int, b: int)
    ensures Value(s + [d], b) == Value(s, b) * b + d
  {
    assert (s + [d])[..|s|] == s;
  }

  lemma {:induction false} ValueSkipsZeros(k: nat, s: seq<int>, b: int)
    ensures Value(Zeros(k) + s, b) == Value(s, b)
  {
    var t := Zeros(k) + s;
    if s != [] {
      ValueSkipsZeros(k, s[..|s| - 1], b);
      assert t[..|t| - 1] == Zeros(k) + s[..|s| - 1];
    } else if k > 0 {
      ValueSkipsZeros(k - 1, [], b);
      assert t[..|t| - 1] == Zeros(k - 1) + [];
    }
  }

  /** Without leading zeros a digit string is recovered from its value. */
  lemma {:induction false} DigitsOfValue(s: seq<int>, b: int)
    requires b > 1 && InBase(s, b) && (s != [] ==> s[0] != 0)
    ensures Value(s, b) >= 0 && Digits(Value(s, b), b) == s
    ensures s != [] ==> Value(s, b) > 0
  {
    if s != [] {
      var init, last := s[..|s| - 1], s[|s| - 1];
      DigitsOfValue(init, b);
      DivModUnique(Value(init, b), last, b);
      if init == [] {
        assert s == [last];
      }
      assert s == init + [last];
    }
  }

  lemma DivModUnique(q: nat, r: int, b: int)
    requires b > 1 && 0 <= r < b
    ensures (q * b + r) / b == q && (q * b + r) % b == r
    ensures q * b >= q
  {
    Scale(1, b, q);
    var n := q * b + r;
    assert n == (n / b) * b + n % b;
    if n / b < q {
      Scale(n / b + 1, q, b);
    } else if n / b > q {
      Scale(q + 1, n / b, b);
    }
  }

  lemma {:induction false} LeadingZerosOf(k: nat, t: seq<int>)
    requires t != [] ==> t[0] != 0
    ensures LeadingZeros(Zeros(k) + t) == k
  {
    if k > 0 {
      LeadingZerosOf(k - 1, t);
      assert (Zeros(k) + t)[1..] == Zeros(k - 1) + t;
    } else {
      assert Zeros(0) + t == t;
    }
  }

  /** Recoding there and back is the identity, for every digit string and every pair of bases. */
  lemma RecodeRoundTrip(s: seq<int>, a: int, b: int)
    requires a > 1 && b > 1 && InBase(s, a)
    ensures Recode(Recode(s, a, b), b, a) == s
  {
    var k := LeadingZeros(s);
    var rest := s[k..];
    assert s == Zeros(k) + rest;
    ValueSkipsZeros(k, rest, a);
    DigitsOfValue(rest, a);
    var n := Value(s, a);
    LeadingZerosOf(k, Digits(n, b));
    ValueSkipsZeros(k, Digits(n, b), b);
    ValueOfDigits(n, b);
  }
}
