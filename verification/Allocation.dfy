/** The budget split between the two markets (`Allocation.normalized`, src/models.py). */
module Allocation {
  import opened Models

  /** `crypto` and `stocks` are the two shares of the budget. */
  datatype Split = Split(crypto: real, stocks: real)

  const EVEN := Split(0.5, 0.5)

  /** Clamp to the ceilings, then renormalise so that the shares sum to one. */
  function Normalized(a: Split, cryptoMax: real, stockMax: real): Split {
    var crypto := Max(0.0, Min(a.crypto, cryptoMax));
    var stocks := Max(0.0, Min(a.stocks, stockMax));
    var total := crypto + stocks;
    if total <= 0.0 then EVEN else Split(crypto / total, stocks / total)
  }

  ghost predicate IsUnitSplit(a: Split) {
    a.crypto >= 0.0 && a.stocks >= 0.0 && a.crypto + a.stocks == 1.0
  }

  /** Whatever the model replied and whatever the ceilings are, the result is a division of the whole budget. */
  lemma NormalizedIsUnitSplit(a: Split, cryptoMax: real, stockMax: real)
    ensures IsUnitSplit(Normalized(a, cryptoMax, stockMax))
  {
    var crypto := Max(0.0, Min(a.crypto, cryptoMax));
    var stocks := Max(0.0, Min(a.stocks, stockMax));
    var total := crypto + stocks;
    if total > 0.0 {
      DivNonNegative(crypto, total);
      DivNonNegative(stocks, total);
      assert crypto / total + stocks / total == total / total;
    }
  }

  /** A unit split is left alone exactly when it is under both ceilings or one market has it all,
      provided the ceilings leave room for a whole budget. */
  lemma FixedIffInRange(a: Split, cryptoMax: real, stockMax: real)
    requires IsUnitSplit(a) && 0.0 < cryptoMax <= 1.0 && 0.0 < stockMax <= 1.0 && cryptoMax + stockMax >= 1.0
    ensures Normalized(a, cryptoMax, stockMax) == a <==>
            (a.crypto <= cryptoMax && a.stocks <= stockMax) || a.crypto == 0.0 || a.stocks == 0.0
  {
    hide Normalized;
    if a.crypto > cryptoMax && a.stocks > 0.0 {
      OnePass(a, cryptoMax, stockMax);
    } else if a.stocks > stockMax && a.crypto > 0.0 {
      OnePass(Split(a.stocks, a.crypto), stockMax, cryptoMax);
      Symmetric(a, cryptoMax, stockMax);
    } else {
      KeptWhenInRange(a, cryptoMax, stockMax);
    }
  }

  lemma KeptWhenInRange(a: Split, cryptoMax: real, stockMax: real)
    requires IsUnitSplit(a) && 0.0 < cryptoMax && 0.0 < stockMax
    requires (a.crypto <= cryptoMax && a.stocks <= stockMax) || a.crypto == 0.0 || a.stocks == 0.0
    ensures Normalized(a, cryptoMax, stockMax) == a
  {
    hide IsUnitSplit;
    if a.crypto == 0.0 || a.stocks == 0.0 {
      OneMarket(a, cryptoMax, stockMax);
    } else {
      BothMarkets(a, cryptoMax, stockMax);
    }
  }

  lemma BothMarkets(a: Split, cryptoMax: real, stockMax: real)
    requires IsUnitSplit(a) && a.crypto <= cryptoMax && a.stocks <= stockMax
    ensures Normalized(a, cryptoMax, stockMax) == a
  {
    assert Max(0.0, Min(a.crypto, cryptoMax)) == a.crypto && Max(0.0, Min(a.stocks, stockMax)) == a.stocks;
    assert a.crypto / 1.0 == a.crypto && a.stocks / 1.0 == a.stocks;
  }

  lemma OneMarket(a: Split, cryptoMax: real, stockMax: real)
    requires IsUnitSplit(a) && 0.0 < cryptoMax && 0.0 < stockMax && (a.crypto == 0.0 || a.stocks == 0.0)
    ensures Normalized(a, cryptoMax, stockMax) == a
  {
    if a.crypto == 0.0 {
      TakesAll(Min(1.0, stockMax));
    } else {
      TakesAll(Min(1.0, cryptoMax));
    }
  }

  /** The share left to the other market by one pass, when `1 - s` is over the ceiling `cap`. */
  function Squeezed(s: real, cap: real): real
    requires s > 0.0 && cap > 0.0
  {
    s / (cap + s)
  }

  /** One pass moves the over-ceiling share strictly towards the ceiling and never reaches it. */
  lemma OverCeiling(s: real, cap: real)
    requires 0.0 < s && 0.0 < cap && 1.0 - s > cap
    ensures s < Squeezed(s, cap)
    ensures cap < 1.0 - Squeezed(s, cap) < 1.0 - s
    ensures 1.0 / Squeezed(s, cap) == cap / s + 1.0
    ensures cap / (cap + s) == 1.0 - Squeezed(s, cap)
  {
    var t := cap + s;
    Scale(s, t, 1.0);
    Scale(cap, t, 1.0);
    Compare(s, t, s);
    Compare(cap, t, cap);
    Cancel(s / t + cap / t, 1.0, t);
    Reciprocal(s, t);
    assert t / s == cap / s + s / s;
  }

  lemma Scale(x: real, lo: real, hi: real)
    requires x > 0.0 && lo < hi
    ensures x * lo < x * hi
  {
  }

  lemma Compare(x: real, t: real, y: real)
    requires t > 0.0
    ensures y < x / t <==> y * t < x
  {
    var q := x / t;
    assert q * t == x;
    if y < q {
      Scale(t, y, q);
    } else if q < y {
      Scale(t, q, y);
    }
  }

  lemma Reciprocal(s: real, t: real)
    requires s > 0.0 && t > 0.0
    ensures s / t > 0.0 && 1.0 / (s / t) == t / s
  {
    var q, p := s / t, t / s;
    Compare(s, t, 0.0);
    assert q * t == s && p * s == t;
    assert (p * q) * t == p * (q * t);
    Compare(1.0, q, p);
    Compare(t, s, 0.0);
    Cancel(p * q, 1.0, t);
    Cancel(1.0 / q, p, q);
  }

  lemma Cancel(x: real, y: real, t: real)
    requires t != 0.0 && x * t == y * t
    ensures x == y
  {
  }

  // -- the same clamp applied again and again -------------------------------------------------

  /** `n` passes of `Normalized` with the same ceilings: the allocator applies one, the risk manager another. */
  function Passes(a: Split, cryptoMax: real, stockMax: real, n: nat): Split {
    if n == 0 then a else Normalized(Passes(a, cryptoMax, stockMax, n - 1), cryptoMax, stockMax)
  }

  function Power(x: real, n: nat): real {
    if n == 0 then 1.0 else x * Power(x, n - 1)
  }

  /** 1 + cap + ... + cap^(n-1). */
  function Geometric(cap: real, n: nat): real {
    if n == 0 then 0.0 else cap * Geometric(cap, n - 1) + 1.0
  }

  function Next(x: real, cap: real): real {
    cap * x + 1.0
  }

  /** `n` steps of x := cap * x + 1. */
  function Iterated(x: real, cap: real, n: nat): real {
    if n == 0 then x else Next(Iterated(x, cap, n - 1), cap)
  }

  function Closed(x: real, cap: real, n: nat): real {
    Power(cap, n) * x + Geometric(cap, n)
  }

  lemma {:induction false} IteratedClosedForm(x: real, cap: real, n: nat)
    ensures Iterated(x, cap, n) == Closed(x, cap, n)
  {
    if n > 0 {
      IteratedClosedForm(x, cap, n - 1);
    }
  }

  /** On a unit split whose crypto share is over its ceiling, every pass brings the share closer to
      the ceiling and none reaches it; the reciprocal of the other share obeys x_n = cap * x_(n-1) + 1,
      that is x_n = cap^n * x_0 + (1 + cap + ... + cap^(n-1)). */
  lemma {:induction false} RepeatedPasses(a: Split, cryptoMax: real, stockMax: real, n: nat)
    requires IsUnitSplit(a) && a.stocks > 0.0 && a.crypto > cryptoMax
    requires 0.0 < cryptoMax <= 1.0 && 0.0 < stockMax <= 1.0 && cryptoMax + stockMax >= 1.0
    ensures var p := Passes(a, cryptoMax, stockMax, n);
            && IsUnitSplit(p) && p.stocks > 0.0 && p.crypto > cryptoMax
            && 1.0 / p.stocks == Closed(1.0 / a.stocks, cryptoMax, n)
    ensures n > 0 ==> Passes(a, cryptoMax, stockMax, n).crypto < Passes(a, cryptoMax, stockMax, n - 1).crypto
  {
    PassesStayOver(a, cryptoMax, stockMax, n);
    PassesReciprocal(a, cryptoMax, stockMax, n);
    IteratedClosedForm(1.0 / a.stocks, cryptoMax, n);
    if n > 0 {
      PassesFall(a, cryptoMax, stockMax, n);
    }
  }

  lemma PassesFall(a: Split, cryptoMax: real, stockMax: real, n: nat)
    requires IsUnitSplit(a) && a.stocks > 0.0 && a.crypto > cryptoMax && n > 0
    requires 0.0 < cryptoMax <= 1.0 && 0.0 < stockMax <= 1.0 && cryptoMax + stockMax >= 1.0
    ensures Passes(a, cryptoMax, stockMax, n).crypto < Passes(a, cryptoMax, stockMax, n - 1).crypto
  {
    PassesStayOver(a, cryptoMax, stockMax, n - 1);
    OnePass(Passes(a, cryptoMax, stockMax, n - 1), cryptoMax, stockMax);
  }

  lemma {:induction false} PassesStayOver(a: Split, cryptoMax: real, stockMax: real, n: nat)
    requires IsUnitSplit(a) && a.stocks > 0.0 && a.crypto > cryptoMax
    requires 0.0 < cryptoMax <= 1.0 && 0.0 < stockMax <= 1.0 && cryptoMax + stockMax >= 1.0
    ensures var p := Passes(a, cryptoMax, stockMax, n);
            IsUnitSplit(p) && p.stocks > 0.0 && p.crypto > cryptoMax
  {
    if n > 0 {
      PassesStayOver(a, cryptoMax, stockMax, n - 1);
      OnePass(Passes(a, cryptoMax, stockMax, n - 1), cryptoMax, stockMax);
    }
  }

  lemma {:induction false} PassesReciprocal(a: Split, cryptoMax: real, stockMax: real, n: nat)
    requires IsUnitSplit(a) && a.stocks > 0.0 && a.crypto > cryptoMax
    requires 0.0 < cryptoMax <= 1.0 && 0.0 < stockMax <= 1.0 && cryptoMax + stockMax >= 1.0
    ensures Passes(a, cryptoMax, stockMax, n).stocks > 0.0
    ensures 1.0 / Passes(a, cryptoMax, stockMax, n).stocks == Iterated(1.0 / a.stocks, cryptoMax, n)
  {
    if n > 0 {
      var q := Passes(a, cryptoMax, stockMax, n - 1);
      assert 1.0 / q.stocks == Iterated(1.0 / a.stocks, cryptoMax, n - 1) by {
        PassesReciprocal(a, cryptoMax, stockMax, n - 1);
      }
      PassesStayOver(a, cryptoMax, stockMax, n - 1);
      OnePass(q, cryptoMax, stockMax);
    }
  }

  lemma OnePass(q: Split, cryptoMax: real, stockMax: real)
    requires IsUnitSplit(q) && q.stocks > 0.0 && q.crypto > cryptoMax
    requires 0.0 < cryptoMax <= 1.0 && 0.0 < stockMax <= 1.0 && cryptoMax + stockMax >= 1.0
    ensures var p := Normalized(q, cryptoMax, stockMax);
            && IsUnitSplit(p) && p.stocks > q.stocks && cryptoMax < p.crypto < q.crypto
            && 1.0 / p.stocks == Next(1.0 / q.stocks, cryptoMax)
  {
    OverCeiling(q.stocks, cryptoMax);
    NormalizedIsUnitSplit(q, cryptoMax, stockMax);
    assert Normalized(q, cryptoMax, stockMax).stocks == Squeezed(q.stocks, cryptoMax);
    assert cryptoMax / q.stocks == cryptoMax * (1.0 / q.stocks);
  }

  /** The two markets are treated alike: swapping them swaps the result. */
  lemma Symmetric(a: Split, cryptoMax: real, stockMax: real)
    ensures var p, q := Normalized(a, cryptoMax, stockMax), Normalized(Split(a.stocks, a.crypto), stockMax, cryptoMax);
            p.crypto == q.stocks && p.stocks == q.crypto
  {
  }

  // -- when the ceilings hold -----------------------------------------------------------------

  predicate InRange(a: Split, cryptoMax: real, stockMax: real) {
    a.crypto <= cryptoMax && a.stocks <= stockMax
  }

  /** A share clamped to its ceiling ends above it, because what is clamped no longer sums to one. */
  lemma ClampedEndsOver(a: Split, cryptoMax: real, stockMax: real)
    requires IsUnitSplit(a) && 0.0 < cryptoMax < a.crypto
    ensures Normalized(a, cryptoMax, stockMax).crypto > cryptoMax
  {
    var total := cryptoMax + Max(0.0, Min(a.stocks, stockMax));
    assert 0.0 < total < 1.0;
    Scale(cryptoMax, total, 1.0);
    Compare(cryptoMax, total, cryptoMax);
  }

  lemma TakesAll(x: real)
    requires x > 0.0
    ensures x / x == 1.0 && 0.0 / x == 0.0
  {
  }

  /** A ceiling of zero or less is met only when the other market takes the whole budget. */
  lemma ClosedMarket(a: Split, cryptoMax: real, stockMax: real)
    requires IsUnitSplit(a) && cryptoMax <= 0.0
    ensures InRange(Normalized(a, cryptoMax, stockMax), cryptoMax, stockMax)
            <==> cryptoMax == 0.0 && stockMax >= 1.0 && a.stocks > 0.0
  {
    var stocks := Max(0.0, Min(a.stocks, stockMax));
    if stocks > 0.0 {
      TakesAll(stocks);
    }
  }

  /** Clamping to the ceilings, for all ceilings: the normalized split respects them exactly when the
      request already did, or when one market is closed by a ceiling of zero, the other may have the whole
      budget, and the request gave it something. */
  lemma CeilingsHeldIff(a: Split, cryptoMax: real, stockMax: real)
    requires IsUnitSplit(a)
    ensures InRange(Normalized(a, cryptoMax, stockMax), cryptoMax, stockMax) <==>
              || InRange(a, cryptoMax, stockMax)
              || (cryptoMax == 0.0 && stockMax >= 1.0 && a.stocks > 0.0)
              || (stockMax == 0.0 && cryptoMax >= 1.0 && a.crypto > 0.0)
  {
    var mirrored := Split(a.stocks, a.crypto);
    Symmetric(a, cryptoMax, stockMax);
    if cryptoMax <= 0.0 {
      ClosedMarket(a, cryptoMax, stockMax);
    } else if stockMax <= 0.0 {
      ClosedMarket(mirrored, stockMax, cryptoMax);
    } else if a.crypto > cryptoMax {
      ClampedEndsOver(a, cryptoMax, stockMax);
    } else if a.stocks > stockMax {
      ClampedEndsOver(mirrored, stockMax, cryptoMax);
    } else {
      KeptWhenInRange(a, cryptoMax, stockMax);
    }
  }

  /** So repeating the clamp does not help: after any number of passes an open market's ceiling holds
      exactly when it held of the request. */
  lemma {:induction false} PassesHeldIff(a: Split, cryptoMax: real, stockMax: real, n: nat)
    requires IsUnitSplit(a) && 0.0 < cryptoMax && 0.0 < stockMax
    ensures IsUnitSplit(Passes(a, cryptoMax, stockMax, n))
    ensures InRange(Passes(a, cryptoMax, stockMax, n), cryptoMax, stockMax) <==> InRange(a, cryptoMax, stockMax)
  {
    if n > 0 {
      var before := Passes(a, cryptoMax, stockMax, n - 1);
      PassesHeldIff(a, cryptoMax, stockMax, n - 1);
      NormalizedIsUnitSplit(before, cryptoMax, stockMax);
      CeilingsHeldIff(before, cryptoMax, stockMax);
    }
  }

  /** Two requests that end above a ceiling of 0.7: everything stays everything, and 0.9 becomes 0.875. */
  lemma CeilingCanBeExceeded()
    ensures Normalized(Split(1.0, 0.0), 0.7, 0.7) == Split(1.0, 0.0)
    ensures Normalized(Split(0.9, 0.1), 0.7, 0.7) == Split(0.875, 0.125)
  {
    TakesAll(0.7);
    assert 0.7 / 0.8 == 0.875 && 0.1 / 0.8 == 0.125;
  }
}
