/** Constant-product quotes of the bonding curve (src/crypto/onchain.py), and what a chain of
    trades on the curve can and cannot gain. All amounts are unbounded integers, as in the source.
    Dafny's `/` and Python's `//` agree here: every divisor is positive. */
module Curve {
  import opened Models

  const BPS_ONE: int := 10_000

  /** The pair of virtual reserves a quote is computed from. */
  datatype Reserves = Reserves(quote: int, token: int)

  /** `a / b` rounded up. */
  function CeilDiv(a: int, b: int): int
    requires b > 0
  {
    (a + b - 1) / b
  }

  function ApplyBps(amount: int, bps: int): int {
    if amount <= 0 || bps <= 0 then 0 else amount * bps / BPS_ONE
  }

  function TokensOut(virtualQuote: int, virtualToken: int, quoteIn: int): int {
    if virtualQuote <= 0 || virtualToken <= 0 || quoteIn <= 0 then 0
    else
      var newQuote := virtualQuote + quoteIn;
      var newToken := (virtualQuote * virtualToken) / newQuote;
      MaxInt(0, virtualToken - newToken)
  }

  function QuoteOut(virtualQuote: int, virtualToken: int, tokenIn: int): int {
    if virtualQuote <= 0 || virtualToken <= 0 || tokenIn <= 0 then 0
    else
      var newToken := virtualToken + tokenIn;
      var newQuote := (virtualQuote * virtualToken) / newToken;
      MaxInt(0, virtualQuote - newQuote)
  }

  // -- integer division, the two facts everything below rests on --------------------

  lemma DivBounds(a: int, b: int)
    requires b > 0
    ensures b * (a / b) <= a
    ensures a - b < b * (a / b)
  {
  }

  /** The quotient is the largest integer whose multiple does not pass `a`. */
  lemma DivGreatest(a: int, b: int, k: int)
    requires b > 0
    ensures k <= a / b <==> b * k <= a
  {
    DivBounds(a, b);
    if b * k <= a && k > a / b {
      MulMono(b, a / b + 1, k);
    }
    if k <= a / b {
      MulMono(b, k, a / b);
    }
  }

  lemma MulMono(c: int, x: int, y: int)
    requires c >= 0 && x <= y
    ensures c * x <= c * y
  {
  }

  // -- one quote ---------------------------------------------------------------------

  /** The quote is the exact share `vt * in / (vq + in)` rounded UP, in the trader's favour. */
  lemma TokensOutIsCeiling(vq: int, vt: int, quoteIn: int)
    requires vq > 0 && vt > 0 && quoteIn > 0
    ensures TokensOut(vq, vt, quoteIn) == CeilDiv(vt * quoteIn, vq + quoteIn)
    ensures 1 <= TokensOut(vq, vt, quoteIn) <= vt
  {
    var n := vq + quoteIn;
    var t := (vq * vt) / n;
    DivBounds(vq * vt, n);
    assert vq * vt + vt * quoteIn == n * vt;
    DivGreatest(vq * vt, n, vt);
    assert vt * quoteIn > 0;
    DivGreatest(vq * vt, n, 0);
    var a := vt * quoteIn + n - 1;
    assert n * (vt - t) == n * vt - n * t;
    DivGreatest(a, n, vt - t);
    DivGreatest(a, n, vt - t + 1);
    assert n * (vt - t + 1) == n * vt - n * t + n;
  }

  /** Selling is buying on the mirrored curve, so every fact about one holds of the other. */
  lemma SellingIsBuyingMirrored(vq: int, vt: int, amount: int)
    ensures QuoteOut(vq, vt, amount) == TokensOut(vt, vq, amount)
  {
    assert vq * vt == vt * vq;
  }

  // -- splitting a buy ----------------------------------------------------------------

  function AfterBuy(r: Reserves, quoteIn: int): Reserves {
    Reserves(r.quote + quoteIn, r.token - TokensOut(r.quote, r.token, quoteIn))
  }

  function Sum(qs: seq<int>): int {
    if qs == [] then 0 else Sum(qs[..|qs| - 1]) + qs[|qs| - 1]
  }

  /** The reserves after buying with each of `qs` in turn. */
  function AfterBuys(r: Reserves, qs: seq<int>): Reserves {
    if qs == [] then r else AfterBuy(AfterBuys(r, qs[..|qs| - 1]), qs[|qs| - 1])
  }

  /** The tokens handed out over the whole sequence, quote by quote. */
  function TotalOut(r: Reserves, qs: seq<int>): int {
    if qs == [] then 0
    else
      var before := AfterBuys(r, qs[..|qs| - 1]);
      TotalOut(r, qs[..|qs| - 1]) + TokensOut(before.quote, before.token, qs[|qs| - 1])
  }

  ghost predicate AllPositive(qs: seq<int>) {
    forall i :: 0 <= i < |qs| ==> qs[i] > 0
  }

  /** One floor division: what the product keeps, and what the rounding can take from it. */
  lemma FloorStep(vq: int, vt: int, n: int)
    requires 0 < vq < n && vt >= 0
    ensures 0 <= (vq * vt) / n <= vt
    ensures vq * vt - (n - 1) <= n * ((vq * vt) / n) <= vq * vt
  {
    var k := vq * vt;
    assert k >= 0;
    DivBounds(k, n);
    DivGreatest(k, n, 0);
    assert k <= n * vt by { MulMono(vt, vq, n); }
    assert n * (vt + 1) == n * vt + n;
    DivGreatest(k, n, vt + 1);
  }

  lemma AfterBuyBounds(r: Reserves, quoteIn: int)
    requires r.quote > 0 && r.token >= 0 && quoteIn > 0
    ensures AfterBuy(r, quoteIn).token == (r.quote * r.token) / (r.quote + quoteIn)
    ensures AfterBuy(r, quoteIn).token >= 0
    ensures var s := AfterBuy(r, quoteIn);
            r.quote * r.token - (s.quote - 1) <= s.quote * s.token <= r.quote * r.token
  {
    FloorStep(r.quote, r.token, r.quote + quoteIn);
  }

  lemma WeakenLoss(k: int, n: nat, product: int, before: int, after: int)
    requires before <= after && k - n * (before - 1) <= product
    ensures k - (n + 1) * (after - 1) <= product - (after - 1)
  {
    MulMono(n, before - 1, after - 1);
    assert (n + 1) * (after - 1) == n * (after - 1) + (after - 1);
  }

  /** The product of the reserves never grows, and n buys lose less than n times the last quote reserve. */
  lemma {:induction false} AfterBuysBounds(r: Reserves, qs: seq<int>)
    requires r.quote > 0 && r.token >= 0 && AllPositive(qs)
    ensures var s := AfterBuys(r, qs);
            && s.quote == r.quote + Sum(qs) && s.quote >= r.quote && s.token >= 0
            && s.token == r.token - TotalOut(r, qs)
            && r.quote * r.token - |qs| * (s.quote - 1) <= s.quote * s.token <= r.quote * r.token
  {
    if qs != [] {
      var init, q := qs[..|qs| - 1], qs[|qs| - 1];
      AfterBuysBounds(r, init);
      var p := AfterBuys(r, init);
      AfterBuyBounds(p, q);
      WeakenLoss(r.quote * r.token, |init|, p.quote * p.token, p.quote, p.quote + q);
    }
  }

  /** From product bounds to reserve bounds: `t` is within n - 1 of `k / q`. */
  lemma ReserveFromProduct(k: int, q: int, t: int, n: nat)
    requires q > 0 && n > 0 && k - n * (q - 1) <= q * t <= k
    ensures k / q - (n - 1) <= t <= k / q
  {
    DivGreatest(k, q, t);
    DivGreatest(k, q, t + n);
    assert q * (t + n) == q * t + n * q && n * (q - 1) == n * q - n;
  }

  /** Path independence up to dust, for every pair of reserves, number of buys and amounts: splitting one
      buy into n never yields less than the single buy, and never more than n - 1 raw units extra, except
      on an empty quote reserve, where that takes either no more than n - 1 tokens in all or buys so small
      that each gets a single token. */
  lemma PathIndependence(r: Reserves, qs: seq<int>)
    requires r.quote >= 0 && qs != [] && AllPositive(qs)
    ensures TokensOut(r.quote, r.token, Sum(qs)) <= TotalOut(r, qs)
    ensures TotalOut(r, qs) <= TokensOut(r.quote, r.token, Sum(qs)) + |qs| - 1 <==>
              r.quote > 0 || r.token < |qs| || OneEach(r.token, qs)
  {
    if r.token <= 0 {
      NothingLeft(r, qs);
    } else if r.quote == 0 {
      EmptyReserveBounds(r.token, qs);
      if r.token >= |qs| {
        EmptyReserveCounts(r.token, qs);
      }
    } else {
      PathOnOpenReserves(r, qs);
    }
  }

  /** The product the quotes keep, and the reserve it leaves under a given quote reserve. */
  function Product(r: Reserves): int {
    r.quote * r.token
  }

  lemma SingleBuy(r: Reserves, total: int)
    requires r.quote > 0 && r.token > 0 && total > 0
    ensures TokensOut(r.quote, r.token, total) == r.token - Product(r) / (r.quote + total)
  {
    FloorStep(r.quote, r.token, r.quote + total);
  }

  lemma SplitBuy(r: Reserves, qs: seq<int>)
    requires r.quote > 0 && r.token > 0 && qs != [] && AllPositive(qs) && Sum(qs) > 0
    ensures var kept := Product(r) / (r.quote + Sum(qs));
            kept - (|qs| - 1) <= r.token - TotalOut(r, qs) <= kept
  {
    AfterBuysBounds(r, qs);
    var s := AfterBuys(r, qs);
    ReserveFromProduct(r.quote * r.token, s.quote, s.token, |qs|);
  }

  lemma PathOnOpenReserves(r: Reserves, qs: seq<int>)
    requires r.quote > 0 && r.token > 0 && qs != [] && AllPositive(qs)
    ensures TokensOut(r.quote, r.token, Sum(qs)) <= TotalOut(r, qs)
    ensures TotalOut(r, qs) <= TokensOut(r.quote, r.token, Sum(qs)) + |qs| - 1
  {
    hide TokensOut, TotalOut, Product;
    SumPositive(qs);
    SingleBuy(r, Sum(qs));
    SplitBuy(r, qs);
  }

  lemma {:induction false} NothingLeft(r: Reserves, qs: seq<int>)
    requires r.token <= 0
    ensures TotalOut(r, qs) == 0 && AfterBuys(r, qs).token == r.token
  {
    if qs != [] {
      NothingLeft(r, qs[..|qs| - 1]);
    }
  }

  // -- an empty quote reserve ----------------------------------------------------------

  /** On an empty quote reserve the first buy gets nothing and fills it; each later buy is small enough
      to get a single token. */
  ghost predicate OneEach(token: int, qs: seq<int>) {
    forall k :: 1 <= k < |qs| ==> OneAt(token, qs, k)
  }

  function Times(count: int, each: int): int {
    count * each
  }

  predicate OneAt(token: int, qs: seq<int>, k: nat)
    requires k < |qs|
  {
    Times(token - k, qs[k]) <= Sum(qs[..k])
  }

  lemma {:induction false} EmptyReserveBounds(token: int, qs: seq<int>)
    requires token > 0 && qs != [] && AllPositive(qs)
    ensures var s, out := AfterBuys(Reserves(0, token), qs), TotalOut(Reserves(0, token), qs);
            s.quote == Sum(qs) > 0 && s.token == token - out && 0 <= out <= token
  {
    var init, q := qs[..|qs| - 1], qs[|qs| - 1];
    if init != [] {
      EmptyReserveBounds(token, init);
      AfterBuyBounds(AfterBuys(Reserves(0, token), init), q);
    }
  }

  /** A buy gets a single token exactly when it is worth no more than the reserve of the other tokens. */
  lemma OneTokenIff(vq: int, vt: int, quoteIn: int)
    requires vq > 0 && vt > 0 && quoteIn > 0
    ensures TokensOut(vq, vt, quoteIn) >= 1
    ensures TokensOut(vq, vt, quoteIn) == 1 <==> Times(vt - 1, quoteIn) <= vq
  {
    TokensOutIsCeiling(vq, vt, quoteIn);
    DivGreatest(vt * quoteIn + vq + quoteIn - 1, vq + quoteIn, 2);
    assert Times(vt - 1, quoteIn) == vt * quoteIn - quoteIn;
  }

  /** While tokens last, each buy after the first gets at least one, and all get exactly one under the
      condition on every one of them. */
  lemma {:induction false} EmptyReserveCounts(token: int, qs: seq<int>)
    requires qs != [] && token >= |qs| && AllPositive(qs)
    ensures TotalOut(Reserves(0, token), qs) >= |qs| - 1
    ensures TotalOut(Reserves(0, token), qs) == |qs| - 1 <==> OneEach(token, qs)
  {
    var init, q := qs[..|qs| - 1], qs[|qs| - 1];
    if init != [] {
      EmptyReserveBounds(token, init);
      EmptyReserveCounts(token, init);
      var s := AfterBuys(Reserves(0, token), init);
      if s.token > 0 {
        OneTokenIff(s.quote, s.token, q);
      }
      OneEachGrows(token, init, q);
      assert qs == init + [q];
    }
  }

  lemma OneAtPrefix(token: int, init: seq<int>, q: int, k: nat)
    requires k <= |init|
    ensures OneAt(token, init + [q], k) <==>
              if k < |init| then OneAt(token, init, k) else Times(token - |init|, q) <= Sum(init)
  {
    hide Times, Sum;
    var qs := init + [q];
    if k < |init| {
      assert qs[..k] == init[..k] && qs[k] == init[k];
    } else {
      assert qs[..k] == init && qs[k] == q;
    }
  }

  lemma OneEachGrows(token: int, init: seq<int>, q: int)
    requires init != []
    ensures OneEach(token, init + [q]) <==> OneEach(token, init) && Times(token - |init|, q) <= Sum(init)
  {
    forall k | 1 <= k <= |init|
      ensures OneAt(token, init + [q], k) <==>
                if k < |init| then OneAt(token, init, k) else Times(token - |init|, q) <= Sum(init)
    {
      OneAtPrefix(token, init, q, k);
    }
    assert OneEach(token, init + [q]) ==> OneAt(token, init + [q], |init|);
  }

  /** A split that pays: on an empty reserve of three tokens two buys of one get two tokens, where one buy
      of two gets none. */
  lemma EmptyReserveRewardsSplitting() returns (r: Reserves, qs: seq<int>)
    ensures r == Reserves(0, 3) && qs == [1, 1]
    ensures TotalOut(r, qs) > TokensOut(r.quote, r.token, Sum(qs)) + |qs| - 1
  {
    hide TotalOut, TokensOut;
    r, qs := Reserves(0, 3), [1, 1];
    PathIndependence(r, qs);
    SumOfOne(qs[..1]);
    assert !OneAt(3, qs, 1);
  }

  lemma SumOfOne(qs: seq<int>)
    requires |qs| == 1
    ensures Sum(qs) == qs[0]
  {
    assert qs[..0] == [];
  }

  lemma {:induction false} SumPositive(qs: seq<int>)
    requires qs != [] && AllPositive(qs)
    ensures Sum(qs) > 0
  {
    if |qs| > 1 {
      SumPositive(qs[..|qs| - 1]);
    }
  }

  // -- a buy followed by the sell of everything bought -----------------------------------

  /** Buying with `quoteIn` and selling every token back on the updated reserves returns at least
      `quoteIn`, and at most the rounding of one token reserve more. */
  lemma RoundTrip(r: Reserves, quoteIn: int)
    requires r.quote > 0 && r.token > 0 && quoteIn > 0
    requires AfterBuy(r, quoteIn).token > 0
    ensures var s := AfterBuy(r, quoteIn);
            var back := QuoteOut(s.quote, s.token, TokensOut(r.quote, r.token, quoteIn));
            quoteIn <= back <= quoteIn + CeilDiv(r.quote + quoteIn - 1, r.token)
  {
    var s := AfterBuy(r, quoteIn);
    var bought := TokensOut(r.quote, r.token, quoteIn);
    TokensOutIsCeiling(r.quote, r.token, quoteIn);
    AfterBuyBounds(r, quoteIn);
    var k := s.quote * s.token;
    assert s.token + bought == r.token;
    var c := CeilDiv(s.quote - 1, r.token);
    DivGreatest(k, r.token, r.quote + 1);
    assert r.token * (r.quote + 1) == r.quote * r.token + r.token;
    DivBounds(s.quote - 1 + r.token - 1, r.token);
    assert r.token * (r.quote - c) == r.quote * r.token - r.token * c;
    DivGreatest(k, r.token, r.quote - c);
    DivGreatest(k, r.token, 0);
  }

  /** The bound is attained: one lamport on a curve with three tokens left comes back as two. */
  lemma RoundTripCanGain()
    ensures TokensOut(1, 3, 1) == 2
    ensures AfterBuy(Reserves(1, 3), 1) == Reserves(2, 1)
    ensures QuoteOut(2, 1, 2) == 2 == 1 + CeilDiv(1 + 1 - 1, 3)
  {
  }

  // -- the curve fee --------------------------------------------------------------------

  /** What is left of `amount` after `bps`, in ten-thousandths. */
  function Discounted(amount: int, bps: int): int {
    amount * (BPS_ONE - bps)
  }

  /** Taking `bps` off leaves the exact remainder, rounded up. */
  lemma FloorOfBps(amount: int, bps: int)
    requires amount >= 0 && 0 <= bps <= BPS_ONE
    ensures var kept := amount - ApplyBps(amount, bps);
            && 0 <= kept <= amount
            && Discounted(amount, bps) <= BPS_ONE * kept < Discounted(amount, bps) + BPS_ONE
  {
    if amount > 0 && bps > 0 {
      DivBounds(amount * bps, BPS_ONE);
      MulMono(amount, bps, BPS_ONE);
      assert amount * BPS_ONE - amount * bps == Discounted(amount, bps);
      DivGreatest(amount * bps, BPS_ONE, 0);
    }
  }

  /** What a live buy pays into the curve: the lamports less the curve fee. */
  function NetIn(lamports: int, feeBps: int): int {
    lamports - ApplyBps(lamports, feeBps)
  }

  /** What a live sell of `tokens` pays out: the quote less the curve fee. */
  function NetOut(r: Reserves, tokens: int, feeBps: int): int {
    var gross := QuoteOut(r.quote, r.token, tokens);
    gross - ApplyBps(gross, feeBps)
  }

  /** Each leg loses the fee, and no more than the fee: what goes in, and what comes out, is the exact
      remainder rounded up to a lamport. */
  lemma FeeOnEachLeg(r: Reserves, amount: int, feeBps: int)
    requires amount >= 0 && 0 <= feeBps <= BPS_ONE
    ensures amount * (BPS_ONE - feeBps) <= BPS_ONE * NetIn(amount, feeBps)
    ensures BPS_ONE * NetIn(amount, feeBps) < amount * (BPS_ONE - feeBps) + BPS_ONE
    ensures var gross := QuoteOut(r.quote, r.token, amount);
            && gross * (BPS_ONE - feeBps) <= BPS_ONE * NetOut(r, amount, feeBps)
            && BPS_ONE * NetOut(r, amount, feeBps) < gross * (BPS_ONE - feeBps) + BPS_ONE
  {
    FloorOfBps(amount, feeBps);
    FloorOfBps(QuoteOut(r.quote, r.token, amount), feeBps);
  }

  /** A fee that leaves something is less than the whole. */
  lemma FeeBelowWhole(lamports: int, feeBps: int)
    requires lamports > 0 && NetIn(lamports, feeBps) > 0
    ensures feeBps < BPS_ONE
  {
    if feeBps >= BPS_ONE {
      MulMono(lamports, BPS_ONE, feeBps);
      DivGreatest(lamports * feeBps, BPS_ONE, lamports);
    }
  }

  lemma DiscountedBetween(low: int, x: int, high: int, bps: int)
    requires low <= x <= high && bps <= BPS_ONE
    ensures Discounted(low, bps) <= Discounted(x, bps) <= Discounted(high, bps)
  {
  }

  /** The trip with the fee on both legs: what comes back has lost the fee twice, to a lamport a leg. */
  lemma FeesTakenTwice(r: Reserves, lamports: int, feeBps: int)
    requires r.quote > 0 && r.token > 0 && lamports > 0 && feeBps >= 0
    requires NetIn(lamports, feeBps) > 0 && AfterBuy(r, NetIn(lamports, feeBps)).token > 0
    ensures var net := NetIn(lamports, feeBps);
            var back := NetOut(AfterBuy(r, net), TokensOut(r.quote, r.token, net), feeBps);
            && Discounted(net, feeBps) <= BPS_ONE * back
            && BPS_ONE * back < Discounted(net + CeilDiv(r.quote + net - 1, r.token), feeBps) + BPS_ONE
  {
    hide TokensOut, QuoteOut, ApplyBps, CeilDiv, Discounted;
    var net := NetIn(lamports, feeBps);
    var s, bought := AfterBuy(r, net), TokensOut(r.quote, r.token, net);
    var gross := QuoteOut(s.quote, s.token, bought);
    FeeBelowWhole(lamports, feeBps);
    RoundTrip(r, net);
    FloorOfBps(gross, feeBps);
    DiscountedBetween(net, gross, net + CeilDiv(r.quote + net - 1, r.token), feeBps);
  }

  /** Fees close the loop: once the fee is at least one lamport and the token reserve is not smaller
      than the quote reserve after the buy, no buy-then-sell returns what was put in; it has then lost
      both fees, but for one lamport gained and one rounded up on each leg. */
  lemma FeesBeatRounding(r: Reserves, lamports: int, feeBps: int)
    requires r.quote > 0 && r.token > 0 && lamports > 0
    requires NetIn(lamports, feeBps) > 0
    requires AfterBuy(r, NetIn(lamports, feeBps)).token > 0
    requires lamports * feeBps >= BPS_ONE
    requires r.quote + NetIn(lamports, feeBps) <= r.token + 1
    ensures var net := NetIn(lamports, feeBps);
            var back := NetOut(AfterBuy(r, net), TokensOut(r.quote, r.token, net), feeBps);
            && back < lamports
            && BPS_ONE * back < Discounted(net + 1, feeBps) + BPS_ONE
            && BPS_ONE * net < Discounted(lamports, feeBps) + BPS_ONE
  {
    hide TokensOut, QuoteOut, ApplyBps, CeilDiv, Discounted;
    var net := NetIn(lamports, feeBps);
    FeeBelowWhole(lamports, feeBps);
    FeesTakenTwice(r, lamports, feeBps);
    FloorOfBps(lamports, feeBps);
    OneLamportOver(r.quote + net - 1, r.token);
    FeeTakesOne(lamports, feeBps);
    DiscountedBetween(net, net + CeilDiv(r.quote + net - 1, r.token), net + 1, feeBps);
    DiscountedBetween(net, net + 1, lamports, feeBps);
    LessTheFee(lamports, feeBps);
  }

  lemma OneLamportOver(a: int, b: int)
    requires 0 <= a <= b && b > 0
    ensures 0 <= CeilDiv(a, b) <= 1
  {
    DivGreatest(a + b - 1, b, 2);
    DivGreatest(a + b - 1, b, 0);
  }

  lemma FeeTakesOne(lamports: int, feeBps: int)
    requires lamports > 0 && lamports * feeBps >= BPS_ONE
    ensures feeBps > 0 && NetIn(lamports, feeBps) < lamports
  {
    assert feeBps > 0;
    DivGreatest(lamports * feeBps, BPS_ONE, 1);
  }

  lemma LessTheFee(lamports: int, feeBps: int)
    requires lamports * feeBps >= BPS_ONE
    ensures Discounted(lamports, feeBps) + BPS_ONE <= BPS_ONE * lamports
  {
  }
}
