/** The crypto executor as an object (src/crypto/crypto_executor.py). Network replies are arguments:
    each await is answered by the chain, an RPC node or a quote server, and any of them may fail. */
module CryptoExecutor {
  import opened Models
  import opened EventLog
  import opened Ledger
  import opened Session
  import Curve

  const LAMPORTS_PER_SOL: real := 1000000000.0

  datatype Quote = Quote(inAmount: int, outAmount: int, minOut: int, decimals: nat, priceUsd: real)

  /** The replies to one buy, in the order the awaits ask for them. */
  datatype BuyReplies = BuyReplies(quote: Result<Quote>, before: Result<int>, submitted: Result<string>,
      after: Result<int>)

  datatype SellReplies = SellReplies(
    decimals: Result<nat>, balance: Result<int>, quote: Result<Quote>,
    before: Result<int>, submitted: Result<string>, after: Result<int>)

  /** What the caller sees: a fill, or `ExecutionFailed` with its slug and any stranded inventory. */
  datatype Reply = Filled(quantity: real, price: real, usd: real) | Failed(reason: string, stranded: Option<Record>)

  datatype Side = BuySide | SellSide

  // -- quotes on the curve ---------------------------------------------------------------------

  /** `_quote_buy` on the bonding curve: exact tokens out for the lamports net of the curve fee. */
  function QuoteBuy(r: Curve.Reserves, lamports: int, feeBps: int, decimals: nat, price: real): Result<Quote> {
    var out := Curve.TokensOut(r.quote, r.token, Curve.NetIn(lamports, feeBps));
    if out <= 0 then Error("quote_empty") else Ok(Quote(lamports, out, out, decimals, price))
  }

  /** `_quote_sell` on the bonding curve: the fee comes off first, the slippage allowance after it. */
  function QuoteSell(r: Curve.Reserves, raw: int, feeBps: int, slippageBps: int, decimals: nat, price: real)
    : Result<Quote>
  {
    var out := Curve.NetOut(r, raw, feeBps);
    if out <= 0 then Error("quote_empty")
    else Ok(Quote(raw, out, out - Curve.ApplyBps(out, slippageBps), decimals, price))
  }

  /** Through the executor's own quotes: buying on a live curve and selling every token bought, on the
      reserves the buy leaves behind, always quotes fewer lamports than were spent: the fee comes off what
      goes in, and once more off what comes out, but for one lamport of rounding in each. */
  lemma QuotedRoundTripLoses(r: Curve.Reserves, lamports: int, feeBps: int, slippageBps: int, decimals: nat, p: real,
      q: real)
    requires r.quote > 0 && r.token > 0 && lamports > 0 && lamports * feeBps >= Curve.BPS_ONE
    requires r.quote + Curve.NetIn(lamports, feeBps) <= r.token + 1
    requires QuoteBuy(r, lamports, feeBps, decimals, p).Ok?
    requires Curve.AfterBuy(r, Curve.NetIn(lamports, feeBps)).token > 0
    ensures var bought := QuoteBuy(r, lamports, feeBps, decimals, p).value.outAmount;
            var after := Curve.AfterBuy(r, Curve.NetIn(lamports, feeBps));
            var sale := QuoteSell(after, bought, feeBps, slippageBps, decimals, q);
            sale.Ok? ==>
              && sale.value.outAmount < lamports
              && Curve.BPS_ONE * sale.value.outAmount
                   < Curve.Discounted(Curve.NetIn(lamports, feeBps) + 1, feeBps) + Curve.BPS_ONE
              && Curve.BPS_ONE * Curve.NetIn(lamports, feeBps)
                   < Curve.Discounted(lamports, feeBps) + Curve.BPS_ONE
  {
    hide Curve.QuoteOut, Curve.ApplyBps, Curve.Discounted;
    Curve.FeesBeatRounding(r, lamports, feeBps);
  }

  /** The slippage allowance: the least a sell accepts is the quote less `slippageBps`, rounded in the
      seller's favour, and it never exceeds the quote; a curve buy accepts nothing less than its quote. */
  lemma LeastAccepted(r: Curve.Reserves, amount: int, feeBps: int, slippageBps: int, decimals: nat, price: real)
    requires 0 <= slippageBps <= Curve.BPS_ONE
    ensures var sale := QuoteSell(r, amount, feeBps, slippageBps, decimals, price);
            sale.Ok? ==>
              && 0 <= sale.value.minOut <= sale.value.outAmount
              && Curve.Discounted(sale.value.outAmount, slippageBps) <= Curve.BPS_ONE * sale.value.minOut
              && Curve.BPS_ONE * sale.value.minOut < Curve.Discounted(sale.value.outAmount, slippageBps) + Curve.BPS_ONE
    ensures var purchase := QuoteBuy(r, amount, feeBps, decimals, price);
            purchase.Ok? ==> purchase.value.minOut == purchase.value.outAmount > 0
  {
    var out := Curve.NetOut(r, amount, feeBps);
    if out > 0 {
      Curve.FloorOfBps(out, slippageBps);
    }
  }

  // -- what stops a request before anything is booked -----------------------------------------

  function Lamports(usd: real, solUsd: real): int
    requires solUsd > 0.0
  {
    (usd / solUsd * LAMPORTS_PER_SOL).Floor
  }

  function BuyRefused(paper: bool, solUsd: real, m: Mint, usd: real, w: BuyReplies): Option<string> {
    if m == "" then Some("invalid_mint")
    else if solUsd <= 0.0 then Some("no_sol_price")
    else if usd <= 0.0 || Lamports(usd, solUsd) <= 0 then Some("amount_too_small")
    else if w.quote.Error? then Some(w.quote.reason)
    else if Ui(w.quote.value.outAmount, w.quote.value.decimals) <= 0.0 then Some("quote_empty")
    else if paper then None
    else if w.before.Error? then Some(w.before.reason)
    else if w.submitted.Error? then Some(w.submitted.reason)
    else if w.after.Error? then Some(w.after.reason)
    else None
  }

  /** The decimals and the balance a sell works from: the lot's own on paper, the chain's otherwise. */
  function SellBasis(paper: bool, b: Book, m: Mint, w: SellReplies): Result<(nat, int)> {
    if paper && m in b.lots then Ok((b.lots[m].decimals, b.lots[m].raw))
    else if w.decimals.Error? then Error(w.decimals.reason)
    else if w.balance.Error? then Error(w.balance.reason)
    else Ok((w.decimals.value, w.balance.value))
  }

  function SellRefused(paper: bool, b: Book, solUsd: real, m: Mint, fraction: real, w: SellReplies): Option<string> {
    if m == "" then Some("invalid_mint")
    else if fraction <= 0.0 || fraction > 1.0 then Some("invalid_fraction")
    else if SellBasis(paper, b, m, w).Error? then Some(SellBasis(paper, b, m, w).reason)
    else if FractionRaw(SellBasis(paper, b, m, w).value.1, fraction) <= 0 then Some("insufficient_balance")
    else if w.quote.Error? then Some(w.quote.reason)
    else if solUsd <= 0.0 then Some("no_sol_price")
    else if paper then None
    else if w.before.Error? then Some(w.before.reason)
    else if w.submitted.Error? then Some(w.submitted.reason)
    else if w.after.Error? then Some(w.after.reason)
    else None
  }

  /** A buy goes through exactly when it names a mint, is worth at least a lamport of SOL at a known price, is
      quoted at least one raw unit, and, live, is submitted and confirmed with both balances read. */
  lemma BuyGoesThroughIff(paper: bool, solUsd: real, m: Mint, usd: real, w: BuyReplies)
    ensures BuyRefused(paper, solUsd, m, usd, w).None? <==>
              && m != "" && solUsd > 0.0 && usd * LAMPORTS_PER_SOL >= solUsd
              && w.quote.Ok? && w.quote.value.outAmount > 0
              && (paper || (w.before.Ok? && w.submitted.Ok? && w.after.Ok?))
  {
    if solUsd > 0.0 {
      WorthALamport(usd, solUsd);
    }
    if w.quote.Ok? {
      UiPositive(w.quote.value.outAmount, w.quote.value.decimals);
    }
  }

  lemma WorthALamport(usd: real, solUsd: real)
    requires solUsd > 0.0
    ensures usd > 0.0 && Lamports(usd, solUsd) > 0 <==> usd * LAMPORTS_PER_SOL >= solUsd
  {
    var sol := usd / solUsd;
    assert (sol * LAMPORTS_PER_SOL - 1.0) * solUsd == usd * LAMPORTS_PER_SOL - solUsd;
    SignOfFactor(sol * LAMPORTS_PER_SOL - 1.0, solUsd);
  }

  lemma SignOfFactor(x: real, y: real)
    requires y > 0.0
    ensures x * y >= 0.0 <==> x >= 0.0
  {
  }

  /** A sell goes through exactly when it names a mint, the fraction is proper or the whole, what it comes to is
      at least one raw unit of the balance it is taken of, a quote and a price are had, and, live, it is
      submitted and confirmed with both balances read. */
  lemma SellGoesThroughIff(paper: bool, b: Book, solUsd: real, m: Mint, fraction: real, w: SellReplies)
    requires WellFormed(b)
    ensures SellRefused(paper, b, solUsd, m, fraction, w).None? <==>
              && m != "" && 0.0 < fraction <= 1.0
              && (if paper && m in b.lots then b.lots[m].raw as real * fraction >= 1.0
                  else w.decimals.Ok? && w.balance.Ok? && w.balance.value as real * fraction >= 1.0)
              && w.quote.Ok? && solUsd > 0.0
              && (paper || (w.before.Ok? && w.submitted.Ok? && w.after.Ok?))
  {
    if SellBasis(paper, b, m, w).Ok? && 0.0 < fraction <= 1.0 {
      TakesAUnit(SellBasis(paper, b, m, w).value.1, fraction);
    }
  }

  lemma TakesAUnit(balance: int, fraction: real)
    requires 0.0 < fraction <= 1.0
    ensures FractionRaw(balance, fraction) > 0 <==> balance as real * fraction >= 1.0
  {
    if balance > 0 {
      FractionBounds(balance, fraction);
    } else {
      assert balance as real * fraction <= 0.0;
    }
  }

  // -- waiting for a signature ----------------------------------------------------------------

  datatype Status = Unanswered | Unknown | OnChainError | Seen(confirmation: string)

  /** One turn of the polling loop: the clock it read and the status it then got. */
  datatype Poll = Poll(now: real, status: Status)

  predicate IsConfirmed(s: Status) {
    s.Seen? && (s.confirmation == "confirmed" || s.confirmation == "finalized")
  }

  /** The first `k` polls were made in time and settled nothing. */
  ghost predicate Undecided(polls: seq<Poll>, deadline: real, k: nat)
    requires k <= |polls|
  {
    forall j :: 0 <= j < k ==>
      polls[j].now < deadline && !IsConfirmed(polls[j].status) && !polls[j].status.OnChainError?
  }

  ghost predicate DecidedAt(polls: seq<Poll>, deadline: real, k: nat) {
    && k < |polls| && polls[k].now < deadline && Undecided(polls, deadline, k)
    && (IsConfirmed(polls[k].status) || polls[k].status.OnChainError?)
  }

  /** `_confirm`: success needs a confirmed status, in time, before any on-chain error. Silence, errors
      of the node and a merely processed transaction all end as "unconfirmed". */
  method Confirm(start: real, timeout: real, polls: seq<Poll>) returns (r: Result<()>)
    requires exists k :: 0 <= k < |polls| && polls[k].now >= start + timeout
    ensures r.Ok? <==>
              exists k: nat :: DecidedAt(polls, start + timeout, k) &&
                               (polls[k].status == Seen("confirmed") || polls[k].status == Seen("finalized"))
    ensures r == Error("submit_failed") <==>
              exists k: nat :: DecidedAt(polls, start + timeout, k) && polls[k].status.OnChainError?
    ensures r.Error? ==> r.reason == "submit_failed" || r.reason == "unconfirmed"
  {
    var deadline := start + timeout;
    var i := 0;
    while polls[i].now < deadline
      invariant 0 <= i < |polls| && Undecided(polls, deadline, i)
      decreases |polls| - i
    {
      if polls[i].status.OnChainError? {
        assert DecidedAt(polls, deadline, i);
        assert forall k: nat :: DecidedAt(polls, deadline, k) ==> k == i;
        return Error("submit_failed");
      }
      if IsConfirmed(polls[i].status) {
        assert DecidedAt(polls, deadline, i);
        assert forall k: nat :: DecidedAt(polls, deadline, k) ==> k == i;
        return Ok(());
      }
      i := i + 1;
    }
    assert forall k: nat :: !DecidedAt(polls, deadline, k);
    return Error("unconfirmed");
  }

  /** A paper buy takes the quote at its word. */
  ghost predicate BooksQuote(was: Book, now: Book, r: Reply, m: Mint, usd: real, q: Quote)
    requires WellFormed(was) && q.outAmount > 0
  {
    && r.Filled? && r.usd == usd && r.quantity == Ui(q.outAmount, q.decimals)
    && (if q.priceUsd != 0.0 then r.price == q.priceUsd else r.quantity * r.price == usd)
    && now == Ledger.Credit(was, m, q.outAmount, q.decimals, r.price, usd)
  }

  /** A live buy books exactly the balance change and reports a fill or the shortfall it logged. */
  ghost predicate BooksMove(was: Book, now: Book, r: Reply, logged: Option<Record>, m: Mint, filled: int, q: Quote,
      usd: real)
    requires WellFormed(was)
  {
    var s := SettleBuy(was, m, filled, q.minOut, q.decimals, usd);
    && now == s.book && logged == s.logged
    && (if s.filled
        then r.Filled? && r.usd == usd && r.quantity == Ui(filled, q.decimals) && r.quantity * r.price == usd
        else r == Failed(if filled <= 0 then "zero_fill" else "partial_fill", s.logged))
  }

  /** A live sell books exactly the balance change and reports a fill or the shortfall it logged. */
  ghost predicate BooksSale(was: Book, now: Book, r: Reply, logged: Option<Record>, m: Mint, sold: int, raw: int,
      decimals: nat)
  {
    var s := SettleSell(was, m, sold, raw);
    && now == s.book && logged == s.logged
    && (if s.filled then r.Filled? && r.quantity == Ui(sold, decimals)
        else r == Failed(if sold <= 0 then "zero_fill" else "partial_fill", s.logged))
  }

  /** What a sell that was not refused leaves behind, on paper and live. */
  ghost predicate SaleBooked(paper: bool, was: Book, now: Book, r: Reply, logged: Option<Record>, m: Mint,
      fraction: real, w: SellReplies)
  {
    && SellBasis(paper, was, m, w).Ok?
    && var (decimals, balance) := SellBasis(paper, was, m, w).value;
       var raw := FractionRaw(balance, fraction);
       if paper then r.Filled? && r.quantity == Ui(raw, decimals) && now == Ledger.Debit(was, m, raw) && logged.None?
       else
         && w.before.Ok? && w.after.Ok?
         && BooksSale(was, now, r, logged, m, w.before.value - w.after.value, raw, decimals)
  }

  /** A sale takes the fraction it was asked for, to one raw unit. On paper the lot keeps the rest; live, the
      fraction of the balance has left the wallet by the time the sale is called filled. */
  lemma SaleTakesTheFraction(paper: bool, was: Book, now: Book, r: Reply, logged: Option<Record>, m: Mint,
      fraction: real, w: SellReplies)
    requires WellFormed(was) && 0.0 < fraction <= 1.0 && r.Filled?
    requires SaleBooked(paper, was, now, r, logged, m, fraction, w)
    ensures paper && m in was.lots ==>
              0.0 <= Raw(now, m) as real - (1.0 - fraction) * Raw(was, m) as real < 1.0
    ensures !paper ==>
              (w.before.value - w.after.value) as real > fraction * w.balance.value as real - 1.0
  {
    var balance := SellBasis(paper, was, m, w).value.1;
    FractionBounds(balance, fraction);
    if balance <= 0 {
      assert fraction * balance as real <= 0.0;
    }
    if paper && m in was.lots {
      assert (1.0 - fraction) * balance as real == balance as real - balance as real * fraction;
    }
  }

  // -- the executor ------------------------------------------------------------------------------

  class CryptoExecutor {
    const paper: bool
    const solUsd: real
    const eventLog: Log
    var lots: map<Mint, Lot>
    var openedMints: set<Mint>
    var stops: map<Mint, real>

    function Now(): Book
      reads this
    {
      Book(lots, openedMints, stops)
    }

    constructor (paper: bool, solUsd: real, eventLog: Log)
      ensures this.paper == paper && this.solUsd == solUsd && this.eventLog == eventLog
      ensures Now() == EMPTY
    {
      this.paper, this.solUsd, this.eventLog := paper, solUsd, eventLog;
      lots, openedMints, stops := map[], {}, map[];
    }

    method Credit(m: Mint, raw: int, decimals: nat, price: real, usd: real)
      requires raw > 0 && WellFormed(Now())
      modifies this
      ensures Now() == Ledger.Credit(old(Now()), m, raw, decimals, price, usd)
    {
      if m !in lots {
        lots := lots[m := Lot(raw, decimals, price, usd)];
      } else {
        var lot := lots[m];
        var newRaw, newUsd := lot.raw + raw, lot.amountUsd + usd;
        UiPositive(newRaw, decimals);
        lots := lots[m := lot.(raw := newRaw, amountUsd := newUsd, entryPrice := newUsd / Ui(newRaw, decimals))];
      }
      openedMints := openedMints + {m};
    }

    method Debit(m: Mint, raw: int)
      modifies this
      ensures Now() == Ledger.Debit(old(Now()), m, raw)
    {
      if m !in lots {
        openedMints := openedMints - {m};
        return;
      }
      var lot := lots[m];
      lot := lot.(raw := MaxInt(0, lot.raw - raw));
      if lot.raw <= 0 {
        lots, openedMints, stops := lots - {m}, openedMints - {m}, stops - {m};
      } else {
        var qty := Ui(lot.raw, lot.decimals);
        lot := lot.(amountUsd := qty * lot.entryPrice);
        assert lot == Shrunk(lots[m], lot.raw);
        lots := lots[m := lot];
      }
    }

    /** After confirm: book whatever landed, then fail if it was not full. On a full fill nothing is
        done here; the caller books it. */
    method ReconcileFill(m: Mint, side: Side, filled: int, expected: int, decimals: nat, usd: real)
      returns (failure: Option<Reply>)
      requires WellFormed(Now())
      modifies this, eventLog
      ensures failure.None? <==> filled >= expected && filled > 0
      ensures failure.None? ==> Now() == old(Now()) && eventLog.records == old(eventLog.records)
      ensures failure.Some? ==>
                var s := if side.BuySide? then SettleBuy(old(Now()), m, filled, expected, decimals, usd)
                         else SettleSell(old(Now()), m, filled, expected);
                && Now() == s.book && eventLog.records == Append(old(eventLog.records), s.logged)
                && failure == Some(Failed(if filled <= 0 then "zero_fill" else "partial_fill", s.logged))
    {
      if filled >= expected && filled > 0 {
        return None;
      }
      if filled > 0 {
        var qty := Ui(filled, decimals);
        UiPositive(filled, decimals);
        if side.BuySide? {
          Credit(m, filled, decimals, usd / qty, usd);
        } else {
          Debit(m, filled);
        }
      }
      var stranded := StrandedOf(m, MaxInt(0, filled));
      eventLog.Write(stranded);
      return Some(Failed(if filled <= 0 then "zero_fill" else "partial_fill", Some(stranded)));
    }

    /** The checks and replies a buy goes through, in order; on paper nothing is submitted. */
    method RefuseBuy(m: Mint, usd: real, w: BuyReplies) returns (refusal: Option<string>)
      ensures refusal == BuyRefused(paper, solUsd, m, usd, w)
    {
      if m == "" {
        return Some("invalid_mint");
      }
      if solUsd <= 0.0 {
        return Some("no_sol_price");
      }
      if usd <= 0.0 || Lamports(usd, solUsd) <= 0 {
        return Some("amount_too_small");
      }
      if w.quote.Error? {
        return Some(w.quote.reason);
      }
      if Ui(w.quote.value.outAmount, w.quote.value.decimals) <= 0.0 {
        return Some("quote_empty");
      }
      if paper {
        return None;
      }
      if w.before.Error? {
        return Some(w.before.reason);
      }
      if w.submitted.Error? {
        return Some(w.submitted.reason);
      }
      if w.after.Error? {
        return Some(w.after.reason);
      }
      return None;
    }

    /** The paper book takes the quote at its word. */
    method PaperBuy(m: Mint, usd: real, q: Quote) returns (r: Reply)
      requires WellFormed(Now()) && q.outAmount > 0
      modifies this
      ensures BooksQuote(old(Now()), Now(), r, m, usd, q) && WellFormed(Now())
    {
      UiPositive(q.outAmount, q.decimals);
      var quantity := Ui(q.outAmount, q.decimals);
      var price := if q.priceUsd != 0.0 then q.priceUsd else usd / quantity;
      QuotientTimes(usd, quantity);
      Credit(m, q.outAmount, q.decimals, price, usd);
      return Filled(quantity, price, usd);
    }

    /** A confirmed live buy whose balance change is known. */
    method SettleLiveBuy(m: Mint, filled: int, q: Quote, usd: real) returns (r: Reply, ghost logged: Option<Record>)
      requires WellFormed(Now())
      modifies this, eventLog
      ensures BooksMove(old(Now()), Now(), r, logged, m, filled, q, usd) && WellFormed(Now())
      ensures eventLog.records == Append(old(eventLog.records), logged)
    {
      SettleBuyBooks(Now(), m, filled, q.minOut, q.decimals, usd);
      logged := SettleBuy(Now(), m, filled, q.minOut, q.decimals, usd).logged;
      var failure := ReconcileFill(m, BuySide, filled, q.minOut, q.decimals, usd);
      if failure.Some? {
        return failure.value, logged;
      }
      UiPositive(filled, q.decimals);
      var quantity := Ui(filled, q.decimals);
      QuotientTimes(usd, quantity);
      Credit(m, filled, q.decimals, usd / quantity, usd);
      return Filled(quantity, usd / quantity, usd), logged;
    }

    /** Every path: a refused buy changes nothing, a paper buy books the quote, and a live buy books
        exactly the balance change, whether it is then reported as a fill or raised. */
    method Buy(m: Mint, usd: real, w: BuyReplies) returns (r: Reply, ghost logged: Option<Record>)
      requires WellFormed(Now())
      modifies this, eventLog
      ensures WellFormed(Now())
      ensures var refused := BuyRefused(paper, solUsd, m, usd, w);
              refused.Some? ==>
                r == Failed(refused.value, None) && Now() == old(Now()) && eventLog.records == old(eventLog.records)
      ensures BuyRefused(paper, solUsd, m, usd, w).None? && paper ==>
                && w.quote.Ok? && w.quote.value.outAmount > 0 && BooksQuote(old(Now()), Now(), r, m, usd, w.quote.value)
                && eventLog.records == old(eventLog.records)
      ensures BuyRefused(paper, solUsd, m, usd, w).None? && !paper ==>
                && w.quote.Ok? && w.before.Ok? && w.after.Ok?
                && BooksMove(old(Now()), Now(), r, logged, m, w.after.value - w.before.value, w.quote.value, usd)
                && eventLog.records == Append(old(eventLog.records), logged)
    {
      var refusal := RefuseBuy(m, usd, w);
      if refusal.Some? {
        return Failed(refusal.value, None), None;
      }
      var q := w.quote.value;
      UiPositive(q.outAmount, q.decimals);
      if paper {
        r := PaperBuy(m, usd, q);
        logged := None;
      } else {
        r, logged := SettleLiveBuy(m, w.after.value - w.before.value, q, usd);
      }
    }

    /** A confirmed live sell whose balance change is known. */
    method SettleLiveSell(m: Mint, sold: int, raw: int, decimals: nat, price: real, proceeds: real)
      returns (r: Reply, ghost logged: Option<Record>)
      requires WellFormed(Now())
      modifies this, eventLog
      ensures BooksSale(old(Now()), Now(), r, logged, m, sold, raw, decimals) && WellFormed(Now())
      ensures eventLog.records == Append(old(eventLog.records), logged)
      ensures r.Filled? ==> r.price == price && r.usd == proceeds
    {
      SettleSellBooks(Now(), m, sold, raw);
      logged := SettleSell(Now(), m, sold, raw).logged;
      var failure := ReconcileFill(m, SellSide, sold, raw, decimals, proceeds);
      if failure.Some? {
        return failure.value, logged;
      }
      Debit(m, sold);
      return Filled(Ui(sold, decimals), price, proceeds), logged;
    }

    /** A paper sell of `raw` units. */
    method PaperSell(m: Mint, raw: int, decimals: nat, price: real, proceeds: real) returns (r: Reply)
      requires WellFormed(Now()) && raw > 0
      modifies this
      ensures Now() == Ledger.Debit(old(Now()), m, raw) && WellFormed(Now())
      ensures r == Filled(Ui(raw, decimals), price, proceeds)
    {
      SettleSellBooks(Now(), m, raw, raw);
      Debit(m, raw);
      return Filled(Ui(raw, decimals), price, proceeds);
    }

    /** The same for a sell of `fraction` of the balance: a filled paper sell leaves the rest of the lot, to
        one raw unit, a filled live one has seen the fraction leave the wallet, and either reports the
        quoted lamports in dollars. */
    method Sell(m: Mint, fraction: real, w: SellReplies) returns (r: Reply, ghost logged: Option<Record>)
      requires WellFormed(Now())
      modifies this, eventLog
      ensures WellFormed(Now())
      ensures var refused := SellRefused(paper, old(Now()), solUsd, m, fraction, w);
              if refused.Some? then r == Failed(refused.value, None) && Now() == old(Now()) && logged.None?
              else SaleBooked(paper, old(Now()), Now(), r, logged, m, fraction, w)
      ensures eventLog.records == Append(old(eventLog.records), logged)
      ensures paper && m in old(lots) && r.Filled? ==>
                0.0 <= Raw(Now(), m) as real - (1.0 - fraction) * Raw(old(Now()), m) as real < 1.0
      ensures r.Filled? ==> w.quote.Ok? && r.usd * LAMPORTS_PER_SOL == w.quote.value.outAmount as real * solUsd
    {
      hide FractionRaw, SettleSell, WellFormed, Raw, Ledger.Debit, Ui;
      logged := None;
      if m == "" {
        return Failed("invalid_mint", None), None;
      }
      if fraction <= 0.0 || fraction > 1.0 {
        return Failed("invalid_fraction", None), None;
      }
      var decimals, balance;
      if paper && m in lots {
        decimals, balance := lots[m].decimals, lots[m].raw;
      } else {
        if w.decimals.Error? {
          return Failed(w.decimals.reason, None), None;
        }
        if w.balance.Error? {
          return Failed(w.balance.reason, None), None;
        }
        decimals, balance := w.decimals.value, w.balance.value;
      }
      var raw := FractionRaw(balance, fraction);
      if raw <= 0 {
        return Failed("insufficient_balance", None), None;
      }
      if w.quote.Error? {
        return Failed(w.quote.reason, None), None;
      }
      if solUsd <= 0.0 {
        return Failed("no_sol_price", None), None;
      }
      var price, proceeds := SellPrice(w.quote.value, raw, decimals);
      if paper {
        r := PaperSell(m, raw, decimals, price, proceeds);
        SaleTakesTheFraction(paper, old(Now()), Now(), r, logged, m, fraction, w);
        return;
      }
      if w.before.Error? {
        return Failed(w.before.reason, None), None;
      }
      if w.submitted.Error? {
        return Failed(w.submitted.reason, None), None;
      }
      if w.after.Error? {
        return Failed(w.after.reason, None), None;
      }
      r, logged := SettleLiveSell(m, w.before.value - w.after.value, raw, decimals, price, proceeds);
    }

    /** The quoted price, or what the proceeds come to a unit. */
    method SellPrice(q: Quote, raw: int, decimals: nat) returns (price: real, proceeds: real)
      requires raw > 0 && solUsd > 0.0
      ensures q.priceUsd != 0.0 ==> price == q.priceUsd
      ensures q.priceUsd == 0.0 ==> price * Ui(raw, decimals) == proceeds
      ensures proceeds * LAMPORTS_PER_SOL == q.outAmount as real * solUsd
    {
      var quantity := Ui(raw, decimals);
      UiPositive(raw, decimals);
      proceeds := q.outAmount as real / LAMPORTS_PER_SOL * solUsd;
      price := if q.priceUsd != 0.0 then q.priceUsd else proceeds / quantity;
      QuotientTimes(proceeds, quantity);
    }

    /** A full exit is a sell of the whole balance, in every outcome. */
    method ClosePosition(m: Mint, w: SellReplies) returns (r: Reply, ghost logged: Option<Record>)
      requires WellFormed(Now())
      modifies this, eventLog
      ensures WellFormed(Now())
      ensures var refused := SellRefused(paper, old(Now()), solUsd, m, 1.0, w);
              if refused.Some? then r == Failed(refused.value, None) && Now() == old(Now()) && logged.None?
              else SaleBooked(paper, old(Now()), Now(), r, logged, m, 1.0, w)
      ensures eventLog.records == Append(old(eventLog.records), logged)
      ensures paper && m in old(lots) && r.Filled? ==> m !in lots
      ensures !paper && r.Filled? ==>
                && w.before.Ok? && w.after.Ok? && w.balance.Ok?
                && w.before.value - w.after.value >= w.balance.value > 0
                && Raw(Now(), m) == MaxInt(0, Raw(old(Now()), m) - (w.before.value - w.after.value))
    {
      r, logged := Sell(m, 1.0, w);
    }

    method TightenStop(m: Mint, price: real) returns (ok: bool)
      modifies this
      ensures ok <==> m != "" && price > 0.0
      ensures Now() == if ok then old(Now()).(stops := old(stops)[m := price]) else old(Now())
    {
      ok := m != "" && price > 0.0;
      if ok {
        stops := stops[m := price];
      }
    }

    /** The open set rebuilt from the log, with the executor's own openings; an unreadable log adds nothing. */
    method DeskOpenedMints(readable: bool) returns (mints: set<Mint>)
      ensures mints == if readable then openedMints + OpenMints(eventLog.records) else openedMints
      ensures forall m :: m in mints <==> m in openedMints || (readable && StillOpen(eventLog.records, m))
    {
      mints := openedMints;
      if !readable {
        return;
      }
      var records := eventLog.records;
      var still: set<Mint> := {};
      for i := 0 to |records|
        invariant still == OpenMints(records[..i])
      {
        assert records[..i + 1][..i] == records[..i];
        var key := MintOf(records[i]);
        if records[i].market == CRYPTO && key != "" {
          if records[i].kind == EventLog.Buy || (records[i].kind == Stranded && records[i].rawAmount > 0) {
            still := still + {key};
          } else if records[i].kind == Close {
            still := still - {key};
          }
        }
      }
      assert records[..|records|] == records;
      mints := mints + still;
      forall m ensures m in still <==> StillOpen(records, m) {
        OpenMintsIsStillOpen(records, m);
      }
    }
  }
}
