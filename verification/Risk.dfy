/** The portfolio risk manager (src/shared/risk.py): one budget, one daily loss limit and one set of
    caps over both markets. */
module Risk {
  import opened Models
  import opened Allocation

  datatype Config = Config(
    totalBudget: real, lossLimit: real,
    maxTotal: int, maxCrypto: int, maxStocks: int, maxPerSector: int,
    cryptoMax: real, stockMax: real, pctOfMarket: real, pctOfLoss: real,
    round: real -> real)
  {
    ghost predicate Sane() {
      && totalBudget >= 0.0 && lossLimit >= 0.0 && pctOfLoss >= 0.0
      && maxTotal >= 0 && maxCrypto >= 0 && maxStocks >= 0 && maxPerSector >= 0
      && IsCentRounding(round)
    }
  }

  /** What the manager remembers between calls. */
  datatype State = State(split: Split, realized: real, deployed: map<Market, real>, day: int)

  datatype Verdict = Allowed | DailyLossLimit | MaxOpenTotal | MaxOpenCrypto | MaxOpenStocks | MaxPerSector
                   | BudgetExhausted | ExceedsBudget

  function Fresh(day: int): State {
    State(EVEN, 0.0, map[Crypto := 0.0, Stocks := 0.0], day)
  }

  // -- daily bookkeeping ------------------------------------------------------------------------

  function Deployed(s: State, m: Market): real {
    if m in s.deployed then s.deployed[m] else 0.0
  }

  function WithNewDay(s: State, today: int): State {
    if today == s.day then s else State(s.split, 0.0, map[Crypto := 0.0, Stocks := 0.0], today)
  }

  function WithFill(s: State, m: Market, amount: real): State {
    s.(deployed := s.deployed[m := Deployed(s, m) + amount])
  }

  function WithClose(s: State, m: Market, pnl: real, amount: real): State {
    var t := s.(realized := s.realized + pnl);
    if amount == 0.0 then t
    else t.(deployed := t.deployed[m := Max(0.0, Deployed(t, m) - amount)])
  }

  function WithAllocation(cfg: Config, s: State, a: Split): State {
    s.(split := Normalized(a, cfg.cryptoMax, cfg.stockMax))
  }

  // -- derived state -------------------------------------------------------------------------------

  function Budget(cfg: Config, s: State, m: Market): real {
    cfg.totalBudget * (if m == Crypto then s.split.crypto else s.split.stocks)
  }

  function LossRoom(cfg: Config, s: State): real {
    Max(0.0, cfg.lossLimit + Min(0.0, s.realized))
  }

  predicate LossBreached(cfg: Config, s: State) {
    s.realized <= -cfg.lossLimit
  }

  function FreeBudget(cfg: Config, s: State, m: Market): real {
    Max(0.0, Budget(cfg, s, m) - Deployed(s, m))
  }

  // -- the gate -----------------------------------------------------------------------------------

  /** The classes of positions a cap counts. */
  datatype Class = Everything | OnMarket(market: Market) | InSector(sector: string)

  predicate InClass(p: Position, c: Class) {
    match c
    case Everything => true
    case OnMarket(m) => p.market == m
    case InSector(s) => p.market == Stocks && p.sector == s
  }

  function Tally(ps: seq<Position>, c: Class): nat {
    if ps == [] then 0
    else Tally(ps[..|ps| - 1], c) + (if InClass(ps[|ps| - 1], c) then 1 else 0)
  }

  predicate Named(sector: string) {
    sector != "" && sector != "unknown"
  }

  function CanOpen(cfg: Config, s: State, m: Market, ps: seq<Position>, sector: string, amount: real): Verdict {
    if LossBreached(cfg, s) then DailyLossLimit
    else if |ps| >= cfg.maxTotal then MaxOpenTotal
    else if m == Crypto && Tally(ps, OnMarket(m)) >= cfg.maxCrypto then MaxOpenCrypto
    else if m == Stocks && Tally(ps, OnMarket(m)) >= cfg.maxStocks then MaxOpenStocks
    else if m == Stocks && Named(sector) && Tally(ps, InSector(sector)) >= cfg.maxPerSector then MaxPerSector
    else if FreeBudget(cfg, s, m) <= 0.0 then BudgetExhausted
    else if amount != 0.0 && amount > FreeBudget(cfg, s, m) + 0.000000001 then ExceedsBudget
    else Allowed
  }

  function Share(x: real, f: real): real {
    x * f
  }

  function MarketShare(cfg: Config, s: State, m: Market): real {
    Share(Budget(cfg, s, m), cfg.pctOfMarket)
  }

  function LossShare(cfg: Config, s: State): real {
    Share(LossRoom(cfg, s), cfg.pctOfLoss)
  }

  /** The size before the confidence factor: the tightest of the three bounds. */
  function RawSize(cfg: Config, s: State, m: Market): real {
    Min(Min(MarketShare(cfg, s, m), LossShare(cfg, s)), FreeBudget(cfg, s, m))
  }

  /** The score scales linearly between half size and full size. */
  function Confidence(score: real): real {
    0.5 + 0.5 * Clamp01(score)
  }

  function Scaled(cfg: Config, s: State, m: Market, score: real): real {
    Max(0.0, Share(RawSize(cfg, s, m), Confidence(score)))
  }

  function PositionSize(cfg: Config, s: State, m: Market, score: real): real {
    (cfg.round)(Scaled(cfg, s, m, score))
  }

  /** The part of the whole budget that the allocation gives a market. */
  ghost function Entitled(cfg: Config, s: State, m: Market): real {
    match m
    case Crypto => Share(cfg.totalBudget, s.split.crypto)
    case Stocks => Share(cfg.totalBudget, s.split.stocks)
  }

  lemma BudgetIsEntitled(cfg: Config, s: State, m: Market)
    ensures Budget(cfg, s, m) == Entitled(cfg, s, m)
  {
  }

  /** The three amounts a size must fit: the market's share of what it is entitled to, the loss share of what
      the day may still lose, and what of its entitlement is free. */
  ghost predicate Fits(cfg: Config, s: State, m: Market, x: real) {
    && x <= Max(0.0, Share(Entitled(cfg, s, m), cfg.pctOfMarket))
    && x <= Share(Max(0.0, cfg.lossLimit + Min(0.0, s.realized)), cfg.pctOfLoss)
    && x <= Max(0.0, Entitled(cfg, s, m) - Deployed(s, m))
  }

  /** The part of that a score is given: half at zero and below, all at one and above, a straight line between. */
  ghost function Graded(score: real, x: real): real {
    if score <= 0.0 then x / 2.0 else if score >= 1.0 then x else x / 2.0 + Share(x / 2.0, score)
  }

  lemma FitsRaw(cfg: Config, s: State, m: Market, x: real)
    requires cfg.Sane() && x >= 0.0
    ensures Fits(cfg, s, m, x) <==> x <= Max(0.0, RawSize(cfg, s, m))
  {
    hide Share, Budget, Entitled;
    BudgetIsEntitled(cfg, s, m);
    ShareNonNegative(LossRoom(cfg, s), cfg.pctOfLoss);
  }

  lemma ShareNonNegative(x: real, f: real)
    requires x >= 0.0 && f >= 0.0
    ensures Share(x, f) >= 0.0
  {
  }

  lemma GradedIsShare(score: real, x: real)
    ensures Graded(score, x) == Share(x, Confidence(score))
    ensures x >= 0.0 ==> 0.0 <= Graded(score, x) <= x
  {
    hide Share;
    ShareAtEnds(x);
    ShareOfLine(x, score);
    if x >= 0.0 {
      ShareWithin(x, Confidence(score));
    }
  }

  lemma ShareAtEnds(x: real)
    ensures Share(x, 0.5) == x / 2.0 && Share(x, 1.0) == x
  {
  }

  lemma ShareOfLine(x: real, score: real)
    ensures Share(x, 0.5 + 0.5 * score) == x / 2.0 + Share(x / 2.0, score)
  {
  }

  lemma ShareWithin(x: real, f: real)
    requires x >= 0.0 && 0.0 <= f <= 1.0
    ensures 0.0 <= Share(x, f) <= x
  {
  }

  /** A size is a non-negative cent amount, and to half a cent the graded part of the largest amount that fits:
      it is within the graded part of some amount that fits, and no amount that fits has a larger one. */
  lemma SizeBounds(cfg: Config, s: State, m: Market, score: real) returns (raw: real)
    requires cfg.Sane()
    ensures 0.0 <= raw && Fits(cfg, s, m, raw) && forall x :: x >= 0.0 && Fits(cfg, s, m, x) ==> x <= raw
    ensures var size := PositionSize(cfg, s, m, score);
            && 0.0 <= size && IsCents(size) && -0.005 <= size - Graded(score, raw) <= 0.005
            && Graded(score, raw) <= raw
  {
    hide Fits, Share, RawSize, Confidence, Graded;
    raw := Max(0.0, RawSize(cfg, s, m));
    forall x | x >= 0.0 ensures Fits(cfg, s, m, x) <==> x <= raw {
      FitsRaw(cfg, s, m, x);
    }
    GradedIsShare(score, raw);
    ConfidenceInUnit(score);
    ShareOfPositive(RawSize(cfg, s, m), Confidence(score));
    RoundsNear(cfg, Scaled(cfg, s, m, score));
  }

  lemma ConfidenceInUnit(score: real)
    ensures 0.5 <= Confidence(score) <= 1.0
  {
  }

  lemma ShareOfPositive(x: real, f: real)
    requires f >= 0.0
    ensures Max(0.0, Share(x, f)) == Share(Max(0.0, x), f)
  {
    if x < 0.0 {
      assert x * f <= 0.0;
    }
  }

  lemma ScaledWithinRaw(cfg: Config, s: State, m: Market, score: real)
    ensures 0.0 <= Scaled(cfg, s, m, score) <= Max(0.0, RawSize(cfg, s, m))
  {
    ShrinkByFactor(RawSize(cfg, s, m), Confidence(score));
  }

  lemma RawWithinShares(cfg: Config, s: State, m: Market)
    requires cfg.Sane()
    ensures Max(0.0, RawSize(cfg, s, m)) <= FreeBudget(cfg, s, m)
    ensures Max(0.0, RawSize(cfg, s, m)) <= LossShare(cfg, s)
    ensures Max(0.0, RawSize(cfg, s, m)) <= Max(0.0, MarketShare(cfg, s, m))
  {
    ProductNonNegative(LossRoom(cfg, s), cfg.pctOfLoss);
  }

  /** The size grows with the score, from half of the tightest bound at score zero and below to the whole
      of it at one and above, each rounded to the cent. */
  lemma SizeScales(cfg: Config, s: State, m: Market, low: real, high: real)
    requires cfg.Sane() && low <= high
    ensures PositionSize(cfg, s, m, low) <= PositionSize(cfg, s, m, high)
    ensures low <= 0.0 ==> PositionSize(cfg, s, m, low) == (cfg.round)(Max(0.0, RawSize(cfg, s, m)) * 0.5)
    ensures high >= 1.0 ==> PositionSize(cfg, s, m, high) == (cfg.round)(Max(0.0, RawSize(cfg, s, m)))
  {
    hide Share, RawSize;
    FactorMonotone(RawSize(cfg, s, m), Confidence(low), Confidence(high));
    RoundMonotone(cfg, Scaled(cfg, s, m, low), Scaled(cfg, s, m, high));
    EndFactors(RawSize(cfg, s, m));
    assert low <= 0.0 ==> Confidence(low) == 0.5;
    assert high >= 1.0 ==> Confidence(high) == 1.0;
  }

  lemma EndFactors(raw: real)
    ensures Max(0.0, Share(raw, 0.5)) == Max(0.0, raw) * 0.5 && Max(0.0, Share(raw, 1.0)) == Max(0.0, raw)
  {
  }

  lemma RoundMonotone(cfg: Config, x: real, y: real)
    requires IsCentRounding(cfg.round) && x <= y
    ensures (cfg.round)(x) <= (cfg.round)(y)
  {
  }

  lemma FactorMonotone(raw: real, j: real, k: real)
    requires 0.0 < j <= k
    ensures Max(0.0, Share(raw, j)) <= Max(0.0, Share(raw, k))
  {
    if raw >= 0.0 {
      assert raw * j <= raw * k;
    } else {
      assert raw * j <= 0.0;
    }
  }

  /** With a loss fraction of at most one half, a size never exceeds the whole loss room, dust included. */
  lemma SizeWithinRoom(cfg: Config, s: State, m: Market, score: real)
    requires cfg.Sane() && cfg.pctOfLoss <= 0.5
    ensures PositionSize(cfg, s, m, score) <= LossRoom(cfg, s)
  {
    ScaledWithinRaw(cfg, s, m, score);
    RawWithinShares(cfg, s, m);
    HalfOfRoom(cfg, s);
    HalfStaysBelow(cfg, Scaled(cfg, s, m, score), LossRoom(cfg, s));
  }

  lemma RoundsNear(cfg: Config, x: real)
    requires IsCentRounding(cfg.round) && x >= 0.0
    ensures 0.0 <= (cfg.round)(x) && x - 0.005 <= (cfg.round)(x) <= x + 0.005 && IsCents((cfg.round)(x))
  {
    assert IsCents(0.0);
    assert (cfg.round)(0.0) <= (cfg.round)(x);
  }

  lemma ShrinkByFactor(raw: real, k: real)
    requires 0.0 <= k <= 1.0
    ensures Max(0.0, Share(raw, k)) <= Max(0.0, raw)
  {
    if raw >= 0.0 {
      assert raw * k <= raw * 1.0;
    } else {
      assert raw * k <= 0.0;
    }
  }

  lemma HalfOfRoom(cfg: Config, s: State)
    requires cfg.pctOfLoss <= 0.5
    ensures LossShare(cfg, s) <= LossRoom(cfg, s) * 0.5
  {
    var room := LossRoom(cfg, s);
    assert room * cfg.pctOfLoss <= room * 0.5;
  }

  /** Rounding cannot carry half of `room` past `room`. */
  lemma HalfStaysBelow(cfg: Config, x: real, room: real)
    requires IsCentRounding(cfg.round) && 0.0 <= x <= room * 0.5
    ensures (cfg.round)(x) <= room
  {
    if room < 0.01 {
      var r := (cfg.round)(x);
      assert IsCents(r) && r <= x + 0.005 < 0.01;
      assert (r * 100.0).Floor < 1;
    }
  }

  // -- a day of trades, one at a time -------------------------------------------------------------

  /** One trade that closes before the next opens: its market, its score and its outcome. */
  datatype Trade = Trade(market: Market, score: real, pnl: real)

  /** Whether the gate lets the trade through on an empty book, and with which size. */
  function Size(cfg: Config, s: State, t: Trade): real {
    if CanOpen(cfg, s, t.market, [], "unknown", 0.0) == Allowed then PositionSize(cfg, s, t.market, t.score) else 0.0
  }

  function AfterTrade(cfg: Config, s: State, t: Trade): State {
    var size := Size(cfg, s, t);
    if size <= 0.0 then s
    else WithClose(WithFill(s, t.market, size), t.market, t.pnl, size)
  }

  function AfterTrades(cfg: Config, s: State, ts: seq<Trade>): State {
    if ts == [] then s else AfterTrade(cfg, AfterTrades(cfg, s, ts[..|ts| - 1]), ts[|ts| - 1])
  }

  /** No trade loses more than it was sized at. */
  ghost predicate LossesWithinSize(cfg: Config, s: State, ts: seq<Trade>) {
    forall i :: 0 <= i < |ts| ==> ts[i].pnl >= -Size(cfg, AfterTrades(cfg, s, ts[..i]), ts[i])
  }

  lemma PrefixWithinSize(cfg: Config, s: State, ts: seq<Trade>, n: nat)
    requires LossesWithinSize(cfg, s, ts) && n <= |ts|
    ensures LossesWithinSize(cfg, s, ts[..n])
  {
    forall i | 0 <= i < n ensures ts[..n][i].pnl >= -Size(cfg, AfterTrades(cfg, s, ts[..n][..i]), ts[..n][i]) {
      assert ts[..n][..i] == ts[..i];
    }
  }

  /** What is left of `room` after the largest loss a trade sized at the fraction `f` allows. */
  function LeftOf(room: real, f: real): real {
    room - (Share(room, f) + 0.005)
  }

  lemma TradeKeepsRoom(cfg: Config, s: State, t: Trade)
    requires cfg.Sane() && t.pnl >= -Size(cfg, s, t)
    requires s.realized >= -cfg.lossLimit
    ensures LossRoom(cfg, AfterTrade(cfg, s, t)) >= LeftOf(LossRoom(cfg, s), cfg.pctOfLoss)
  {
    hide Entitled, Graded;
    var raw := SizeBounds(cfg, s, t.market, t.score);
    LossMovesRoom(cfg, s, t);
  }

  lemma LossMovesRoom(cfg: Config, s: State, t: Trade)
    requires cfg.Sane() && t.pnl >= -Size(cfg, s, t) && s.realized >= -cfg.lossLimit
    requires PositionSize(cfg, s, t.market, t.score) >= 0.0
    ensures LossRoom(cfg, AfterTrade(cfg, s, t)) >= LossRoom(cfg, s) - PositionSize(cfg, s, t.market, t.score)
  {
    assert AfterTrade(cfg, s, t).realized >= s.realized - PositionSize(cfg, s, t.market, t.score)
           || AfterTrade(cfg, s, t).realized == s.realized;
  }

  lemma TradeKeepsLimit(cfg: Config, s: State, t: Trade)
    requires cfg.Sane() && cfg.pctOfLoss <= 0.5 && t.pnl >= -Size(cfg, s, t)
    requires s.realized >= -cfg.lossLimit
    ensures AfterTrade(cfg, s, t).realized >= -cfg.lossLimit
  {
    SizeWithinRoom(cfg, s, t.market, t.score);
  }

  lemma {:induction false} OneDayLossBound(cfg: Config, s: State, ts: seq<Trade>)
    requires cfg.Sane() && cfg.pctOfLoss <= 0.5
    requires s.realized >= -cfg.lossLimit && LossesWithinSize(cfg, s, ts)
    ensures AfterTrades(cfg, s, ts).realized >= -cfg.lossLimit
  {
    if ts != [] {
      var init := ts[..|ts| - 1];
      PrefixWithinSize(cfg, s, ts, |init|);
      OneDayLossBound(cfg, s, init);
      TradeKeepsLimit(cfg, AfterTrades(cfg, s, init), ts[|ts| - 1]);
    }
  }

  /** A share `p` of the limit, less the most that rounding can add up to. */
  function Floor(p: real, limit: real, f: real): real
    requires f != 0.0
  {
    p * limit - 0.005 / f
  }

  /** After n such trades on a fresh day, the room left is at least (1 - f)^n of the limit, up to dust. */
  lemma {:induction false} SequentialRoom(cfg: Config, s: State, ts: seq<Trade>)
    requires cfg.Sane() && 0.0 < cfg.pctOfLoss <= 0.5
    requires s.realized == 0.0 && LossesWithinSize(cfg, s, ts)
    ensures LossRoom(cfg, AfterTrades(cfg, s, ts))
            >= FloorAfter(cfg, |ts|)
  {
    if ts == [] {
      FullRoom(cfg, s);
    } else {
      var init, last := ts[..|ts| - 1], ts[|ts| - 1];
      PrefixWithinSize(cfg, s, ts, |init|);
      SequentialRoom(cfg, s, init);
      OneDayLossBound(cfg, s, init);
      assert last.pnl >= -Size(cfg, AfterTrades(cfg, s, init), last);
      RoomStep(cfg, AfterTrades(cfg, s, init), last, |init|);
    }
  }

  lemma FullRoom(cfg: Config, s: State)
    requires cfg.Sane() && cfg.pctOfLoss > 0.0 && s.realized == 0.0
    ensures LossRoom(cfg, s) >= FloorAfter(cfg, 0)
  {
    DivNonNegative(0.005, cfg.pctOfLoss);
  }

  /** The bound after n trades. */
  function FloorAfter(cfg: Config, n: nat): real
    requires cfg.pctOfLoss != 0.0
  {
    Floor(Power(1.0 - cfg.pctOfLoss, n), cfg.lossLimit, cfg.pctOfLoss)
  }

  lemma RoomStep(cfg: Config, s: State, t: Trade, n: nat)
    requires cfg.Sane() && 0.0 < cfg.pctOfLoss <= 0.5 && t.pnl >= -Size(cfg, s, t)
    requires s.realized >= -cfg.lossLimit && LossRoom(cfg, s) >= FloorAfter(cfg, n)
    ensures LossRoom(cfg, AfterTrade(cfg, s, t)) >= FloorAfter(cfg, n + 1)
  {
    TradeKeepsRoom(cfg, s, t);
    DecayAfter(cfg, LossRoom(cfg, s), n);
  }

  lemma DecayAfter(cfg: Config, room: real, n: nat)
    requires 0.0 < cfg.pctOfLoss <= 0.5 && room >= FloorAfter(cfg, n)
    ensures LeftOf(room, cfg.pctOfLoss) >= FloorAfter(cfg, n + 1)
  {
    Decay(room, Power(1.0 - cfg.pctOfLoss, n), cfg.lossLimit, cfg.pctOfLoss);
  }

  lemma Decay(room: real, p: real, limit: real, f: real)
    requires 0.0 < f <= 0.5 && room >= Floor(p, limit, f)
    ensures LeftOf(room, f) >= Floor((1.0 - f) * p, limit, f)
  {
    var d := 0.005 / f;
    assert d * f == 0.005;
    var low := p * limit - d;
    assert (1.0 - f) * room >= (1.0 - f) * low;
    assert (1.0 - f) * low == ((1.0 - f) * p) * limit - (d - d * f);
  }

  // -- trades over any number of days -------------------------------------------------------------

  /** A trade with what may change around it: a new allocation before it, and the date read before it opens
      and again before it closes. It may be open over midnight. */
  datatype Turn = Turn(allocation: Option<Split>, openDay: int, closeDay: int, trade: Trade)

  function BeforeOpen(cfg: Config, s: State, t: Turn): State {
    WithNewDay(if t.allocation.Some? then WithAllocation(cfg, s, t.allocation.value) else s, t.openDay)
  }

  function AfterTurn(cfg: Config, s: State, t: Turn): State {
    var o := BeforeOpen(cfg, s, t);
    var m, size := t.trade.market, Size(cfg, o, t.trade);
    if size <= 0.0 then WithNewDay(o, t.closeDay)
    else WithClose(WithNewDay(WithFill(o, m, size), t.closeDay), m, t.trade.pnl, size)
  }

  function AfterTurns(cfg: Config, s: State, ts: seq<Turn>): State {
    if ts == [] then s else AfterTurn(cfg, AfterTurns(cfg, s, ts[..|ts| - 1]), ts[|ts| - 1])
  }

  /** No trade loses more than it was sized at. */
  ghost predicate TurnsWithinSize(cfg: Config, s: State, ts: seq<Turn>) {
    ts == [] ||
    (TurnsWithinSize(cfg, s, ts[..|ts| - 1]) &&
     var before, t := AfterTurns(cfg, s, ts[..|ts| - 1]), ts[|ts| - 1];
     t.trade.pnl >= -Size(cfg, BeforeOpen(cfg, before, t), t.trade))
  }

  lemma TurnKeepsLimit(cfg: Config, s: State, t: Turn)
    requires cfg.Sane() && cfg.pctOfLoss <= 0.5 && s.realized >= -cfg.lossLimit
    requires t.trade.pnl >= -Size(cfg, BeforeOpen(cfg, s, t), t.trade)
    ensures AfterTurn(cfg, s, t).realized >= -cfg.lossLimit
  {
    hide CanOpen, PositionSize;
    SizeWithinRoom(cfg, BeforeOpen(cfg, s, t), t.trade.market, t.trade.score);
  }

  /** Trading one position at a time, the desk never loses more in a day than its daily limit, for any
      fraction of the loss room up to one half, any sequence of scores, outcomes and allocations, and any
      dates: a position carried over midnight counts against the day it closes on. */
  lemma {:induction false} SequentialLossBound(cfg: Config, s: State, ts: seq<Turn>)
    requires cfg.Sane() && cfg.pctOfLoss <= 0.5
    requires s.realized >= -cfg.lossLimit && TurnsWithinSize(cfg, s, ts)
    ensures AfterTurns(cfg, s, ts).realized >= -cfg.lossLimit
  {
    if ts != [] {
      SequentialLossBound(cfg, s, ts[..|ts| - 1]);
      TurnKeepsLimit(cfg, AfterTurns(cfg, s, ts[..|ts| - 1]), ts[|ts| - 1]);
    }
  }

  // -- the manager as an object -------------------------------------------------------------------

  class RiskManager {
    const cfg: Config
    var allocation: Split
    var realizedPnlToday: real
    var deployedUsd: map<Market, real>
    var sessionDate: int

    function Now(): State
      reads this
    {
      State(allocation, realizedPnlToday, deployedUsd, sessionDate)
    }

    constructor (cfg: Config, today: int)
      ensures this.cfg == cfg && Now() == Fresh(today)
    {
      this.cfg := cfg;
      allocation := EVEN;
      realizedPnlToday := 0.0;
      deployedUsd := map[Crypto := 0.0, Stocks := 0.0];
      sessionDate := today;
    }

    method MaybeResetDay(today: int) returns (reset: bool)
      modifies this
      ensures Now() == WithNewDay(old(Now()), today)
      ensures reset <==> today != old(sessionDate)
    {
      if today == sessionDate {
        return false;
      }
      sessionDate := today;
      realizedPnlToday := 0.0;
      deployedUsd := map[Crypto := 0.0, Stocks := 0.0];
      return true;
    }

    method RecordFill(m: Market, amount: real)
      modifies this
      ensures Now() == WithFill(old(Now()), m, amount)
    {
      deployedUsd := deployedUsd[m := Deployed(Now(), m) + amount];
    }

    method RecordClose(m: Market, pnl: real, amount: real)
      modifies this
      ensures Now() == WithClose(old(Now()), m, pnl, amount)
    {
      realizedPnlToday := realizedPnlToday + pnl;
      if amount != 0.0 {
        deployedUsd := deployedUsd[m := Max(0.0, Deployed(Now(), m) - amount)];
      }
    }

    method SetAllocation(a: Split) returns (applied: Split)
      modifies this
      ensures Now() == WithAllocation(cfg, old(Now()), a) && applied == allocation
    {
      allocation := Normalized(a, cfg.cryptoMax, cfg.stockMax);
      applied := allocation;
    }
  }
}
