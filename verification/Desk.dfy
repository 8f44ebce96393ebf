/** The orchestrator (src/desk.py) as a system of steps. Four asyncio loops share one risk manager and
    one list of positions, and give way to each other only at an `await`; every step below is what one
    of them does between two awaits. Opens hold a lock across their order, so at most one sized open is
    in flight; exits, refreshes, allocation changes and day resets take no lock. */
module Desk {
  import opened Models
  import opened Allocation
  import opened Risk
  import opened Holdings

  /** What an open is decided on: the checker's score sizes it, the matrix score is remembered. */
  datatype Candidate = Candidate(
    market: Market, symbol: string, mint: string, sector: string, price: real, sizeScore: real, score: real)

  /** A checked and sized open whose order has not come back. */
  datatype Opening = Opening(candidate: Candidate, amount: real)

  /** How the order ended. A crypto order can fill, or fail leaving stranded tokens; a stock order is
      accepted with its stop, for as many whole shares as the amount buys. */
  datatype Fill =
    | NoFill
    | CryptoFill(quantity: real, price: real)
    | CryptoStranded(quantity: real)
    | StockFill(stop: real)

  datatype Decision = Untouched | Tightened(pct: real) | Trimmed(fraction: real) | Closed

  /** `pending` is what the exit pass has still to manage. `paid` is a record kept for the statements
      below: what the risk manager was told when a position was opened. */
  datatype Desk = Desk(risk: State, held: Holdings, opening: Option<Opening>, pending: seq<nat>, paid: map<nat, real>)

  datatype Step =
    | DayCheck(today: int)
    | OpenBegins(candidate: Candidate)
    | OpenLands(fill: Fill)
    | Allocates(split: Split)
    | Refreshes(stocks: Option<seq<Position>>, crypto: Option<seq<Position>>)
    | Manages(decision: Decision)
    | PassAborts

  function Start(day: int): Desk {
    Desk(Fresh(day), Holdings(map[], [], 0), None, [], map[])
  }

  function Values(h: Holdings): (ps: seq<Position>)
    requires forall u :: u in h.list ==> u in h.store
    ensures |ps| == |h.list|
  {
    seq(|h.list|, i requires 0 <= i < |h.list| => h.store[h.list[i]])
  }

  // -- one step ---------------------------------------------------------------------------------

  /** Whole shares at `price`, and what they cost to the cent. */
  function Shares(amount: real, price: real): int
    requires price > 0.0
  {
    (amount / price).Floor
  }

  function Bill(quantity: real, price: real): real {
    quantity * price
  }

  function ShareCost(cfg: Config, amount: real, price: real): real
    requires price > 0.0
  {
    (cfg.round)(Bill(Shares(amount, price) as real, price))
  }

  /** The position a finished order puts on the desk, if any. */
  function Landed(cfg: Config, o: Opening, fill: Fill): Option<Position> {
    var c := o.candidate;
    match fill
    case NoFill => None
    case CryptoFill(q, p) =>
      if c.market == Crypto && q > 0.0
      then Some(Position(Crypto, c.symbol, c.mint, "unknown", q, p, p, o.amount, 0.0, c.score)) else None
    case CryptoStranded(q) =>
      if c.market == Crypto && q > 0.0 then
        var price := o.amount / q;
        Some(Position(Crypto, c.symbol, c.mint, "unknown", q, price, price, o.amount, 0.0, c.score))
      else None
    case StockFill(stop) =>
      if c.market == Stocks && c.price > 0.0 && Shares(o.amount, c.price) >= 1
      then Some(Position(Stocks, c.symbol, "", c.sector, Shares(o.amount, c.price) as real, c.price, c.price,
                         ShareCost(cfg, o.amount, c.price), stop, c.score)) else None
  }

  /** The gate and the sizing, which run without an await between them. */
  function Sized(cfg: Config, d: Desk, c: Candidate): Option<Opening>
    requires Valid(d.held)
  {
    var amount := PositionSize(cfg, d.risk, c.market, c.sizeScore);
    var sector := if c.market == Stocks then c.sector else "unknown";
    if CanOpen(cfg, d.risk, c.market, Values(d.held), sector, 0.0) == Allowed && amount > 0.0
    then Some(Opening(c, amount)) else None
  }

  function Without(us: seq<nat>, u: nat): seq<nat> {
    if us == [] then []
    else Without(us[..|us| - 1], u) + (if us[|us| - 1] == u then [] else [us[|us| - 1]])
  }

  function Land(d: Desk, p: Position): Desk {
    var u := d.held.next;
    d.(risk := WithFill(d.risk, p.market, p.amountUsd),
       held := Holdings(d.held.store[u := p], d.held.list + [u], u + 1),
       paid := d.paid[u := p.amountUsd],
       opening := None)
  }

  function Tighter(p: Position, pct: real): Position {
    p.(stopPrice := p.currentPrice * (1.0 - pct))
  }

  function Smaller(p: Position, fraction: real): Position {
    p.(quantity := p.quantity * (1.0 - fraction), amountUsd := p.amountUsd * (1.0 - fraction))
  }

  function Manage(d: Desk, u: nat, decision: Decision): Desk
    requires u in d.held.store
  {
    var p := d.held.store[u];
    match decision
    case Untouched => d
    case Tightened(pct) => d.(held := d.held.(store := d.held.store[u := Tighter(p, pct)]))
    case Trimmed(f) => d.(held := d.held.(store := d.held.store[u := Smaller(p, f)]))
    case Closed =>
      d.(risk := WithClose(d.risk, p.market, p.Pnl(), p.amountUsd), held := d.held.(list := Without(d.held.list, u)))
  }

  ghost predicate Enabled(d: Desk, s: Step) {
    match s
    case OpenBegins(_) => d.opening.None?
    case OpenLands(_) => d.opening.Some?
    case Refreshes(stocks, crypto) => d.pending == [] && SnapshotOf(stocks, Stocks) && SnapshotOf(crypto, Crypto)
    case Manages(decision) => d.pending != [] && (decision.Trimmed? ==> 0.0 < decision.fraction < 1.0)
    case _ => true
  }

  function Apply(cfg: Config, d: Desk, s: Step): Desk
    requires Valid(d.held)
  {
    match s
    case DayCheck(today) => d.(risk := WithNewDay(d.risk, today))
    case OpenBegins(c) => if d.opening.Some? then d else d.(opening := Sized(cfg, d, c))
    case OpenLands(fill) =>
      if d.opening.None? then d
      else
        var landed := Landed(cfg, d.opening.value, fill);
        if landed.Some? then Land(d, landed.value) else d.(opening := None)
    case Allocates(split) => d.(risk := WithAllocation(cfg, d.risk, split))
    case Refreshes(stocks, crypto) =>
      var r := Refresh(d.held, stocks, crypto);
      d.(held := r, pending := r.list)
    case Manages(decision) =>
      if d.pending == [] || d.pending[0] !in d.held.store then d
      else Manage(d.(pending := d.pending[1..]), d.pending[0], decision)
    case PassAborts => d.(pending := [])
  }

  // -- structure every run keeps ------------------------------------------------------------------

  ghost predicate WellFormed(d: Desk) {
    Valid(d.held) && forall u :: u in d.pending ==> u in d.held.store
  }

  lemma {:induction false} WithoutMembers(us: seq<nat>, u: nat)
    ensures forall v :: v in Without(us, u) <==> v in us && v != u
  {
    if us != [] {
      WithoutMembers(us[..|us| - 1], u);
      assert us == us[..|us| - 1] + [us[|us| - 1]];
    }
  }

  lemma StaysWellFormed(cfg: Config, d: Desk, s: Step)
    requires WellFormed(d) && Enabled(d, s)
    ensures WellFormed(Apply(cfg, d, s))
  {
    match s
    case Refreshes(stocks, crypto) => RefreshKept(d.held, stocks, crypto);
    case Manages(decision) =>
      assert d.pending[0] in d.pending;
      WithoutMembers(d.held.list, d.pending[0]);
    case _ =>
  }

  /** A run of enabled steps; undefined steps cannot occur in it. */
  function Run(cfg: Config, d: Desk, steps: seq<Step>): (r: Desk)
    requires WellFormed(d) && Legal(cfg, d, steps)
    ensures WellFormed(r)
    decreases |steps|, 1
  {
    if steps == [] then d
    else
      var before := Run(cfg, d, steps[..|steps| - 1]);
      StaysWellFormed(cfg, before, steps[|steps| - 1]);
      Apply(cfg, before, steps[|steps| - 1])
  }

  ghost predicate Legal(cfg: Config, d: Desk, steps: seq<Step>)
    requires WellFormed(d)
    decreases |steps|, 0
  {
    steps == [] ||
    (Legal(cfg, d, steps[..|steps| - 1]) && Enabled(Run(cfg, d, steps[..|steps| - 1]), steps[|steps| - 1]))
  }
}
