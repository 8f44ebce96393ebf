/** One process of the desk, seen through its crypto mints: the executor's book, the wallet on chain,
    the event log and the desk's positions, as steps between awaits.

    Opens run under one lock, so at most one is in flight; exits run in one loop, so at most one is in
    flight; everything else interleaves freely. Each step below is one await-to-await segment of
    `_open_crypto`, `manage_position` or `refresh_positions` (src/desk.py) together with the part of
    `CryptoExecutor.buy` or `sell` it runs, or a move of the chain. */
module Session {
  import opened Models
  import opened EventLog
  import opened Ledger

  /** A buy order on its way: the balance read before it was submitted, and what it must deliver. */
  datatype Order = Order(before: int, expected: int, decimals: nat)

  datatype Opening = Opening(mint: Mint, usd: real, order: Option<Order>)

  /** How far a sell has come. `left` is what the submitted swap can still take from the wallet. */
  datatype Stage = Deciding | Sized(raw: int) | Submitted(raw: int, before: int, left: int)

  /** A close (of the whole balance) or a trim (of a proper fraction) on its way. */
  datatype Exiting = Exiting(mint: Mint, closing: bool, fraction: real, stage: Stage)

  datatype World = World(
    paper: bool,
    book: Book,
    wallet: map<Mint, int>,
    log: seq<Record>,
    positions: multiset<Mint>,          // keys of the desk's crypto positions
    seen: set<Mint>,                    // mints the scout has emitted; it never emits one twice
    opening: Option<Opening>,
    exiting: Option<Exiting>,
    snapshot: Option<set<Mint>>)        // mints a wallet refresh in flight may report

  datatype Step =
    | OpenBegins(mint: Mint, usd: real)
    | BuySubmits(expected: int, decimals: nat)
    | BuyMoves(amount: nat)
    | BuyLands
    | PaperBuyLands(out: int, decimals: nat, price: real)
    | OpenFails
    | ExitBegins(mint: Mint, closing: bool, fraction: real)
    | ExitSizes
    | SellSubmits
    | SellMoves(amount: nat)
    | SellLands(pnl: real, entries: nat)
    | PaperSellLands(pnl: real, entries: nat)
    | ExitFails
    | RefreshReads
    | RefreshMerges(positions: multiset<Mint>)
    | Tightens(mint: Mint, price: real)
    | Logs(record: Record)
    | Deposits(mint: Mint, amount: nat)

  function Balance(wallet: map<Mint, int>, m: Mint): int {
    if m in wallet then wallet[m] else 0
  }

  function Start(paper: bool, wallet: map<Mint, int>): World {
    World(paper, EMPTY, wallet, [], multiset{}, {}, None, None, None)
  }

  /** The mints `_desk_opened_mints` reports: the book's own and those the log leaves open. */
  function Visible(w: World): set<Mint> {
    w.book.openedMints + OpenMints(w.log)
  }

  // -- when a step may happen -------------------------------------------------------------------

  predicate BuySent(w: World) {
    w.opening.Some? && w.opening.value.order.Some?
  }

  predicate SellSent(w: World) {
    w.exiting.Some? && w.exiting.value.stage.Submitted?
  }

  /** The balance `sell` takes its fraction of: the lot on paper when there is one, else the wallet. */
  function SellableBalance(w: World, m: Mint): int {
    if w.paper && m in w.book.lots then w.book.lots[m].raw else Balance(w.wallet, m)
  }

  predicate IsExitFraction(closing: bool, fraction: real) {
    if closing then fraction == 1.0 else 0.0 < fraction < 1.0
  }

  /** A mint whose open has ended and that has no position: the desk has lost sight of it, be it because
      its buy failed, whatever that buy had moved or moves later, or because it was closed. */
  predicate Lost(w: World, m: Mint) {
    m in w.seen && m !in w.positions && (w.opening.Some? ==> w.opening.value.mint != m)
  }

  /** The closed position is one object, listed at least once; other objects of its mint stay. */
  predicate Drops(w: World, entries: nat)
    requires w.exiting.Some?
  {
    1 <= entries <= w.positions[w.exiting.value.mint]
  }

  /** What the code and the chain allow. In every world a buy may fail at any point, before or after it
      moved tokens, and its tokens may still arrive later. With `closed`, nobody else feeds the live
      wallet a mint the desk has yet to open or still has a position in; without it, anyone may. Every sell
      that moved tokens is confirmed and its balance read is answered. */
  ghost predicate Enabled(w: World, s: Step, closed: bool) {
    match s
    case OpenBegins(m, usd) => w.opening.None? && m != "" && m !in w.seen
    case BuySubmits(_, _) => w.opening.Some? && w.opening.value.order.None? && !w.paper
    case BuyMoves(_) => BuySent(w)
    case BuyLands => BuySent(w)
    case PaperBuyLands(out, _, _) => w.opening.Some? && w.paper && out > 0
    case OpenFails => w.opening.Some?
    case ExitBegins(m, closing, fraction) =>
      w.exiting.None? && w.snapshot.None? && m in w.positions && IsExitFraction(closing, fraction)
    case ExitSizes =>
      && w.exiting.Some? && w.exiting.value.stage.Deciding?
      && FractionRaw(SellableBalance(w, w.exiting.value.mint), w.exiting.value.fraction) > 0
    case SellSubmits => w.exiting.Some? && w.exiting.value.stage.Sized? && !w.paper
    case SellMoves(n) => SellSent(w) && n <= w.exiting.value.stage.left && n <= Balance(w.wallet, w.exiting.value.mint)
    case SellLands(_, entries) => SellSent(w) && Drops(w, entries)
    case PaperSellLands(_, entries) =>
      w.exiting.Some? && w.exiting.value.stage.Sized? && w.paper && Drops(w, entries)
    case ExitFails => w.exiting.Some? && (SellSent(w) ==> Unsold(w))
    case RefreshReads => w.exiting.None? && w.snapshot.None?
    case RefreshMerges(after) =>
      && w.snapshot.Some?
      && (forall m :: m in w.positions ==> m in after)
      && (forall m :: m in after ==> m in w.positions || m in w.snapshot.value)
    case Tightens(_, price) => price > 0.0
    case Logs(r) => r.market != CRYPTO || r.kind == Other
    case Deposits(m, _) => !closed || w.paper || Lost(w, m)
  }

  /** Nothing of the submitted sell has left the wallet. */
  predicate Unsold(w: World)
    requires SellSent(w)
  {
    w.exiting.value.stage.left == w.exiting.value.stage.raw
  }

  // -- what it does ---------------------------------------------------------------------------

  function Move(w: World, m: Mint, amount: int): World {
    w.(wallet := w.wallet[m := Balance(w.wallet, m) + amount])
  }

  function Append(log: seq<Record>, r: Option<Record>): seq<Record> {
    if r.Some? then log + [r.value] else log
  }

  /** The end of `_open_crypto`: a fill, or a stranded partial fill, puts a position on the desk. */
  function LandBuy(w: World, s: Settlement, gained: bool): World
    requires w.opening.Some?
  {
    var o := w.opening.value;
    var logged := Append(w.log, s.logged);
    w.(book := s.book,
       log := if s.filled then logged + [BuyOf(o.mint, o.usd)] else logged,
       positions := if gained then w.positions + multiset{o.mint} else w.positions,
       opening := None)
  }

  function Without(positions: multiset<Mint>, m: Mint, entries: nat): multiset<Mint> {
    positions[m := if entries <= positions[m] then positions[m] - entries else 0]
  }

  /** The end of `manage_position`: only a filled close is logged and takes the position off. */
  function LandSell(w: World, s: Settlement, pnl: real, entries: nat): World
    requires w.exiting.Some?
  {
    var x := w.exiting.value;
    var done := s.filled && x.closing;
    var logged := Append(w.log, s.logged);
    w.(book := s.book,
       log := if done then logged + [CloseOf(x.mint, pnl)] else logged,
       positions := if done then Without(w.positions, x.mint, entries) else w.positions,
       exiting := None)
  }

  function OrderSent(w: World, expected: int, decimals: nat): World {
    if w.opening.None? then w
    else
      var o := w.opening.value;
      w.(opening := Some(o.(order := Some(Order(Balance(w.wallet, o.mint), expected, decimals)))))
  }

  function BuyLanded(w: World): World {
    if !BuySent(w) || Raw(w.book, w.opening.value.mint) < 0 then w
    else
      var o := w.opening.value;
      var filled := Balance(w.wallet, o.mint) - o.order.value.before;
      LandBuy(w, SettleBuy(w.book, o.mint, filled, o.order.value.expected, o.order.value.decimals, o.usd), filled > 0)
  }

  function PaperBuyLanded(w: World, out: int, decimals: nat, price: real): World {
    if w.opening.None? || Raw(w.book, w.opening.value.mint) < 0 || out <= 0 then w
    else
      var o := w.opening.value;
      LandBuy(w, Settlement(Credit(w.book, o.mint, out, decimals, price, o.usd), None, true), true)
  }

  function ExitSized(w: World): World {
    if w.exiting.None? then w
    else
      var x := w.exiting.value;
      w.(exiting := Some(x.(stage := Sized(FractionRaw(SellableBalance(w, x.mint), x.fraction)))))
  }

  function SellSubmitted(w: World): World {
    if w.exiting.None? || !w.exiting.value.stage.Sized? then w
    else
      var x := w.exiting.value;
      w.(exiting := Some(x.(stage := Submitted(x.stage.raw, Balance(w.wallet, x.mint), x.stage.raw))))
  }

  function SellMoved(w: World, n: nat): World {
    if !SellSent(w) then w
    else
      var x := w.exiting.value;
      Move(w, x.mint, -(n as int)).(exiting := Some(x.(stage := x.stage.(left := x.stage.left - n))))
  }

  function SellLanded(w: World, pnl: real, entries: nat): World {
    if !SellSent(w) then w
    else
      var x := w.exiting.value;
      LandSell(w, SettleSell(w.book, x.mint, x.stage.before - Balance(w.wallet, x.mint), x.stage.raw), pnl, entries)
  }

  function PaperSellLanded(w: World, pnl: real, entries: nat): World {
    if w.exiting.None? || !w.exiting.value.stage.Sized? then w
    else
      var x := w.exiting.value;
      LandSell(w, Settlement(Debit(w.book, x.mint, x.stage.raw), None, true), pnl, entries)
  }

  function Apply(w: World, s: Step): World {
    match s
    case OpenBegins(m, usd) => w.(opening := Some(Opening(m, usd, None)), seen := w.seen + {m})
    case BuySubmits(expected, decimals) => OrderSent(w, expected, decimals)
    case BuyMoves(n) => if w.opening.None? then w else Move(w, w.opening.value.mint, n)
    case BuyLands => BuyLanded(w)
    case PaperBuyLands(out, decimals, price) => PaperBuyLanded(w, out, decimals, price)
    case OpenFails => w.(opening := None)
    case ExitBegins(m, closing, fraction) => w.(exiting := Some(Exiting(m, closing, fraction, Deciding)))
    case ExitSizes => ExitSized(w)
    case SellSubmits => SellSubmitted(w)
    case SellMoves(n) => SellMoved(w, n)
    case SellLands(pnl, entries) => SellLanded(w, pnl, entries)
    case PaperSellLands(pnl, entries) => PaperSellLanded(w, pnl, entries)
    case ExitFails => w.(exiting := None)
    case RefreshReads => w.(snapshot := Some(Visible(w)))
    case RefreshMerges(after) => w.(positions := after, snapshot := None)
    case Tightens(m, price) => w.(book := w.book.(stops := w.book.stops[m := price]))
    case Logs(r) => w.(log := w.log + [r])
    case Deposits(m, n) => Move(w, m, n)
  }

  function Run(w: World, steps: seq<Step>): World {
    if steps == [] then w else Apply(Run(w, steps[..|steps| - 1]), steps[|steps| - 1])
  }

  ghost predicate Legal(w: World, steps: seq<Step>, closed: bool) {
    forall i :: 0 <= i < |steps| ==> Enabled(Run(w, steps[..i]), steps[i], closed)
  }

  // -- what every state keeps -----------------------------------------------------------------

  /** Equality in a closed world, at most in an open one. */
  predicate Matches(held: int, onChain: int, closed: bool) {
    if closed then held == onChain else held <= onChain
  }

  /** The desk's own side of the world, by mint: what is being opened or exited, held, logged open and
      listed. The chain moves without changing it. */
  datatype Sight = Sight(
    seen: set<Mint>, opening: Option<Mint>, lots: set<Mint>, logged: set<Mint>, positions: multiset<Mint>,
    snapshot: Option<set<Mint>>, exiting: Option<(Mint, bool, real)>)
  {
    /** Mints whose open has ended: everything but the one being opened. */
    predicate Concluded(m: Mint) {
      m in seen && opening != Some(m)
    }

    /** No mint being opened is held, logged open, on the desk or being exited. */
    ghost predicate Separate() {
      && "" !in seen
      && (opening.Some? ==> opening.value in seen)
      && (forall m :: m in lots || m in logged || m in positions ==> Concluded(m))
      && (snapshot.Some? ==> forall m :: m in snapshot.value ==> Concluded(m))
      && (exiting.Some? ==>
            exiting.value.0 in positions && IsExitFraction(exiting.value.1, exiting.value.2) && snapshot.None?)
    }

    /** What is held against the log and the desk. */
    ghost predicate Recoverable(closed: bool) {
      && (closed ==> lots == logged)
      && (forall m :: m in lots ==> m in logged && m in positions)
      && (closed && snapshot.Some? ==> forall m :: m in snapshot.value ==> m in positions)
    }
  }

  function See(w: World): Sight {
    var opening := if w.opening.Some? then Some(w.opening.value.mint) else None;
    var exiting := if w.exiting.Some?
                   then Some((w.exiting.value.mint, w.exiting.value.closing, w.exiting.value.fraction)) else None;
    Sight(w.seen, opening, w.book.lots.Keys, OpenMints(w.log), w.positions, w.snapshot, exiting)
  }

  ghost predicate BuyOnChain(w: World, closed: bool) {
    BuySent(w) ==>
      && !w.paper
      && 0 <= w.opening.value.order.value.before <= Balance(w.wallet, w.opening.value.mint)
      && (closed ==> w.opening.value.order.value.before == 0)
  }

  /** A sized sell against the lot: a close covers it, a trim in a closed world leaves some of it. */
  ghost predicate CoversLot(x: Exiting, raw: int, held: int, closed: bool) {
    && raw > 0
    && (x.closing ==> held <= raw)
    && (!x.closing && closed ==> raw < held || held == 0)
  }

  ghost predicate SellOnChain(w: World, closed: bool) {
    w.exiting.Some? ==>
      var x := w.exiting.value;
      var held := Raw(w.book, x.mint);
      match x.stage
      case Deciding => true
      case Sized(raw) => CoversLot(x, raw, held, closed) && (closed && !w.paper ==> raw <= held)
      case Submitted(raw, before, left) =>
        && !w.paper && CoversLot(x, raw, held, closed)
        && 0 <= left <= raw && Matches(held, before, closed)
        && before - (raw - left) <= Balance(w.wallet, x.mint)
        && (closed ==> raw <= held && Balance(w.wallet, x.mint) == before - (raw - left))
  }

  /** The mint whose wallet balance is being moved by a swap the book has not settled yet. */
  predicate InFlight(w: World, m: Mint) {
    || (BuySent(w) && w.opening.value.mint == m)
    || (SellSent(w) && w.exiting.value.mint == m)
  }

  ghost predicate OnChain(w: World, closed: bool) {
    && (forall m :: Balance(w.wallet, m) >= 0)
    && (!w.paper ==>
          forall m :: !InFlight(w, m) ==> Matches(Raw(w.book, m), Balance(w.wallet, m), closed && !Lost(w, m)))
  }

  /** The desk's side and the chain's, which most steps touch one of. */
  ghost predicate Booked(w: World, closed: bool) {
    WellFormed(w.book) && See(w).Separate() && See(w).Recoverable(closed)
  }

  ghost predicate Chained(w: World, closed: bool) {
    BuyOnChain(w, closed) && SellOnChain(w, closed) && OnChain(w, closed)
  }

  ghost predicate Inv(w: World, closed: bool) {
    Booked(w, closed) && Chained(w, closed)
  }

  // -- every step keeps it -------------------------------------------------------------------------

  lemma StartInv(paper: bool, wallet: map<Mint, int>, closed: bool)
    requires forall m :: m in wallet ==> wallet[m] >= 0
    requires closed && !paper ==> forall m :: m in wallet ==> wallet[m] == 0
    ensures Inv(Start(paper, wallet), closed)
  {
  }

  lemma KeepsOpenBegins(w: World, m: Mint, usd: real, closed: bool)
    requires Inv(w, closed) && Enabled(w, OpenBegins(m, usd), closed)
    ensures Inv(Apply(w, OpenBegins(m, usd)), closed)
  {
    hide OpenMints, WellFormed;
  }

  lemma KeepsBuySubmits(w: World, expected: int, decimals: nat, closed: bool)
    requires Inv(w, closed) && Enabled(w, BuySubmits(expected, decimals), closed)
    ensures Inv(Apply(w, BuySubmits(expected, decimals)), closed)
  {
    hide OpenMints, WellFormed;
    var m := w.opening.value.mint;
    assert m !in w.book.lots && !InFlight(w, m);
  }

  // Which part of a world each part of the invariant rests on.

  lemma BuyFrame(w: World, v: World, closed: bool)
    requires BuyOnChain(w, closed) && v.paper == w.paper && v.opening == w.opening
    requires BuySent(w) ==> Balance(v.wallet, w.opening.value.mint) >= Balance(w.wallet, w.opening.value.mint)
    ensures BuyOnChain(v, closed)
  {
  }

  lemma SellFrame(w: World, v: World, closed: bool)
    requires SellOnChain(w, closed) && v.paper == w.paper && v.exiting == w.exiting
    requires w.exiting.Some? ==>
               var m := w.exiting.value.mint;
               && Raw(v.book, m) == Raw(w.book, m) && Balance(v.wallet, m) >= Balance(w.wallet, m)
               && (closed && !w.paper ==> Balance(v.wallet, m) == Balance(w.wallet, m))
    ensures SellOnChain(v, closed)
  {
  }

  lemma WalletFrame(w: World, v: World, closed: bool)
    requires OnChain(w, closed) && v.paper == w.paper
    requires forall m :: Balance(v.wallet, m) >= 0
    requires forall m :: InFlight(w, m) ==> InFlight(v, m)
    requires forall m :: !InFlight(v, m) ==>
               && Raw(v.book, m) == Raw(w.book, m) && Balance(v.wallet, m) >= Balance(w.wallet, m)
               && (Lost(w, m) ==> Lost(v, m))
               && (closed && !w.paper && !Lost(v, m) ==> Balance(v.wallet, m) == Balance(w.wallet, m))
    ensures OnChain(v, closed)
  {
  }

  lemma SightFrame(w: World, v: World, closed: bool)
    requires Booked(w, closed) && See(v) == See(w)
    requires v.book.lots == w.book.lots && v.book.openedMints == w.book.openedMints
    ensures Booked(v, closed)
  {
  }

  lemma NonNegative(w: World, closed: bool)
    requires OnChain(w, closed)
    ensures forall m :: Balance(w.wallet, m) >= 0
  {
  }

  lemma ExitListed(w: World, closed: bool)
    requires Booked(w, closed)
    ensures w.exiting.Some? ==> w.exiting.value.mint in w.positions && !Lost(w, w.exiting.value.mint)
    ensures w.opening.Some? ==> !Lost(w, w.opening.value.mint)
    ensures w.opening.Some? && w.exiting.Some? ==> w.opening.value.mint != w.exiting.value.mint
  {
  }

  /** Tokens may arrive wherever nothing is said of the exact balance. */
  lemma Arrives(w: World, m: Mint, n: nat, closed: bool)
    requires Inv(w, closed)
    requires !closed || w.paper || Lost(w, m) || (BuySent(w) && w.opening.value.mint == m)
    ensures Inv(Move(w, m, n), closed)
  {
    hide BuyOnChain, SellOnChain, Booked;
    var v := Move(w, m, n);
    ExitListed(w, closed);
    assert forall k :: Balance(v.wallet, k) == Balance(w.wallet, k) + (if k == m then n else 0);
    SightFrame(w, v, closed);
    BuyFrame(w, v, closed);
    SellFrame(w, v, closed);
    WalletFrame(w, v, closed);
  }

  lemma KeepsBuyMoves(w: World, n: nat, closed: bool)
    requires Inv(w, closed) && Enabled(w, BuyMoves(n), closed)
    ensures Inv(Apply(w, BuyMoves(n)), closed)
  {
    hide Inv;
    Arrives(w, w.opening.value.mint, n, closed);
  }

  /** What any end of a buy must provide for the invariant to carry over. */
  ghost predicate BooksBuy(w: World, s: Settlement, gained: bool, closed: bool)
    requires w.opening.Some?
  {
    var m := w.opening.value.mint;
    && WellFormed(s.book)
    && (m in s.book.lots <==> gained)
    && (forall k :: k != m ==> Raw(s.book, k) == Raw(w.book, k) && (k in s.book.lots <==> k in w.book.lots))
    && OpenMints(LandBuy(w, s, gained).log) == (if gained then OpenMints(w.log) + {m} else OpenMints(w.log))
    && (!w.paper ==> Matches(Raw(s.book, m), Balance(w.wallet, m), closed))
  }

  lemma LandedBuySeparate(w: World, s: Settlement, gained: bool, closed: bool)
    requires Inv(w, closed) && w.opening.Some? && BooksBuy(w, s, gained, closed)
    ensures See(LandBuy(w, s, gained)).Separate() && See(LandBuy(w, s, gained)).Recoverable(closed)
  {
    hide Chained, OpenMints;
    var v, m := LandBuy(w, s, gained), w.opening.value.mint;
    assert forall k :: k in v.positions ==> k in w.positions || k == m;
    assert forall k :: k in w.positions ==> k in v.positions;
  }

  lemma LandedBuyOnChain(w: World, s: Settlement, gained: bool, closed: bool)
    requires Inv(w, closed) && w.opening.Some? && BooksBuy(w, s, gained, closed)
    ensures SellOnChain(LandBuy(w, s, gained), closed) && OnChain(LandBuy(w, s, gained), closed)
  {
    var v, m := LandBuy(w, s, gained), w.opening.value.mint;
    assert w.exiting.Some? ==> w.exiting.value.mint != m;
    forall k | !w.paper && !InFlight(v, k)
      ensures Matches(Raw(v.book, k), Balance(v.wallet, k), closed && !Lost(v, k))
    {
      if k != m {
        assert !InFlight(w, k);
      }
    }
  }

  lemma LandedBuy(w: World, s: Settlement, gained: bool, closed: bool)
    requires Inv(w, closed) && w.opening.Some? && BooksBuy(w, s, gained, closed)
    ensures Inv(LandBuy(w, s, gained), closed)
  {
    LandedBuySeparate(w, s, gained, closed);
    LandedBuyOnChain(w, s, gained, closed);
  }

  /** What the invariant says of an order on its way and its mint. */
  lemma BuyFacts(w: World, closed: bool)
    requires Inv(w, closed) && BuySent(w)
    ensures var o := w.opening.value;
            && o.mint != "" && WellFormed(w.book) && o.mint !in w.book.lots && o.mint !in OpenMints(w.log)
            && 0 <= o.order.value.before <= Balance(w.wallet, o.mint) && (closed ==> o.order.value.before == 0)
  {
  }

  lemma SettledBuyBooks(w: World, s: Settlement, filled: int, q: Order, closed: bool)
    requires w.opening.Some? && w.opening.value.mint != "" && WellFormed(w.book) && w.opening.value.mint !in w.book.lots
    requires s == SettleBuy(w.book, w.opening.value.mint, filled, q.expected, q.decimals, w.opening.value.usd)
    requires Matches(MaxInt(0, filled), Balance(w.wallet, w.opening.value.mint), closed)
    ensures BooksBuy(w, s, filled > 0, closed)
  {
    SettleBuyBooks(w.book, w.opening.value.mint, filled, q.expected, q.decimals, w.opening.value.usd);
    hide OpenMints;
    LogsOfBuy(w, s, filled);
  }

  lemma SettledBuy(w: World, closed: bool) returns (s: Settlement, gained: bool)
    requires Inv(w, closed) && Enabled(w, BuyLands, closed)
    ensures BooksBuy(w, s, gained, closed)
    ensures Apply(w, BuyLands) == LandBuy(w, s, gained)
  {
    hide Inv, SettleBuy, LandBuy, BooksBuy, OpenMints;
    BuyFacts(w, closed);
    var o := w.opening.value;
    var q := o.order.value;
    var filled := Balance(w.wallet, o.mint) - q.before;
    s, gained := SettleBuy(w.book, o.mint, filled, q.expected, q.decimals, o.usd), filled > 0;
    SettledBuyBooks(w, s, filled, q, closed);
  }

  lemma KeepsBuyLands(w: World, closed: bool)
    requires Inv(w, closed) && Enabled(w, BuyLands, closed)
    ensures Inv(Apply(w, BuyLands), closed)
  {
    var s, gained := SettledBuy(w, closed);
    LandedBuy(w, s, gained, closed);
  }

  /** A buy leaves the mint open in the log exactly when tokens landed. */
  lemma LogsOfBuy(w: World, s: Settlement, filled: int)
    requires w.opening.Some? && w.opening.value.mint != ""
    requires s.filled ==> s.logged.None? && filled > 0
    requires !s.filled ==> s.logged == Some(StrandedOf(w.opening.value.mint, MaxInt(0, filled)))
    ensures OpenMints(LandBuy(w, s, filled > 0).log)
            == if filled > 0 then OpenMints(w.log) + {w.opening.value.mint} else OpenMints(w.log)
  {
    hide OpenMints, BuyOf, StrandedOf;
    if s.filled {
      BuyOpens(w.log, w.opening.value.mint, w.opening.value.usd);
    } else {
      StrandedOpens(w.log, w.opening.value.mint, MaxInt(0, filled));
    }
  }

  lemma PaperBuy(w: World, out: int, decimals: nat, price: real, closed: bool) returns (s: Settlement)
    requires Inv(w, closed) && Enabled(w, PaperBuyLands(out, decimals, price), closed)
    ensures BooksBuy(w, s, true, closed)
    ensures Apply(w, PaperBuyLands(out, decimals, price)) == LandBuy(w, s, true)
  {
    var o := w.opening.value;
    assert o.mint !in w.book.lots;
    s := Settlement(Credit(w.book, o.mint, out, decimals, price, o.usd), None, true);
    LogsOfBuy(w, s, out);
  }

  lemma KeepsPaperBuyLands(w: World, out: int, decimals: nat, price: real, closed: bool)
    requires Inv(w, closed) && Enabled(w, PaperBuyLands(out, decimals, price), closed)
    ensures Inv(Apply(w, PaperBuyLands(out, decimals, price)), closed)
  {
    var s := PaperBuy(w, out, decimals, price, closed);
    LandedBuy(w, s, true, closed);
  }

  lemma KeepsOpenFails(w: World, closed: bool)
    requires Inv(w, closed) && Enabled(w, OpenFails, closed)
    ensures Inv(Apply(w, OpenFails), closed)
  {
    assert w.opening.value.mint !in w.book.lots;
  }

  lemma KeepsExitBegins(w: World, m: Mint, closing: bool, fraction: real, closed: bool)
    requires Inv(w, closed) && Enabled(w, ExitBegins(m, closing, fraction), closed)
    ensures Inv(Apply(w, ExitBegins(m, closing, fraction)), closed)
  {
    hide OpenMints, WellFormed;
  }

  lemma KeepsExitSizes(w: World, closed: bool)
    requires Inv(w, closed) && Enabled(w, ExitSizes, closed)
    ensures Inv(Apply(w, ExitSizes), closed)
  {
    hide OpenMints, WellFormed;
    var x := w.exiting.value;
    FractionBounds(SellableBalance(w, x.mint), x.fraction);
    assert !InFlight(w, x.mint);
  }

  lemma KeepsSellSubmits(w: World, closed: bool)
    requires Inv(w, closed) && Enabled(w, SellSubmits, closed)
    ensures Inv(Apply(w, SellSubmits), closed)
  {
    assert !InFlight(w, w.exiting.value.mint);
  }

  lemma SellMovesOnChain(w: World, n: nat, closed: bool)
    requires SellOnChain(w, closed) && SellSent(w) && n <= w.exiting.value.stage.left
    requires n <= Balance(w.wallet, w.exiting.value.mint)
    ensures SellOnChain(SellMoved(w, n), closed)
  {
  }

  lemma KeepsSellMoves(w: World, n: nat, closed: bool)
    requires Inv(w, closed) && Enabled(w, SellMoves(n), closed)
    ensures Inv(Apply(w, SellMoves(n)), closed)
  {
    hide BuyOnChain, SellOnChain, Booked;
    var v, m := SellMoved(w, n), w.exiting.value.mint;
    ExitListed(w, closed);
    assert forall k :: Balance(v.wallet, k) == Balance(w.wallet, k) - (if k == m then n else 0);
    SightFrame(w, v, closed);
    BuyFrame(w, v, closed);
    SellMovesOnChain(w, n, closed);
    WalletFrame(w, v, closed);
  }

  /** A sell that ends closes the mint in the log exactly when it was a filled close; a shortfall
      leaves it open there. */
  lemma LogsOfSell(w: World, s: Settlement, pnl: real, entries: nat, sold: int)
    requires w.exiting.Some? && w.exiting.value.mint != ""
    requires s.filled ==> s.logged.None?
    requires !s.filled ==> s.logged == Some(StrandedOf(w.exiting.value.mint, MaxInt(0, sold)))
    ensures var m := w.exiting.value.mint;
            OpenMints(LandSell(w, s, pnl, entries).log) ==
            if s.filled then (if w.exiting.value.closing then OpenMints(w.log) - {m} else OpenMints(w.log))
            else if sold > 0 then OpenMints(w.log) + {m} else OpenMints(w.log)
  {
    hide OpenMints, CloseOf, StrandedOf;
    if s.filled {
      CloseCloses(w.log, w.exiting.value.mint, pnl);
    } else {
      StrandedOpens(w.log, w.exiting.value.mint, MaxInt(0, sold));
    }
  }

  /** What any end of a sell must provide for the invariant to carry over. */
  ghost predicate BooksSell(w: World, s: Settlement, pnl: real, entries: nat, closed: bool)
    requires w.exiting.Some?
  {
    var x := w.exiting.value;
    var m := x.mint;
    && WellFormed(s.book)
    && (m in s.book.lots ==> m in w.book.lots)
    && (forall k :: k != m ==> Raw(s.book, k) == Raw(w.book, k) && (k in s.book.lots <==> k in w.book.lots))
    && (forall k :: k != m ==> (k in OpenMints(LandSell(w, s, pnl, entries).log) <==> k in OpenMints(w.log)))
    && (s.filled && x.closing ==> m !in s.book.lots && m !in OpenMints(LandSell(w, s, pnl, entries).log))
    && (!(s.filled && x.closing) ==>
          && (m in OpenMints(w.log) ==> m in OpenMints(LandSell(w, s, pnl, entries).log))
          && (closed ==> (m in s.book.lots <==> m in OpenMints(LandSell(w, s, pnl, entries).log))))
    && (!w.paper ==> Matches(Raw(s.book, m), Balance(w.wallet, m), closed))
  }

  lemma LandedSellRecoverable(w: World, s: Settlement, pnl: real, entries: nat, closed: bool)
    requires Inv(w, closed) && w.exiting.Some? && BooksSell(w, s, pnl, entries, closed)
    ensures See(LandSell(w, s, pnl, entries)).Separate() && See(LandSell(w, s, pnl, entries)).Recoverable(closed)
  {
    hide Chained, OpenMints;
    var v, m := LandSell(w, s, pnl, entries), w.exiting.value.mint;
    assert forall k :: k in v.positions ==> k in w.positions;
    assert forall k :: k != m && k in w.positions ==> k in v.positions;
    if closed {
      assert forall k :: k in v.book.lots <==> k in OpenMints(v.log);
    }
  }

  lemma LandedSellOnChain(w: World, s: Settlement, pnl: real, entries: nat, closed: bool)
    requires Inv(w, closed) && w.exiting.Some? && BooksSell(w, s, pnl, entries, closed)
    ensures OnChain(LandSell(w, s, pnl, entries), closed)
  {
    var v, m := LandSell(w, s, pnl, entries), w.exiting.value.mint;
    forall k | !w.paper && !InFlight(v, k)
      ensures Matches(Raw(v.book, k), Balance(v.wallet, k), closed && !Lost(v, k))
    {
      if k != m {
        assert !InFlight(w, k);
      }
    }
  }

  lemma LandedSell(w: World, s: Settlement, pnl: real, entries: nat, closed: bool)
    requires Inv(w, closed) && w.exiting.Some? && BooksSell(w, s, pnl, entries, closed)
    ensures Inv(LandSell(w, s, pnl, entries), closed)
  {
    LandedSellRecoverable(w, s, pnl, entries, closed);
    LandedSellOnChain(w, s, pnl, entries, closed);
  }

  /** What settling a sell does to its lot and to the chain, before any of it is logged. */
  ghost predicate SoldRaw(w: World, s: Settlement, sold: int, closed: bool)
    requires w.exiting.Some?
  {
    var x := w.exiting.value;
    && (!w.paper ==> Matches(Raw(s.book, x.mint), Balance(w.wallet, x.mint), closed))
    && (x.mint in s.book.lots ==> x.mint in w.book.lots)
    && (s.filled && x.closing ==> x.mint !in s.book.lots)
    && (closed && !(s.filled && x.closing) ==> (x.mint in s.book.lots <==> x.mint in w.book.lots))
    && (closed && sold > 0 ==> x.mint in w.book.lots)
  }

  /** What the invariant says of a submitted sell and its mint. */
  lemma SellFacts(w: World, closed: bool)
    requires Inv(w, closed) && SellSent(w)
    ensures var x := w.exiting.value;
            && x.mint != "" && WellFormed(w.book) && See(w).Recoverable(closed) && SellOnChain(w, closed)
            && Balance(w.wallet, x.mint) >= 0 && x.stage.raw > 0
            && (x.closing ==> Raw(w.book, x.mint) <= x.stage.raw)
            && (x.mint in w.book.lots ==> x.mint in OpenMints(w.log))
  {
  }

  lemma SettledSellRaw(w: World, closed: bool)
    requires WellFormed(w.book) && SellOnChain(w, closed) && SellSent(w) && Balance(w.wallet, w.exiting.value.mint) >= 0
    ensures var x := w.exiting.value;
            var sold := x.stage.before - Balance(w.wallet, x.mint);
            SoldRaw(w, SettleSell(w.book, x.mint, sold, x.stage.raw), sold, closed)
  {
    var x := w.exiting.value;
    SettleSellBooks(w.book, x.mint, x.stage.before - Balance(w.wallet, x.mint), x.stage.raw);
  }

  lemma SettledSellBooks(w: World, s: Settlement, pnl: real, entries: nat, sold: int, expected: int, closed: bool)
    requires w.exiting.Some? && w.exiting.value.mint != "" && WellFormed(w.book) && See(w).Recoverable(closed)
    requires s == SettleSell(w.book, w.exiting.value.mint, sold, expected) && SoldRaw(w, s, sold, closed)
    ensures BooksSell(w, s, pnl, entries, closed)
  {
    SettleSellBooks(w.book, w.exiting.value.mint, sold, expected);
    LogsOfSell(w, s, pnl, entries, sold);
  }

  lemma SettledSell(w: World, pnl: real, entries: nat, closed: bool) returns (s: Settlement)
    requires Inv(w, closed) && Enabled(w, SellLands(pnl, entries), closed)
    ensures BooksSell(w, s, pnl, entries, closed)
    ensures Apply(w, SellLands(pnl, entries)) == LandSell(w, s, pnl, entries)
  {
    hide Inv, SellOnChain, SettleSell, LandSell, BooksSell, SoldRaw, OpenMints;
    SellFacts(w, closed);
    var x := w.exiting.value;
    var sold := x.stage.before - Balance(w.wallet, x.mint);
    SettledSellRaw(w, closed);
    s := SettleSell(w.book, x.mint, sold, x.stage.raw);
    SettledSellBooks(w, s, pnl, entries, sold, x.stage.raw, closed);
  }

  lemma KeepsSellLands(w: World, pnl: real, entries: nat, closed: bool)
    requires Inv(w, closed) && Enabled(w, SellLands(pnl, entries), closed)
    ensures Inv(Apply(w, SellLands(pnl, entries)), closed)
  {
    var s := SettledSell(w, pnl, entries, closed);
    LandedSell(w, s, pnl, entries, closed);
  }

  lemma PaperSell(w: World, pnl: real, entries: nat, closed: bool) returns (s: Settlement)
    requires Inv(w, closed) && Enabled(w, PaperSellLands(pnl, entries), closed)
    ensures BooksSell(w, s, pnl, entries, closed)
    ensures Apply(w, PaperSellLands(pnl, entries)) == LandSell(w, s, pnl, entries)
  {
    var x := w.exiting.value;
    s := Settlement(Debit(w.book, x.mint, x.stage.raw), None, true);
    LogsOfSell(w, s, pnl, entries, x.stage.raw);
    assert SettleSell(w.book, x.mint, x.stage.raw, x.stage.raw) == s;
    SettleSellBooks(w.book, x.mint, x.stage.raw, x.stage.raw);
  }

  lemma KeepsPaperSellLands(w: World, pnl: real, entries: nat, closed: bool)
    requires Inv(w, closed) && Enabled(w, PaperSellLands(pnl, entries), closed)
    ensures Inv(Apply(w, PaperSellLands(pnl, entries)), closed)
  {
    var s := PaperSell(w, pnl, entries, closed);
    LandedSell(w, s, pnl, entries, closed);
  }

  lemma KeepsLogs(w: World, r: Record, closed: bool)
    requires Inv(w, closed) && Enabled(w, Logs(r), closed)
    ensures Inv(Apply(w, Logs(r)), closed)
  {
    hide BuyOnChain, SellOnChain, OnChain, OpenMints;
    var v := w.(log := w.log + [r]);
    IdleOpensNothing(w.log, r);
    NonNegative(w, closed);
    SightFrame(w, v, closed);
    BuyFrame(w, v, closed);
    SellFrame(w, v, closed);
    WalletFrame(w, v, closed);
  }

  lemma KeepsDeposits(w: World, m: Mint, n: nat, closed: bool)
    requires Inv(w, closed) && Enabled(w, Deposits(m, n), closed)
    ensures Inv(Apply(w, Deposits(m, n)), closed)
  {
    hide Inv;
    Arrives(w, m, n, closed);
  }

  lemma KeepsExitFails(w: World, closed: bool)
    requires Inv(w, closed) && Enabled(w, ExitFails, closed)
    ensures Inv(Apply(w, ExitFails), closed)
  {
    hide OpenMints;
    var v := Apply(w, ExitFails);
    assert forall k :: InFlight(w, k) && !InFlight(v, k) ==> k == w.exiting.value.mint;
  }

  lemma KeepsRefreshReads(w: World, closed: bool)
    requires Inv(w, closed) && Enabled(w, RefreshReads, closed)
    ensures Inv(Apply(w, RefreshReads), closed)
  {
    hide OpenMints;
  }

  lemma KeepsRefreshMerges(w: World, after: multiset<Mint>, closed: bool)
    requires Inv(w, closed) && Enabled(w, RefreshMerges(after), closed)
    ensures Inv(Apply(w, RefreshMerges(after)), closed)
  {
  }

  lemma KeepsTightens(w: World, m: Mint, price: real, closed: bool)
    requires Inv(w, closed) && Enabled(w, Tightens(m, price), closed)
    ensures Inv(Apply(w, Tightens(m, price)), closed)
  {
    hide BuyOnChain, SellOnChain, OnChain;
    var v := w.(book := w.book.(stops := w.book.stops[m := price]));
    NonNegative(w, closed);
    SightFrame(w, v, closed);
    BuyFrame(w, v, closed);
    SellFrame(w, v, closed);
    WalletFrame(w, v, closed);
  }

  lemma Keeps(w: World, s: Step, closed: bool)
    requires Inv(w, closed) && Enabled(w, s, closed)
    ensures Inv(Apply(w, s), closed)
  {
    hide Inv, Apply, Enabled;
    match s
    case OpenBegins(m, usd) => KeepsOpenBegins(w, m, usd, closed);
    case BuySubmits(expected, decimals) => KeepsBuySubmits(w, expected, decimals, closed);
    case BuyMoves(n) => KeepsBuyMoves(w, n, closed);
    case BuyLands => KeepsBuyLands(w, closed);
    case PaperBuyLands(out, decimals, price) => KeepsPaperBuyLands(w, out, decimals, price, closed);
    case OpenFails => KeepsOpenFails(w, closed);
    case ExitBegins(m, closing, fraction) => KeepsExitBegins(w, m, closing, fraction, closed);
    case ExitSizes => KeepsExitSizes(w, closed);
    case SellSubmits => KeepsSellSubmits(w, closed);
    case SellMoves(n) => KeepsSellMoves(w, n, closed);
    case SellLands(pnl, entries) => KeepsSellLands(w, pnl, entries, closed);
    case PaperSellLands(pnl, entries) => KeepsPaperSellLands(w, pnl, entries, closed);
    case Logs(r) => KeepsLogs(w, r, closed);
    case Deposits(m, n) => KeepsDeposits(w, m, n, closed);
    case ExitFails => KeepsExitFails(w, closed);
    case RefreshReads => KeepsRefreshReads(w, closed);
    case RefreshMerges(after) => KeepsRefreshMerges(w, after, closed);
    case Tightens(m, price) => KeepsTightens(w, m, price, closed);
  }

  // -- whole runs -----------------------------------------------------------------------------------

  lemma {:induction false} RunKeeps(w: World, steps: seq<Step>, closed: bool)
    requires Inv(w, closed) && Legal(w, steps, closed)
    ensures Inv(Run(w, steps), closed)
  {
    if steps != [] {
      var init := steps[..|steps| - 1];
      forall i | 0 <= i < |init| ensures Enabled(Run(w, init[..i]), init[i], closed) {
        assert init[..i] == steps[..i];
      }
      RunKeeps(w, init, closed);
      Keeps(Run(w, init), steps[|steps| - 1], closed);
    }
  }

  /** Crash recovery. On every run from a fresh executor and an empty log, at every await point, the
      mints a restarted executor reads back from the log are exactly the mints held when it stopped,
      and each of them has a position on the desk. In live mode this takes a wallet that nobody else feeds
      a mint still to be opened or on the desk. */
  lemma CrashRecovery(paper: bool, wallet: map<Mint, int>, steps: seq<Step>)
    requires forall m :: m in wallet ==> (if paper then wallet[m] >= 0 else wallet[m] == 0)
    requires Legal(Start(paper, wallet), steps, true)
    ensures var w := Run(Start(paper, wallet), steps);
            && w.book.lots.Keys == w.book.openedMints
            && (forall m :: m in w.book.lots <==> StillOpen(w.log, m))
            && Visible(Start(paper, wallet).(log := w.log)) == w.book.lots.Keys
            && (forall m :: m in w.book.lots ==> m in w.positions)
  {
    StartInv(paper, wallet, true);
    RunKeeps(Start(paper, wallet), steps, true);
    var w := Run(Start(paper, wallet), steps);
    forall m ensures m in w.book.lots <==> StillOpen(w.log, m) {
      OpenMintsIsStillOpen(w.log, m);
    }
  }

  /** With outside deposits and late fills the log may still list mints whose lot is gone, but no held
      mint is ever missing from the log or from the desk. */
  lemma CrashRecoveryWithDeposits(paper: bool, wallet: map<Mint, int>, steps: seq<Step>)
    requires forall m :: m in wallet ==> wallet[m] >= 0
    requires Legal(Start(paper, wallet), steps, false)
    ensures var w := Run(Start(paper, wallet), steps);
            && w.book.lots.Keys == w.book.openedMints
            && (forall m :: m in w.book.lots ==> StillOpen(w.log, m) && m in w.positions)
  {
    StartInv(paper, wallet, false);
    RunKeeps(Start(paper, wallet), steps, false);
    var w := Run(Start(paper, wallet), steps);
    forall m | m in w.book.lots ensures StillOpen(w.log, m) {
      OpenMintsIsStillOpen(w.log, m);
    }
  }

  /** Exactly when that happens to a held mint: the sell takes the whole lot, and it is either a
      trim or a close that still falls short of the balance it was sized on, so that no close is logged. */
  lemma LogOutlivesLot(w: World, pnl: real, entries: nat)
    requires Inv(w, false) && SellSent(w) && w.exiting.value.mint in w.book.lots
    ensures var x, v := w.exiting.value, Apply(w, SellLands(pnl, entries));
            var sold := x.stage.before - Balance(w.wallet, x.mint);
            (x.mint !in v.book.lots && StillOpen(v.log, x.mint)) <==>
              Raw(w.book, x.mint) <= sold && (sold < x.stage.raw || !x.closing)
  {
    hide Inv, SellOnChain, SettleSell, OpenMints;
    SellFacts(w, false);
    var x, v := w.exiting.value, SellLanded(w, pnl, entries);
    var sold := x.stage.before - Balance(w.wallet, x.mint);
    SoldMint(w, SettleSell(w.book, x.mint, sold, x.stage.raw), pnl, entries, sold, x.stage.raw);
    OpenMintsIsStillOpen(v.log, x.mint);
  }

  /** The steps after which the log lists a mint the book does not hold: a sell that takes the whole lot
      without a close being logged, or a shortfall on a mint that had no lot. */
  predicate Breaks(w: World, s: Step) {
    match s
    case SellLands(_, _) =>
      SellSent(w) &&
      (var x := w.exiting.value;
       var sold := x.stage.before - Balance(w.wallet, x.mint);
       if x.mint in w.book.lots then Raw(w.book, x.mint) <= sold && (sold < x.stage.raw || !x.closing)
       else 0 < sold < x.stage.raw)
    case PaperSellLands(_, _) =>
      w.exiting.Some? && w.exiting.value.stage.Sized?
      && (var x := w.exiting.value;
          x.mint in w.book.lots && Raw(w.book, x.mint) <= x.stage.raw && !x.closing)
    case _ => false
  }

  predicate Agree(w: World) {
    w.book.lots.Keys == OpenMints(w.log)
  }

  lemma BuyAgrees(w: World, s: Step)
    requires Inv(w, false) && Agree(w) && Enabled(w, s, false) && (s.BuyLands? || s.PaperBuyLands?)
    ensures Agree(Apply(w, s))
  {
    var t: Settlement, gained: bool;
    if s.BuyLands? {
      t, gained := SettledBuy(w, false);
    } else {
      t := PaperBuy(w, s.out, s.decimals, s.price, false);
      gained := true;
    }
    forall k ensures k in t.book.lots <==> k in OpenMints(LandBuy(w, t, gained).log) {
      assert k == w.opening.value.mint || (k in t.book.lots <==> k in w.book.lots);
    }
  }

  /** Lot and log of the mint after a sell. */
  lemma SoldMint(w: World, t: Settlement, pnl: real, entries: nat, sold: int, expected: int)
    requires w.exiting.Some? && w.exiting.value.mint != "" && WellFormed(w.book)
    requires t == SettleSell(w.book, w.exiting.value.mint, sold, expected) && expected > 0
    ensures var x, m := w.exiting.value, w.exiting.value.mint;
            && (m in t.book.lots <==> m in w.book.lots && sold < Raw(w.book, m))
            && (m in OpenMints(LandSell(w, t, pnl, entries).log) <==>
                  if sold >= expected then m in OpenMints(w.log) && !x.closing else m in OpenMints(w.log) || sold > 0)
  {
    SettleSellBooks(w.book, w.exiting.value.mint, sold, expected);
    LogsOfSell(w, t, pnl, entries, sold);
  }

  lemma OtherMints(w: World, t: Settlement, pnl: real, entries: nat, sold: int, expected: int)
    requires w.exiting.Some? && w.exiting.value.mint != "" && WellFormed(w.book) && Agree(w)
    requires t == SettleSell(w.book, w.exiting.value.mint, sold, expected)
    ensures forall k :: k != w.exiting.value.mint ==>
              (k in t.book.lots <==> k in OpenMints(LandSell(w, t, pnl, entries).log))
  {
    SettleSellBooks(w.book, w.exiting.value.mint, sold, expected);
    LogsOfSell(w, t, pnl, entries, sold);
  }

  lemma SellAgrees(w: World, t: Settlement, pnl: real, entries: nat, sold: int, expected: int)
    requires w.exiting.Some? && w.exiting.value.mint != "" && WellFormed(w.book) && Agree(w)
    requires t == SettleSell(w.book, w.exiting.value.mint, sold, expected)
    requires expected > 0 && (w.exiting.value.closing ==> Raw(w.book, w.exiting.value.mint) <= expected)
    ensures var x, m := w.exiting.value, w.exiting.value.mint;
            Agree(LandSell(w, t, pnl, entries)) <==>
              !(if m in w.book.lots then Raw(w.book, m) <= sold && (sold < expected || !x.closing)
                else 0 < sold < expected)
  {
    hide SettleSell, WellFormed, OpenMints, Append;
    var v, m := LandSell(w, t, pnl, entries), w.exiting.value.mint;
    SoldMint(w, t, pnl, entries, sold, expected);
    OtherMints(w, t, pnl, entries, sold, expected);
    assert v.book == t.book;
    assert Agree(v) <==> (m in t.book.lots <==> m in OpenMints(v.log));
  }

  lemma SellLandsAgrees(w: World, pnl: real, entries: nat)
    requires Inv(w, false) && Agree(w) && Enabled(w, SellLands(pnl, entries), false)
    ensures Agree(Apply(w, SellLands(pnl, entries))) <==> !Breaks(w, SellLands(pnl, entries))
  {
    hide Inv, SellOnChain, LandSell, SettleSell, Agree, OpenMints;
    SellFacts(w, false);
    var x := w.exiting.value;
    var sold := x.stage.before - Balance(w.wallet, x.mint);
    SellAgrees(w, SettleSell(w.book, x.mint, sold, x.stage.raw), pnl, entries, sold, x.stage.raw);
  }

  lemma PaperSellLandsAgrees(w: World, pnl: real, entries: nat)
    requires Inv(w, false) && Agree(w) && Enabled(w, PaperSellLands(pnl, entries), false)
    ensures Agree(Apply(w, PaperSellLands(pnl, entries))) <==> !Breaks(w, PaperSellLands(pnl, entries))
  {
    var x := w.exiting.value;
    SellAgrees(w, SettleSell(w.book, x.mint, x.stage.raw, x.stage.raw), pnl, entries, x.stage.raw, x.stage.raw);
  }

  lemma OthersAgree(w: World, s: Step)
    requires Agree(w) && Enabled(w, s, false)
    requires !s.BuyLands? && !s.PaperBuyLands? && !s.SellLands? && !s.PaperSellLands?
    ensures Agree(Apply(w, s))
  {
    hide OpenMints;
    if s.Logs? {
      IdleOpensNothing(w.log, s.record);
    }
  }

  /** One step, both ways: from a book and log that agree, they still agree unless the step breaks them. */
  lemma StepAgreesIff(w: World, s: Step)
    requires Inv(w, false) && Agree(w) && Enabled(w, s, false)
    ensures Agree(Apply(w, s)) <==> !Breaks(w, s)
  {
    hide Inv, Apply, Agree, Enabled;
    match s
    case BuyLands => BuyAgrees(w, s);
    case PaperBuyLands(_, _, _) => BuyAgrees(w, s);
    case SellLands(pnl, entries) => SellLandsAgrees(w, pnl, entries);
    case PaperSellLands(pnl, entries) => PaperSellLandsAgrees(w, pnl, entries);
    case _ => OthersAgree(w, s);
  }

  /** Book and log agree after every prefix of the run. */
  predicate AgreesThroughout(w: World, steps: seq<Step>) {
    Agree(Run(w, steps)) && (steps != [] ==> AgreesThroughout(w, steps[..|steps| - 1]))
  }

  predicate BreaksNowhere(w: World, steps: seq<Step>) {
    steps != [] ==>
      BreaksNowhere(w, steps[..|steps| - 1]) && !Breaks(Run(w, steps[..|steps| - 1]), steps[|steps| - 1])
  }

  /** Whole runs, deposits and late fills included: what the log leaves open is what the book holds at every
      await exactly when no step of the run breaks it. */
  lemma {:induction false} RunAgreesIff(w: World, steps: seq<Step>)
    requires Inv(w, false) && Agree(w) && Legal(w, steps, false)
    ensures AgreesThroughout(w, steps) <==> BreaksNowhere(w, steps)
  {
    if steps != [] {
      var init, last := steps[..|steps| - 1], steps[|steps| - 1];
      LegalPrefix(w, steps, false);
      RunAgreesIff(w, init);
      if AgreesThroughout(w, init) {
        RunKeeps(w, init, false);
        StepAgreesIff(Run(w, init), last);
      }
    }
  }

  lemma LegalPrefix(w: World, steps: seq<Step>, closed: bool)
    requires steps != [] && Legal(w, steps, closed)
    ensures Legal(w, steps[..|steps| - 1], closed)
    ensures Enabled(Run(w, steps[..|steps| - 1]), steps[|steps| - 1], closed)
  {
    var init := steps[..|steps| - 1];
    forall i | 0 <= i < |init| ensures Enabled(Run(w, init[..i]), init[i], closed) {
      assert init[..i] == steps[..i];
    }
  }

  /** Crash recovery in an open world. From a fresh executor and an empty log, on any wallet, the mints a
      restarted executor reads back are the mints held, at every await, exactly on the runs that break it
      nowhere. */
  lemma OpenCrashRecoveryIff(paper: bool, wallet: map<Mint, int>, steps: seq<Step>)
    requires forall m :: m in wallet ==> wallet[m] >= 0
    requires Legal(Start(paper, wallet), steps, false)
    ensures AgreesThroughout(Start(paper, wallet), steps) <==> BreaksNowhere(Start(paper, wallet), steps)
  {
    StartInv(paper, wallet, false);
    RunAgreesIff(Start(paper, wallet), steps);
  }

  // -- runs that reach these cases ---------------------------------------------------------------------

  lemma LegalGrows(w: World, steps: seq<Step>, s: Step, closed: bool)
    requires Legal(w, steps, closed) && Enabled(Run(w, steps), s, closed)
    ensures Legal(w, steps + [s], closed) && Run(w, steps + [s]) == Apply(Run(w, steps), s)
  {
    var longer := steps + [s];
    assert longer[..|steps|] == steps;
    forall i | 0 <= i < |longer| ensures Enabled(Run(w, longer[..i]), longer[i], closed) {
      if i < |steps| {
        assert longer[..i] == steps[..i];
      }
    }
  }

  const FRESH := Start(false, map[])

  /** Ten units of `m` bought on an empty wallet, nothing else under way. */
  ghost predicate HoldsTen(w: World, m: Mint) {
    && !w.paper && w.opening.None? && w.exiting.None? && w.snapshot.None?
    && m in w.positions && m in w.book.lots && Raw(w.book, m) == 10 && Balance(w.wallet, m) == 10
  }

  /** The order for them has filled and is not booked yet. */
  ghost predicate TenArrived(w: World, m: Mint) {
    && !w.paper && w.opening == Some(Opening(m, 1.0, Some(Order(0, 10, 0))))
    && w.exiting.None? && w.snapshot.None? && Balance(w.wallet, m) == 10
  }

  lemma OrderTen(m: Mint, closed: bool) returns (steps: seq<Step>)
    requires m != ""
    ensures Legal(FRESH, steps, closed) && TenArrived(Run(FRESH, steps), m)
  {
    steps := [];
    LegalGrows(FRESH, steps, OpenBegins(m, 1.0), closed);
    steps := steps + [OpenBegins(m, 1.0)];
    LegalGrows(FRESH, steps, BuySubmits(10, 0), closed);
    steps := steps + [BuySubmits(10, 0)];
    LegalGrows(FRESH, steps, BuyMoves(10), closed);
    steps := steps + [BuyMoves(10)];
  }

  lemma TenLand(w: World, m: Mint)
    requires Inv(w, false) && TenArrived(w, m)
    ensures Enabled(w, BuyLands, false) && HoldsTen(Apply(w, BuyLands), m)
  {
    assert m !in w.book.lots;
    SettleBuyBooks(w.book, m, 10, 10, 0, 1.0);
  }

  lemma BuyTen(m: Mint) returns (steps: seq<Step>)
    requires m != ""
    ensures Legal(FRESH, steps, false) && HoldsTen(Run(FRESH, steps), m)
  {
    var init := OrderTen(m, false);
    StartInv(false, map[], false);
    RunKeeps(FRESH, init, false);
    TenLand(Run(FRESH, init), m);
    LegalGrows(FRESH, init, BuyLands, false);
    steps := init + [BuyLands];
  }

  /** A trim of half, `raw` of it sized, on a wallet of twenty. */
  ghost predicate TrimSized(w: World, m: Mint) {
    && !w.paper && m in w.book.lots && Raw(w.book, m) == 10 && Balance(w.wallet, m) == 20
    && w.exiting == Some(Exiting(m, false, 0.5, Sized(10)))
  }

  lemma SizeTrim(init: seq<Step>, m: Mint) returns (steps: seq<Step>)
    requires Legal(FRESH, init, false) && HoldsTen(Run(FRESH, init), m)
    ensures Legal(FRESH, steps, false) && TrimSized(Run(FRESH, steps), m)
  {
    LegalGrows(FRESH, init, Deposits(m, 10), false);
    steps := init + [Deposits(m, 10)];
    LegalGrows(FRESH, steps, ExitBegins(m, false, 0.5), false);
    steps := steps + [ExitBegins(m, false, 0.5)];
    assert FractionRaw(20, 0.5) == 10;
    LegalGrows(FRESH, steps, ExitSizes, false);
    steps := steps + [ExitSizes];
  }

  /** The trim submitted, and what it was sized at gone from the wallet. */
  ghost predicate SoldHalf(w: World, m: Mint) {
    && !w.paper && m in w.book.lots && Raw(w.book, m) == 10 && Balance(w.wallet, m) == 10
    && w.exiting == Some(Exiting(m, false, 0.5, Submitted(10, 20, 0)))
  }

  lemma TrimHalf(init: seq<Step>, m: Mint) returns (steps: seq<Step>)
    requires Legal(FRESH, init, false) && TrimSized(Run(FRESH, init), m)
    ensures Legal(FRESH, steps, false) && SoldHalf(Run(FRESH, steps), m)
  {
    LegalGrows(FRESH, init, SellSubmits, false);
    steps := init + [SellSubmits];
    LegalGrows(FRESH, steps, SellMoves(10), false);
    steps := steps + [SellMoves(10)];
  }

  /** Buy ten, receive ten from outside, trim half: the trim is sized on the wallet's twenty and takes the
      whole lot, and the log goes on listing the mint. */
  lemma DepositThenTrim(m: Mint) returns (steps: seq<Step>)
    requires m != ""
    ensures Legal(FRESH, steps, false) && !BreaksNowhere(FRESH, steps)
    ensures var w := Run(FRESH, steps);
            m !in w.book.lots && StillOpen(w.log, m) && !Agree(w)
  {
    var init := BuyTen(m);
    init := SizeTrim(init, m);
    init := TrimHalf(init, m);
    var w := Run(FRESH, init);
    StartInv(false, map[], false);
    RunKeeps(FRESH, init, false);
    LegalGrows(FRESH, init, SellLands(0.0, 1), false);
    steps := init + [SellLands(0.0, 1)];
    LogOutlivesLot(w, 0.0, 1);
    OpenMintsIsStillOpen(Run(FRESH, steps).log, m);
    assert steps[..|steps| - 1] == init;
  }

  /** Why lost mints are apart in the agreement below: with nobody else feeding the wallet, ten units that
      arrive for a buy that then fails stay in the wallet, and neither book, log nor desk lists them. */
  lemma FailedBuyStrands(m: Mint) returns (steps: seq<Step>)
    requires m != ""
    ensures Legal(FRESH, steps, true)
    ensures var w := Run(FRESH, steps);
            Lost(w, m) && Balance(w.wallet, m) == 10 && Raw(w.book, m) == 0 && m !in Visible(w)
  {
    var init := OrderTen(m, true);
    StartInv(false, map[], true);
    RunKeeps(FRESH, init, true);
    LegalGrows(FRESH, init, OpenFails, true);
    steps := init + [OpenFails];
  }

  /** Ledger agreement. In live mode, at every await point of every run, each mint with no swap in
      flight has exactly the wallet's balance on the book, or nothing if the desk has lost sight of it; with
      outside deposits, never more than the balance. */
  lemma LedgerAgreement(wallet: map<Mint, int>, steps: seq<Step>, closed: bool, m: Mint)
    requires forall k :: k in wallet ==> (if closed then wallet[k] == 0 else wallet[k] >= 0)
    requires Legal(Start(false, wallet), steps, closed)
    ensures var w := Run(Start(false, wallet), steps);
            !InFlight(w, m) ==>
              && (closed ==> Raw(w.book, m) == if Lost(w, m) then 0 else Balance(w.wallet, m))
              && 0 <= Raw(w.book, m) <= Balance(w.wallet, m)
  {
    StartInv(false, wallet, closed);
    RunBalances(Start(false, wallet), steps, closed, m);
  }

  lemma RunBalances(start: World, steps: seq<Step>, closed: bool, m: Mint)
    requires Inv(start, closed) && !start.paper && Legal(start, steps, closed)
    ensures var w := Run(start, steps);
            !InFlight(w, m) ==>
              && (closed ==> Raw(w.book, m) == if Lost(w, m) then 0 else Balance(w.wallet, m))
              && 0 <= Raw(w.book, m) <= Balance(w.wallet, m)
  {
    hide Inv, Legal;
    RunKeeps(start, steps, closed);
    RunKeepsPaper(start, steps);
    if !InFlight(Run(start, steps), m) {
      InvBalances(Run(start, steps), closed, m);
    }
  }

  lemma InvBalances(w: World, closed: bool, m: Mint)
    requires Inv(w, closed) && !w.paper && !InFlight(w, m)
    ensures closed ==> Raw(w.book, m) == if Lost(w, m) then 0 else Balance(w.wallet, m)
    ensures 0 <= Raw(w.book, m) <= Balance(w.wallet, m)
  {
    assert Matches(Raw(w.book, m), Balance(w.wallet, m), closed && !Lost(w, m));
  }

  lemma {:induction false} RunKeepsPaper(w: World, steps: seq<Step>)
    ensures Run(w, steps).paper == w.paper
  {
    if steps != [] {
      RunKeepsPaper(w, steps[..|steps| - 1]);
    }
  }
}
