/** The crypto executor's book (`_lots`, `_opened`, `_stops` in src/crypto/crypto_executor.py): what
    each fill does to it, and the moving-average cost basis every sequence of fills keeps. */
module Ledger {
  import opened Models
  import opened EventLog

  /** A holding: `raw` token units at an average entry price. */
  datatype Lot = Lot(raw: int, decimals: nat, entryPrice: real, amountUsd: real)

  datatype Book = Book(lots: map<Mint, Lot>, openedMints: set<Mint>, stops: map<Mint, real>)

  const EMPTY := Book(map[], {}, map[])

  function Pow10(n: nat): (p: int)
    ensures p > 0
  {
    if n == 0 then 1 else 10 * Pow10(n - 1)
  }

  function Ui(raw: int, decimals: nat): real {
    if raw <= 0 then 0.0 else raw as real / Pow10(decimals) as real
  }

  function Portion(balance: int, fraction: real): real {
    balance as real * fraction
  }

  /** `fraction` of a balance, rounded down. */
  function FractionRaw(balance: int, fraction: real): int {
    if balance <= 0 || fraction <= 0.0 then 0
    else if fraction >= 1.0 then balance
    else Portion(balance, fraction).Floor
  }

  /** A fraction of a balance is that fraction of it rounded down to a raw unit; it stays within the
      balance, and a proper fraction leaves something. */
  lemma FractionBounds(balance: int, fraction: real)
    ensures 0 <= FractionRaw(balance, fraction)
    ensures FractionRaw(balance, fraction) <= MaxInt(0, balance)
    ensures balance > 0 && fraction < 1.0 ==> FractionRaw(balance, fraction) < balance
    ensures balance > 0 && 0.0 < fraction <= 1.0 ==>
              var raw := FractionRaw(balance, fraction) as real; raw <= balance as real * fraction < raw + 1.0
  {
    if balance > 0 && 0.0 < fraction < 1.0 {
      hide Portion;
      Shrinks(balance, fraction);
      FloorBelow(Portion(balance, fraction), balance);
    }
  }

  lemma FloorBelow(x: real, n: int)
    requires 0.0 < x < n as real
    ensures 0 <= x.Floor < n
  {
    assert x.Floor as real <= x;
  }

  lemma Shrinks(balance: int, fraction: real)
    requires balance > 0 && 0.0 < fraction < 1.0
    ensures 0.0 < Portion(balance, fraction) < balance as real
  {
    assert balance as real * fraction < balance as real * 1.0;
  }

  /** A unit of ten times the worth for each decimal less, down to the raw unit itself. */
  lemma UiScale(raw: int, decimals: nat)
    requires raw >= 0
    ensures Ui(raw, 0) == raw as real && Ui(raw, decimals) == 10.0 * Ui(raw, decimals + 1)
  {
    var p := Pow10(decimals) as real;
    assert Pow10(decimals + 1) as real == 10.0 * p;
    TenfoldQuotient(raw as real, p);
  }

  lemma TenfoldQuotient(x: real, p: real)
    requires p > 0.0
    ensures x / p == 10.0 * (x / (10.0 * p))
  {
    assert x / (10.0 * p) * (10.0 * p) == x;
  }

  lemma UiPositive(raw: int, decimals: nat)
    ensures Ui(raw, decimals) > 0.0 <==> raw > 0
    ensures Ui(raw, decimals) >= 0.0
  {
    if raw > 0 {
      var p := Pow10(decimals) as real;
      assert Ui(raw, decimals) * p == raw as real;
    }
  }

  lemma UiAdds(a: int, b: int, decimals: nat)
    requires a >= 0 && b >= 0
    ensures Ui(a + b, decimals) == Ui(a, decimals) + Ui(b, decimals)
  {
    var p := Pow10(decimals) as real;
    assert (a + b) as real / p == a as real / p + b as real / p;
  }

  // -- the two movements of the book ----------------------------------------------------------

  function Raw(b: Book, m: Mint): int {
    if m in b.lots then b.lots[m].raw else 0
  }

  /** Every lot is positive and is one the desk opened. */
  ghost predicate WellFormed(b: Book) {
    && b.lots.Keys == b.openedMints
    && forall m :: m in b.lots ==> b.lots[m].raw > 0
  }

  /** A lot after one more buy: sums of quantity and cost, and the average they give. */
  function Grown(l: Lot, raw: int, decimals: nat, usd: real): Lot
    requires l.raw + raw > 0
  {
    UiPositive(l.raw + raw, decimals);
    Lot(l.raw + raw, l.decimals, (l.amountUsd + usd) / Ui(l.raw + raw, decimals), l.amountUsd + usd)
  }

  function Credit(b: Book, m: Mint, raw: int, decimals: nat, price: real, usd: real): Book
    requires raw > 0 && Raw(b, m) >= 0
  {
    var lot := if m in b.lots then Grown(b.lots[m], raw, decimals, usd) else Lot(raw, decimals, price, usd);
    b.(lots := b.lots[m := lot], openedMints := b.openedMints + {m})
  }

  /** What a partial sell leaves of a lot: fewer units at the same entry price. */
  function Shrunk(l: Lot, left: int): Lot {
    l.(raw := left, amountUsd := Ui(left, l.decimals) * l.entryPrice)
  }

  function Debit(b: Book, m: Mint, raw: int): Book {
    if m !in b.lots then b.(openedMints := b.openedMints - {m})
    else
      var lot := b.lots[m];
      var left := MaxInt(0, lot.raw - raw);
      if left <= 0 then Book(b.lots - {m}, b.openedMints - {m}, b.stops - {m})
      else b.(lots := b.lots[m := Shrunk(lot, left)])
  }

  // -- after a confirmed swap ------------------------------------------------------------------

  /** How a confirmed swap ended once both balances were read: the book, what was logged, and
      whether the caller is told of a fill. A shortfall is logged and raised, never a success. */
  datatype Settlement = Settlement(book: Book, logged: Option<Record>, filled: bool)

  function SettleBuy(b: Book, m: Mint, filled: int, expected: int, decimals: nat, usd: real): Settlement
    requires Raw(b, m) >= 0
  {
    if filled <= 0 then Settlement(b, Some(StrandedOf(m, 0)), false)
    else
      UiPositive(filled, decimals);
      var book := Credit(b, m, filled, decimals, usd / Ui(filled, decimals), usd);
      if filled >= expected then Settlement(book, None, true)
      else Settlement(book, Some(StrandedOf(m, filled)), false)
  }

  function SettleSell(b: Book, m: Mint, sold: int, expected: int): Settlement {
    if sold <= 0 then Settlement(b, Some(StrandedOf(m, 0)), false)
    else
      var book := Debit(b, m, sold);
      if sold >= expected then Settlement(book, None, true)
      else Settlement(book, Some(StrandedOf(m, sold)), false)
  }

  /** Every path, the raising ones included, books exactly what landed. */
  lemma SettleBuyBooks(b: Book, m: Mint, filled: int, expected: int, decimals: nat, usd: real)
    requires WellFormed(b)
    ensures var s := SettleBuy(b, m, filled, expected, decimals, usd);
            && WellFormed(s.book) && s.book.stops == b.stops
            && Raw(s.book, m) == Raw(b, m) + MaxInt(0, filled)
            && (forall k :: k != m ==> Raw(s.book, k) == Raw(b, k) && (k in s.book.lots <==> k in b.lots))
            && (m in s.book.lots <==> m in b.lots || filled > 0)
            && (s.filled <==> filled > 0 && filled >= expected)
            && (s.logged.None? <==> s.filled)
  {
  }

  lemma SettleSellBooks(b: Book, m: Mint, sold: int, expected: int)
    requires WellFormed(b)
    ensures var s := SettleSell(b, m, sold, expected);
            && WellFormed(s.book)
            && Raw(s.book, m) == MaxInt(0, Raw(b, m) - MaxInt(0, sold))
            && (forall k :: k != m ==> Raw(s.book, k) == Raw(b, k) && (k in s.book.lots <==> k in b.lots))
            && (m in s.book.lots <==> Raw(s.book, m) > 0)
            && (m in b.lots && m !in s.book.lots ==> m !in s.book.stops)
            && (s.filled <==> sold > 0 && sold >= expected)
            && (s.logged.None? <==> s.filled)
  {
  }

  // -- runs of live fills -----------------------------------------------------------------------

  /** A settled live swap on any mint: `moved` is the observed balance change in its direction. */
  datatype Fill = Bought(mint: Mint, moved: int, expected: int, usd: real) | Sold(mint: Mint, moved: int, expected: int)

  function Settle(b: Book, f: Fill, decimals: Mint -> nat): Book
    requires WellFormed(b)
  {
    match f
    case Bought(m, moved, expected, usd) => SettleBuy(b, m, moved, expected, decimals(m), usd).book
    case Sold(m, moved, expected) => SettleSell(b, m, moved, expected).book
  }

  function Settled(fs: seq<Fill>, decimals: Mint -> nat): (b: Book)
    ensures WellFormed(b)
  {
    if fs == [] then EMPTY
    else
      var before := Settled(fs[..|fs| - 1], decimals);
      var f := fs[|fs| - 1];
      if f.Bought? then
        SettleBuyBooks(before, f.mint, f.moved, f.expected, decimals(f.mint), f.usd);
        Settle(before, f, decimals)
      else
        SettleSellBooks(before, f.mint, f.moved, f.expected);
        Settle(before, f, decimals)
  }

  /** The prices paid for `m` since its lot was last opened from nothing. */
  function PricesSinceOpened(fs: seq<Fill>, decimals: Mint -> nat, m: Mint): seq<real> {
    if m !in Settled(fs, decimals).lots then []
    else if fs == [] then []
    else
      var before, f := PricesSinceOpened(fs[..|fs| - 1], decimals, m), fs[|fs| - 1];
      if f.Bought? && f.mint == m && f.moved > 0 then
        UiPositive(f.moved, decimals(m));
        before + [f.usd / Ui(f.moved, decimals(m))]
      else before
  }

  ghost predicate Between(x: real, ps: seq<real>) {
    exists i, j :: 0 <= i < |ps| && 0 <= j < |ps| && ps[i] <= x <= ps[j]
  }

  /** The lot is worth its entry price, in its own decimals. */
  ghost predicate CostBasis(l: Lot, decimals: nat) {
    l.decimals == decimals && l.raw > 0 && l.amountUsd == Ui(l.raw, decimals) * l.entryPrice
  }

  lemma AverageBetween(a: real, x: real, b: real, y: real, e: real)
    requires a > 0.0 && b > 0.0 && (a + b) * e == a * x + b * y
    ensures x <= e <= y || y <= e <= x
  {
    assert a * (e - x) == b * (y - e);
    SignOfProduct(a, e - x);
    SignOfProduct(b, y - e);
  }

  lemma SignOfProduct(b: real, d: real)
    requires b > 0.0
    ensures b * d < 0.0 <==> d < 0.0
    ensures b * d > 0.0 <==> d > 0.0
  {
  }

  /** One buy on a lot that already has a cost basis: a new weighted average between the two prices. */
  lemma GrownAverages(l: Lot, raw: int, decimals: nat, usd: real)
    requires CostBasis(l, decimals) && raw > 0
    ensures Ui(raw, decimals) > 0.0
    ensures CostBasis(Grown(l, raw, decimals, usd), decimals)
    ensures var e, price := Grown(l, raw, decimals, usd).entryPrice, usd / Ui(raw, decimals);
            l.entryPrice <= e <= price || price <= e <= l.entryPrice
  {
    UiPositive(raw, decimals);
    UiPositive(l.raw, decimals);
    UiPositive(l.raw + raw, decimals);
    UiAdds(l.raw, raw, decimals);
    var a, b, y := Ui(l.raw, decimals), Ui(raw, decimals), usd / Ui(raw, decimals);
    QuotientTimes(usd, b);
    QuotientTimes(l.amountUsd + usd, a + b);
    AverageBetween(a, l.entryPrice, b, y, Grown(l, raw, decimals, usd).entryPrice);
  }

  /** Moving-average cost basis, over every sequence of full, partial and empty live fills: each lot
      costs its quantity times its entry price, and the entry price lies between the lowest and the
      highest price paid since the lot was opened. */
  lemma {:induction false} MovingAverage(fs: seq<Fill>, decimals: Mint -> nat, m: Mint)
    requires m in Settled(fs, decimals).lots
    ensures CostBasis(Settled(fs, decimals).lots[m], decimals(m))
    ensures Between(Settled(fs, decimals).lots[m].entryPrice, PricesSinceOpened(fs, decimals, m))
  {
    assert fs != [];
    var init, f := fs[..|fs| - 1], fs[|fs| - 1];
    var before, after := Settled(init, decimals), Settled(fs, decimals);
    var ps, d := PricesSinceOpened(init, decimals, m), decimals(m);
    if m in before.lots {
      MovingAverage(init, decimals, m);
    }
    if f.Bought? && f.mint == m && f.moved > 0 {
      UiPositive(f.moved, d);
      var price := f.usd / Ui(f.moved, d);
      assert PricesSinceOpened(fs, decimals, m) == ps + [price];
      if m in before.lots {
        assert after.lots[m] == Grown(before.lots[m], f.moved, d, f.usd);
        GrownAverages(before.lots[m], f.moved, d, f.usd);
        BetweenExtends(before.lots[m].entryPrice, after.lots[m].entryPrice, price, ps);
      } else {
        assert after.lots[m] == Lot(f.moved, d, price, f.usd);
        QuotientTimes(f.usd, Ui(f.moved, d));
        assert (ps + [price])[|ps|] == price;
      }
    } else {
      SettleOther(before, f, decimals, m);
      assert PricesSinceOpened(fs, decimals, m) == ps;
    }
  }

  lemma SettleOther(b: Book, f: Fill, decimals: Mint -> nat, m: Mint)
    requires WellFormed(b) && m in Settle(b, f, decimals).lots
    requires !(f.Bought? && f.mint == m && f.moved > 0)
    ensures m in b.lots && Settle(b, f, decimals).lots[m].entryPrice == b.lots[m].entryPrice
    ensures CostBasis(b.lots[m], decimals(m)) ==> CostBasis(Settle(b, f, decimals).lots[m], decimals(m))
  {
    if f.mint == m && f.moved > 0 {
      var l, left := b.lots[m], b.lots[m].raw - f.moved;
      assert left > 0;
      assert Settle(b, f, decimals).lots[m] == Shrunk(l, left);
      if l.decimals == decimals(m) {
        ShrunkBasis(l, left, decimals(m));
      }
    } else {
      assert Settle(b, f, decimals).lots[m] == b.lots[m];
    }
  }

  lemma ShrunkBasis(l: Lot, left: int, decimals: nat)
    requires left > 0 && l.decimals == decimals
    ensures CostBasis(Shrunk(l, left), decimals)
  {
  }

  lemma BetweenExtends(was: real, now: real, price: real, ps: seq<real>)
    requires Between(was, ps) && (was <= now <= price || price <= now <= was)
    ensures Between(now, ps + [price])
  {
    var i, j :| 0 <= i < |ps| && 0 <= j < |ps| && ps[i] <= was <= ps[j];
    var qs := ps + [price];
    assert qs[i] == ps[i] && qs[j] == ps[j] && qs[|ps|] == price;
  }

  /** A sell, full or partial, never moves the entry price of what is left. */
  lemma SellKeepsEntryPrice(b: Book, m: Mint, sold: int, expected: int)
    requires WellFormed(b) && m in SettleSell(b, m, sold, expected).book.lots
    ensures m in b.lots && SettleSell(b, m, sold, expected).book.lots[m].entryPrice == b.lots[m].entryPrice
  {
  }

  // -- the book against the wallet -----------------------------------------------------------------

  /** What changes a wallet: a settled swap, by the balance change observed for it, or tokens that arrive
      from outside between swaps. */
  datatype Movement = Swapped(fill: Fill) | Deposited(mint: Mint, amount: nat)

  function FillsOf(e: Movement): seq<Fill> {
    if e.Swapped? then [e.fill] else []
  }

  function Fills(es: seq<Movement>): seq<Fill> {
    if es == [] then []
    else Fills(es[..|es| - 1]) + FillsOf(es[|es| - 1])
  }

  function Change(e: Movement, m: Mint): int {
    match e
    case Deposited(k, amount) => if k == m then amount else 0
    case Swapped(Bought(k, moved, _, _)) => if k == m then moved else 0
    case Swapped(Sold(k, moved, _)) => if k == m then -moved else 0
  }

  /** The wallet's balance after a run that began with `start`. */
  function Held(start: Mint -> int, es: seq<Movement>, m: Mint): int {
    if es == [] then start(m) else Held(start, es[..|es| - 1], m) + Change(es[|es| - 1], m)
  }

  /** Nothing leaves a wallet but by a sell, and no sell takes more than the wallet then holds. */
  ghost predicate Possible(start: Mint -> int, es: seq<Movement>) {
    es == [] ||
    (Possible(start, es[..|es| - 1]) &&
     match es[|es| - 1]
     case Deposited(_, _) => true
     case Swapped(Bought(_, moved, _, _)) => moved >= 0
     case Swapped(Sold(k, moved, _)) => moved <= Held(start, es[..|es| - 1], k))
  }

  /** Nobody else feeds the mint: no deposit, not even one that outweighs a sell it lands during. */
  predicate Undisturbed(e: Movement, m: Mint) {
    match e
    case Deposited(k, _) => k != m
    case Swapped(Bought(_, _, _, _)) => true
    case Swapped(Sold(k, moved, _)) => k == m ==> moved >= 0
  }

  /** Book and wallet over every run of live fills, full, partial or empty, on any mints, bought and sold
      any number of times: the lot never exceeds the wallet, and equals it on a mint that began empty and
      nobody else feeds. */
  lemma {:induction false} BookAgrees(start: Mint -> int, es: seq<Movement>, decimals: Mint -> nat, m: Mint)
    requires start(m) >= 0 && Possible(start, es)
    ensures 0 <= Raw(Settled(Fills(es), decimals), m) <= Held(start, es, m)
    ensures start(m) == 0 && (forall i :: 0 <= i < |es| ==> Undisturbed(es[i], m)) ==>
              Raw(Settled(Fills(es), decimals), m) == Held(start, es, m)
  {
    if es != [] {
      var init, e := es[..|es| - 1], es[|es| - 1];
      BookAgrees(start, init, decimals, m);
      assert forall i :: 0 <= i < |init| ==> init[i] == es[i];
      NextBalances(Fills(init), e, decimals, m, Held(start, init, m));
    }
  }

  lemma NextBalances(fs: seq<Fill>, e: Movement, decimals: Mint -> nat, m: Mint, held: int)
    requires 0 <= Raw(Settled(fs, decimals), m) <= held
    requires e.Swapped? && e.fill.Bought? ==> e.fill.moved >= 0
    requires e.Swapped? && e.fill.Sold? && e.fill.mint == m ==> e.fill.moved <= held
    ensures 0 <= Raw(Settled(fs + FillsOf(e), decimals), m) <= held + Change(e, m)
    ensures Raw(Settled(fs, decimals), m) == held && Undisturbed(e, m) ==>
              Raw(Settled(fs + FillsOf(e), decimals), m) == held + Change(e, m)
  {
    if e.Swapped? {
      SettledNext(fs, e.fill, decimals, m);
    } else {
      assert fs + FillsOf(e) == fs;
    }
  }

  /** What one more settled swap does to a lot. */
  lemma SettledNext(fs: seq<Fill>, f: Fill, decimals: Mint -> nat, m: Mint)
    ensures Raw(Settled(fs + [f], decimals), m) ==
              if f.mint != m then Raw(Settled(fs, decimals), m)
              else if f.Bought? then Raw(Settled(fs, decimals), m) + MaxInt(0, f.moved)
              else MaxInt(0, Raw(Settled(fs, decimals), m) - MaxInt(0, f.moved))
  {
    assert (fs + [f])[..|fs|] == fs;
    var before := Settled(fs, decimals);
    if f.Bought? {
      SettleBuyBooks(before, f.mint, f.moved, f.expected, decimals(f.mint), f.usd);
    } else {
      SettleSellBooks(before, f.mint, f.moved, f.expected);
    }
  }
}
