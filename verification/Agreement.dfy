/** The desk's position in a mint against the executor's lot of it: the two are written by different code from
    the same reply (`_open_crypto` and `manage_position` in src/desk.py, `buy` and `sell` in
    src/crypto/crypto_executor.py), and nothing but that keeps them alike. */
module Agreement {
  import opened Models
  import opened EventLog
  import opened Ledger
  import opened CryptoExecutor
  import Desk
  import Risk

  /** The position shows the lot: as much of it, entered at the same price, for the same dollars. */
  ghost predicate Shows(p: Position, l: Lot) {
    p.quantity == Ui(l.raw, l.decimals) && p.entryPrice == l.entryPrice && p.amountUsd == l.amountUsd
  }

  /** What the desk makes of the executor's reply to a buy: a fill, stranded tokens, or nothing. */
  function FillOf(r: Reply, decimals: nat): Desk.Fill {
    match r
    case Filled(quantity, price, _) => Desk.CryptoFill(quantity, price)
    case Failed(_, stranded) =>
      if stranded.Some? && stranded.value.rawAmount > 0
      then Desk.CryptoStranded(Ui(stranded.value.rawAmount, decimals)) else Desk.NoFill
  }

  /** A live buy of a mint that is not held. In every outcome, a full fill, a shortfall and nothing at all,
      the desk gets a position exactly when the executor gets a lot; the position shows the lot, is found
      under its mint and stands at no profit. */
  lemma BuyShowsOnDesk(cfg: Risk.Config, c: Desk.Candidate, usd: real, was: Book, now: Book, r: Reply,
      logged: Option<Record>, filled: int, q: Quote)
    requires c.market == Crypto && c.mint != "" && WellFormed(was) && c.mint !in was.lots
    requires BooksMove(was, now, r, logged, c.mint, filled, q, usd)
    ensures var landed := Desk.Landed(cfg, Desk.Opening(c, usd), FillOf(r, q.decimals));
            && (landed.Some? <==> c.mint in now.lots) && (landed.Some? <==> filled > 0)
            && (landed.Some? ==>
                  && Shows(landed.value, now.lots[c.mint])
                  && landed.value.Key() == c.mint && landed.value.Pnl() == 0.0)
  {
    UiPositive(filled, q.decimals);
    if r.Filled? {
      QuotientUnique(r.quantity, r.price, usd);
    }
  }

  /** The same on paper. */
  lemma PaperBuyShowsOnDesk(cfg: Risk.Config, c: Desk.Candidate, usd: real, was: Book, now: Book, r: Reply, q: Quote)
    requires c.market == Crypto && c.mint != "" && WellFormed(was) && c.mint !in was.lots && q.outAmount > 0
    requires BooksQuote(was, now, r, c.mint, usd, q)
    ensures var landed := Desk.Landed(cfg, Desk.Opening(c, usd), FillOf(r, q.decimals));
            && landed.Some? && c.mint in now.lots && Shows(landed.value, now.lots[c.mint])
            && landed.value.Key() == c.mint && landed.value.Pnl() == 0.0
  {
    UiPositive(q.outAmount, q.decimals);
  }

  lemma QuotientUnique(x: real, y: real, z: real)
    requires x != 0.0 && x * y == z
    ensures y == z / x
  {
  }

  // -- trims ------------------------------------------------------------------------------------------

  /** One paper trim: the executor sells whole raw units, the desk scales a real; a fraction that comes to no unit
      is refused, and then neither moves. */
  function Trimmed(b: Book, p: Position, m: Mint, fraction: real): (Book, Position) {
    var raw := FractionRaw(Raw(b, m), fraction);
    if raw <= 0 then (b, p) else (Debit(b, m, raw), Desk.Smaller(p, fraction))
  }

  function TrimmedAll(b: Book, p: Position, m: Mint, fractions: seq<real>): (Book, Position) {
    if fractions == [] then (b, p)
    else
      var (c, q) := TrimmedAll(b, p, m, fractions[..|fractions| - 1]);
      Trimmed(c, q, m, fractions[|fractions| - 1])
  }

  /** What the desk has of a lot, in raw units. */
  function Units(p: Position, decimals: nat): real {
    p.quantity * Pow10(decimals) as real
  }

  /** The lot is never below the position, and above it by at most `n` raw units. */
  ghost predicate Drifted(b: Book, p: Position, m: Mint, decimals: nat, n: nat) {
    && m in b.lots && b.lots[m].raw > 0 && b.lots[m].decimals == decimals
    && Units(p, decimals) <= b.lots[m].raw as real <= Units(p, decimals) + n as real
  }

  function Scaled(x: real, k: real): real {
    x * k
  }

  lemma ScaledMonotone(x: real, y: real, k: real)
    requires x <= y && k >= 0.0
    ensures Scaled(x, k) <= Scaled(y, k)
  {
  }

  lemma ScaledParts(x: real, y: real, fraction: real)
    ensures Scaled(x, 1.0 - fraction) == x - Scaled(x, fraction)
    ensures Scaled(x + y, fraction) == Scaled(x, fraction) + Scaled(y, fraction)
  {
  }

  lemma ScaledLess(x: real, k: real)
    requires x >= 0.0 && k <= 1.0
    ensures Scaled(x, k) <= x
  {
  }

  /** One trim of reals: what is left of `held` once its fraction, rounded down, is taken, against what is left of
      `units`. */
  lemma DriftsByOne(held: real, taken: real, units: real, n: real, fraction: real)
    requires taken <= Scaled(held, fraction) < taken + 1.0 && 0.0 < fraction < 1.0
    requires units <= held <= units + n && n >= 0.0
    ensures Scaled(units, 1.0 - fraction) <= held - taken <= Scaled(units, 1.0 - fraction) + n + 1.0
  {
    hide Scaled;
    ScaledParts(held, 0.0, fraction);
    ScaledParts(units, n, 1.0 - fraction);
    ScaledMonotone(units, held, 1.0 - fraction);
    ScaledMonotone(held, units + n, 1.0 - fraction);
    ScaledLess(n, 1.0 - fraction);
  }

  lemma TrimDrifts(b: Book, p: Position, m: Mint, decimals: nat, n: nat, fraction: real)
    requires Drifted(b, p, m, decimals, n) && 0.0 < fraction < 1.0
    ensures var (c, q) := Trimmed(b, p, m, fraction); Drifted(c, q, m, decimals, n + 1)
  {
    hide FractionRaw, Units, Ui;
    var held, taken := b.lots[m].raw, FractionRaw(b.lots[m].raw, fraction);
    FractionBounds(held, fraction);
    if taken > 0 {
      DriftsByOne(held as real, taken as real, Units(p, decimals), n as real, fraction);
      UnitsScale(p, decimals, fraction);
      var (c, q) := Trimmed(b, p, m, fraction);
      assert c.lots[m].raw == held - taken;
    }
  }

  lemma UnitsScale(p: Position, decimals: nat, fraction: real)
    ensures Units(Desk.Smaller(p, fraction), decimals) == Scaled(Units(p, decimals), 1.0 - fraction)
  {
  }

  lemma ShowsUnits(p: Position, l: Lot)
    requires l.raw > 0 && p.quantity == Ui(l.raw, l.decimals)
    ensures Units(p, l.decimals) == l.raw as real
  {
  }

  /** Book and desk trim alike. From a position that shows its lot, after any number of paper trims, refused
      ones included, the lot is still there, never less than the desk has of it, and more by at most one
      raw unit a trim. */
  lemma {:induction false} TrimsDrift(b: Book, p: Position, m: Mint, fractions: seq<real>)
    requires m in b.lots && b.lots[m].raw > 0 && p.quantity == Ui(b.lots[m].raw, b.lots[m].decimals)
    requires forall i :: 0 <= i < |fractions| ==> 0.0 < fractions[i] < 1.0
    ensures var (c, q) := TrimmedAll(b, p, m, fractions); Drifted(c, q, m, b.lots[m].decimals, |fractions|)
  {
    var decimals := b.lots[m].decimals;
    if fractions == [] {
      ShowsUnits(p, b.lots[m]);
    } else {
      var init := fractions[..|fractions| - 1];
      TrimsDrift(b, p, m, init);
      var (c, q) := TrimmedAll(b, p, m, init);
      TrimDrifts(c, q, m, decimals, |init|, fractions[|init|]);
    }
  }
}
