/** Types shared by the two markets (src/models.py). */
module Models {

  datatype Option<T> = None | Some(value: T)
  datatype Result<T> = Ok(value: T) | Error(reason: string)

  datatype Market = Crypto | Stocks

  /** An open position on either market. `mint` is `meta["mint"]`, empty when absent; a `stopPrice`
      of zero stands for none, as every reader of that field treats the two alike. */
  datatype Position = Position(
    market: Market, symbol: string, mint: string, sector: string,
    quantity: real, entryPrice: real, currentPrice: real, amountUsd: real, stopPrice: real, score: real)
  {
    function Pnl(): real {
      if currentPrice == 0.0 then 0.0 else (currentPrice - entryPrice) * quantity
    }

    /** The key a crypto position is matched by. */
    function Key(): string {
      if mint != "" then mint else symbol
    }
  }

  function Max(a: real, b: real): real {
    if a < b then b else a
  }

  function Min(a: real, b: real): real {
    if a < b then a else b
  }

  function MaxInt(a: int, b: int): int {
    if a < b then b else a
  }

  function Clamp01(x: real): real {
    Max(0.0, Min(1.0, x))
  }

  // -- quotients and products -----------------------------------------------------------------------------

  lemma QuotientTimes(x: real, d: real)
    requires d != 0.0
    ensures d * (x / d) == x && x / d * d == x
  {
  }

  lemma DivNonNegative(x: real, d: real)
    requires x >= 0.0 && d > 0.0
    ensures x / d >= 0.0
  {
    assert (x / d) * d == x;
  }

  lemma ProductNonNegative(x: real, y: real)
    requires x >= 0.0 && y >= 0.0
    ensures x * y >= 0.0
  {
  }

  // -- cents ---------------------------------------------------------------------------------

  ghost predicate IsCents(x: real) {
    (x * 100.0).Floor as real == x * 100.0
  }

  /** All that is assumed of `round(x, 2)`: it lands on a cent, moves its argument by at most half a
      cent, is monotone, and leaves exact cents alone. How ties are broken is left open. */
  ghost predicate IsCentRounding(round: real -> real) {
    && (forall x {:trigger round(x)} :: IsCents(round(x)))
    && (forall x :: -0.005 <= round(x) - x <= 0.005)
    && (forall x, y :: x <= y ==> round(x) <= round(y))
    && (forall x {:trigger round(x)} :: IsCents(x) ==> round(x) == x)
  }

  function HalfUp(x: real): real {
    (x * 100.0 + 0.5).Floor as real / 100.0
  }

  lemma HalfUpNear(x: real)
    ensures -0.005 <= HalfUp(x) - x <= 0.005
  {
  }

  lemma HalfUpIsCents(x: real)
    ensures IsCents(HalfUp(x))
  {
    assert HalfUp(x) * 100.0 == (x * 100.0 + 0.5).Floor as real;
  }

  lemma HalfUpFixesCents(x: real)
    requires IsCents(x)
    ensures HalfUp(x) == x
  {
    var k := (x * 100.0).Floor;
    assert x * 100.0 + 0.5 == k as real + 0.5;
    assert (x * 100.0 + 0.5).Floor == k;
  }

  lemma HalfUpMonotone(x: real, y: real)
    requires x <= y
    ensures HalfUp(x) <= HalfUp(y)
  {
    assert (x * 100.0 + 0.5).Floor <= (y * 100.0 + 0.5).Floor;
  }

  /** The contract is not empty: rounding half up meets it. */
  lemma HalfUpIsCentRounding()
    ensures IsCentRounding(HalfUp)
  {
    forall x ensures IsCents(HalfUp(x)) {
      HalfUpIsCents(x);
    }
    forall x ensures -0.005 <= HalfUp(x) - x <= 0.005 {
      HalfUpNear(x);
    }
    forall x | IsCents(x) ensures HalfUp(x) == x {
      HalfUpFixesCents(x);
    }
    forall x, y | x <= y ensures HalfUp(x) <= HalfUp(y) {
      HalfUpMonotone(x, y);
    }
  }
}
