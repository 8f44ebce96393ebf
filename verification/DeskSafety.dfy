/** What holds on every run of the desk, for every interleaving of its loops: the budget bound, the
    open-position caps and the daily loss bound (src/desk.py, src/shared/risk.py). */
module DeskSafety {
  import opened Models
  import opened Allocation
  import opened Risk
  import opened Holdings
  import opened Desk

  // -- budget --------------------------------------------------------------------------------------

  ghost predicate AmountsNonNegative(store: map<nat, Position>) {
    forall u :: u in store ==> store[u].amountUsd >= 0.0
  }

  ghost predicate LiveNonNegative(snapshot: Option<seq<Position>>) {
    snapshot.Some? ==> forall i :: 0 <= i < |snapshot.value| ==> snapshot.value[i].amountUsd >= 0.0
  }

  /** No snapshot reports a holding of negative cost, as a short equity position would be. */
  ghost predicate NoShorts(s: Step) {
    s.Refreshes? ==> LiveNonNegative(s.stocks) && LiveNonNegative(s.crypto)
  }

  lemma {:induction false} MergeAllNonNegative(h: Holdings, m: Market, base: Holdings, lives: seq<Position>)
    requires AmountsNonNegative(base.store) && LiveNonNegative(Some(lives))
    ensures AmountsNonNegative(MergeAll(h, m, base, lives).store)
  {
    if lives != [] {
      MergeAllNonNegative(h, m, base, lives[..|lives| - 1]);
      var b, live := MergeAll(h, m, base, lives[..|lives| - 1]), lives[|lives| - 1];
      assert live.amountUsd >= 0.0;
    }
  }

  /** Dollars of market `m` that are sized but not yet recorded. */
  function Pending(d: Desk, m: Market): real {
    if d.opening.Some? && d.opening.value.candidate.market == m then d.opening.value.amount else 0.0
  }

  /** The largest budget market `m` has had so far, zero included. */
  function PeakBudget(cfg: Config, d: Desk, steps: seq<Step>, m: Market): real
    requires WellFormed(d) && Legal(cfg, d, steps)
    decreases |steps|
  {
    var here := Max(0.0, Budget(cfg, Run(cfg, d, steps).risk, m));
    if steps == [] then here else Max(here, PeakBudget(cfg, d, steps[..|steps| - 1], m))
  }

  ghost predicate OpeningSound(d: Desk) {
    d.opening.Some? ==> d.opening.value.amount > 0.0 && IsCents(d.opening.value.amount)
  }

  ghost predicate WithinBudget(cfg: Config, d: Desk, m: Market, peak: real) {
    && Deployed(d.risk, m) >= 0.0
    && Deployed(d.risk, m) + Pending(d, m) <= peak + 0.005
  }

  ghost predicate BudgetInv(d: Desk) {
    WellFormed(d) && AmountsNonNegative(d.held.store) && OpeningSound(d)
  }

  /** Whole shares never cost more than the size they were bought with, to the cent. */
  lemma ShareCostBounds(cfg: Config, amount: real, price: real)
    requires IsCentRounding(cfg.round) && price > 0.0 && amount >= 0.0 && IsCents(amount)
    ensures 0.0 <= ShareCost(cfg, amount, price) <= amount
  {
    SharesCost(amount, price);
    RoundsBetween(cfg, Bill(Shares(amount, price) as real, price), amount);
  }

  lemma RoundsCents(cfg: Config, cents: real)
    requires IsCentRounding(cfg.round) && IsCents(cents)
    ensures (cfg.round)(cents) == cents
  {
  }

  lemma RoundsBetween(cfg: Config, x: real, cents: real)
    requires IsCentRounding(cfg.round) && 0.0 <= x <= cents && IsCents(cents)
    ensures 0.0 <= (cfg.round)(x) <= cents
  {
    RoundsCents(cfg, 0.0);
    RoundsCents(cfg, cents);
    assert (cfg.round)(0.0) <= (cfg.round)(x) <= (cfg.round)(cents);
  }

  lemma SharesCost(amount: real, price: real)
    requires price > 0.0 && amount >= 0.0
    ensures 0.0 <= Bill(Shares(amount, price) as real, price) <= amount
  {
    var q, k := amount / price, Shares(amount, price) as real;
    DivNonNegative(amount, price);
    ScaleLe(price, k, q);
    ScaleLe(price, 0.0, k);
    QuotientTimes(amount, price);
  }

  lemma ScaleLe(x: real, lo: real, hi: real)
    requires x >= 0.0 && lo <= hi
    ensures lo * x <= hi * x
  {
  }

  /** What lands was sized: on the same market, for a non-negative amount no larger than the size. */
  lemma LandedBounds(cfg: Config, o: Opening, fill: Fill)
    requires IsCentRounding(cfg.round) && o.amount > 0.0 && IsCents(o.amount)
    ensures Landed(cfg, o, fill).Some? ==>
              var p := Landed(cfg, o, fill).value;
              p.market == o.candidate.market && 0.0 <= p.amountUsd <= o.amount
              && p.sector == (if p.market == Stocks then o.candidate.sector else "unknown")
  {
    if fill.StockFill? && o.candidate.price > 0.0 {
      ShareCostBounds(cfg, o.amount, o.candidate.price);
    }
  }

  /** A sized open: what its market's part of the budget has left holds it, and it is, to half a cent, the
      part its checked score is given of the largest amount that fits. */
  lemma SizedWithinBudget(cfg: Config, d: Desk, c: Candidate) returns (raw: real)
    requires cfg.Sane() && Valid(d.held) && Sized(cfg, d, c).Some?
    ensures Fits(cfg, d.risk, c.market, raw) && forall x :: x >= 0.0 && Fits(cfg, d.risk, c.market, x) ==> x <= raw
    ensures var o := Sized(cfg, d, c).value;
            && o.amount > 0.0 && IsCents(o.amount) && o.candidate == c
            && -0.005 <= o.amount - Graded(c.sizeScore, raw) <= 0.005
            && Deployed(d.risk, c.market) + o.amount <= Entitled(cfg, d.risk, c.market) + 0.005
            && o.amount <= LossShare(cfg, d.risk) + 0.005
  {
    hide Share, Entitled, Budget, Graded;
    BudgetIsEntitled(cfg, d.risk, c.market);
    raw := SizeBounds(cfg, d.risk, c.market, c.sizeScore);
  }

  lemma ManageKeepsAmounts(d: Desk, u: nat, decision: Decision)
    requires u in d.held.store && AmountsNonNegative(d.held.store)
    requires decision.Trimmed? ==> 0.0 < decision.fraction < 1.0
    ensures AmountsNonNegative(Manage(d, u, decision).held.store)
  {
    if decision.Trimmed? {
      ScaleLe(1.0 - decision.fraction, 0.0, d.held.store[u].amountUsd);
    }
  }

  lemma StepKeepsBudgetInv(cfg: Config, d: Desk, s: Step)
    requires cfg.Sane() && BudgetInv(d) && Enabled(d, s) && NoShorts(s)
    ensures BudgetInv(Apply(cfg, d, s))
  {
    StaysWellFormed(cfg, d, s);
    match s
    case OpenBegins(c) => if Sized(cfg, d, c).Some? { var _ := SizedWithinBudget(cfg, d, c); }
    case OpenLands(fill) => LandedBounds(cfg, d.opening.value, fill);
    case Refreshes(stocks, crypto) =>
      var m := MergeStocks(d.held, stocks);
      if stocks.Some? { MergeAllNonNegative(d.held, Stocks, d.held, stocks.value); }
      if crypto.Some? { MergeAllNonNegative(d.held, Crypto, m, crypto.value); }
    case Manages(decision) => ManageKeepsAmounts(d.(pending := d.pending[1..]), d.pending[0], decision);
    case _ =>
  }

  lemma StepKeepsWithinBudget(cfg: Config, d: Desk, s: Step, m: Market, peak: real)
    requires cfg.Sane() && BudgetInv(d) && Enabled(d, s)
    requires WithinBudget(cfg, d, m, peak) && Max(0.0, Budget(cfg, d.risk, m)) <= peak
    ensures WithinBudget(cfg, Apply(cfg, d, s), m, peak)
  {
    hide Budget, Entitled, Sized, Landed, LossShare, Fits;
    match s
    case OpenBegins(c) =>
      if Sized(cfg, d, c).Some? {
        var _ := SizedWithinBudget(cfg, d, c);
        BudgetIsEntitled(cfg, d.risk, c.market);
      }
    case OpenLands(fill) => LandedBounds(cfg, d.opening.value, fill);
    case _ =>
  }

  lemma {:induction false} RunKeepsBudget(cfg: Config, d: Desk, steps: seq<Step>, m: Market)
    requires cfg.Sane() && BudgetInv(d) && Legal(cfg, d, steps)
    requires forall i :: 0 <= i < |steps| ==> NoShorts(steps[i])
    requires WithinBudget(cfg, d, m, Max(0.0, Budget(cfg, d.risk, m)))
    ensures BudgetInv(Run(cfg, d, steps)) && WithinBudget(cfg, Run(cfg, d, steps), m, PeakBudget(cfg, d, steps, m))
    decreases |steps|
  {
    if steps != [] {
      var init, last := steps[..|steps| - 1], steps[|steps| - 1];
      RunKeepsBudget(cfg, d, init, m);
      var before := Run(cfg, d, init);
      StepKeepsBudgetInv(cfg, before, last);
      StepKeepsWithinBudget(cfg, before, last, m, PeakBudget(cfg, d, init, m));
    }
  }

  /** Budget under interleaving. On every run, whatever lands while an order is in flight, what a market
      is recorded to have deployed never exceeds the largest budget it has had by more than half a cent. */
  lemma BudgetBound(cfg: Config, day: int, steps: seq<Step>, m: Market)
    requires cfg.Sane() && Legal(cfg, Start(day), steps)
    requires forall i :: 0 <= i < |steps| ==> NoShorts(steps[i])
    ensures 0.0 <= Deployed(Run(cfg, Start(day), steps).risk, m) <= PeakBudget(cfg, Start(day), steps, m) + 0.005
  {
    RunKeepsBudget(cfg, Start(day), steps, m);
  }

  /** The market's part of the allocation has been at most `x` at every await of the run. */
  ghost predicate SharesWithin(cfg: Config, d: Desk, steps: seq<Step>, m: Market, x: real)
    requires WellFormed(d) && Legal(cfg, d, steps)
    decreases |steps|
  {
    && (match m case Crypto => Run(cfg, d, steps).risk.split.crypto <= x
                case Stocks => Run(cfg, d, steps).risk.split.stocks <= x)
    && (steps != [] ==> SharesWithin(cfg, d, steps[..|steps| - 1], m, x))
  }

  lemma {:induction false} PeakWithinShare(cfg: Config, d: Desk, steps: seq<Step>, m: Market, x: real)
    requires cfg.Sane() && WellFormed(d) && Legal(cfg, d, steps) && SharesWithin(cfg, d, steps, m, x)
    ensures PeakBudget(cfg, d, steps, m) <= Max(0.0, cfg.totalBudget * x)
    decreases |steps|
  {
    hide Run, Budget, WellFormed;
    BudgetWithinShare(cfg, Run(cfg, d, steps).risk, m, x);
    if steps != [] {
      PeakWithinShare(cfg, d, steps[..|steps| - 1], m, x);
    }
  }

  lemma BudgetWithinShare(cfg: Config, s: State, m: Market, x: real)
    requires cfg.totalBudget >= 0.0 && match m case Crypto => s.split.crypto <= x case Stocks => s.split.stocks <= x
    ensures Budget(cfg, s, m) <= cfg.totalBudget * x
  {
    match m
    case Crypto => ScaleLe(cfg.totalBudget, s.split.crypto, x);
    case Stocks => ScaleLe(cfg.totalBudget, s.split.stocks, x);
  }

  /** The same in the shares themselves. Whatever share `x` of the total budget the allocation has kept a market
      to so far, what is recorded as deployed there is at most that share of it, and half a cent. */
  lemma DeployedWithinShare(cfg: Config, day: int, steps: seq<Step>, m: Market, x: real)
    requires cfg.Sane() && Legal(cfg, Start(day), steps)
    requires forall i :: 0 <= i < |steps| ==> NoShorts(steps[i])
    requires SharesWithin(cfg, Start(day), steps, m, x)
    ensures Deployed(Run(cfg, Start(day), steps).risk, m) <= Max(0.0, cfg.totalBudget * x) + 0.005
  {
    BudgetBound(cfg, day, steps, m);
    PeakWithinShare(cfg, Start(day), steps, m, x);
  }

  /** Why the proviso: a close raises what is recorded as deployed exactly when the holding's cost is
      negative, and it is then raised by that cost, budget or no budget. */
  lemma CloseRaisesDeployed(s: State, m: Market, pnl: real, amount: real)
    requires Deployed(s, m) >= 0.0
    ensures Deployed(WithClose(s, m, pnl, amount), m) > Deployed(s, m) <==> amount < 0.0
    ensures amount < 0.0 ==> Deployed(WithClose(s, m, pnl, amount), m) == Deployed(s, m) - amount
  {
  }

  // -- caps ------------------------------------------------------------------------------------------

  lemma {:induction false} TallyAppend(ps: seq<Position>, p: Position, c: Class)
    ensures Tally(ps + [p], c) == Tally(ps, c) + (if InClass(p, c) then 1 else 0)
  {
    assert (ps + [p])[..|ps|] == ps;
  }

  lemma {:induction false} TallyConcat(ps: seq<Position>, qs: seq<Position>, c: Class)
    ensures Tally(ps + qs, c) == Tally(ps, c) + Tally(qs, c)
  {
    if qs == [] {
      assert ps + qs == ps;
    } else {
      TallyConcat(ps, qs[..|qs| - 1], c);
      assert ps + qs == (ps + qs[..|qs| - 1]) + [qs[|qs| - 1]];
      TallyAppend(ps + qs[..|qs| - 1], qs[|qs| - 1], c);
    }
  }

  function At(store: map<nat, Position>, us: seq<nat>): seq<Position>
    requires forall u :: u in us ==> u in store
  {
    seq(|us|, i requires 0 <= i < |us| => store[us[i]])
  }

  lemma {:induction false} TallyOfAll(ps: seq<Position>)
    ensures Tally(ps, Everything) == |ps|
  {
    if ps != [] {
      TallyOfAll(ps[..|ps| - 1]);
    }
  }

  /** Split a list around one entry of a duplicate-free choice; the others are still there. */
  lemma TakeOut(init: seq<nat>, u: nat, b: seq<nat>) returns (l: seq<nat>, r: seq<nat>)
    requires NoDuplicates(init + [u]) && u in b && forall v :: v in init ==> v in b
    ensures b == l + [u] + r && forall v :: v in init ==> v in l + r
  {
    var j :| 0 <= j < |b| && b[j] == u;
    l, r := b[..j], b[j + 1..];
    forall v | v in init ensures v in l + r {
      var i :| 0 <= i < |init| && init[i] == v;
      assert (init + [u])[i] == v && (init + [u])[|init|] == u;
      var k :| 0 <= k < |b| && b[k] == v;
      assert if k < j then l[k] == v else r[k - j - 1] == v;
    }
  }

  /** A duplicate-free choice among the entries of a list, in a store that kept their market and sector,
      has no more members of any class. */
  lemma {:induction false} TallyShrinks(s: map<nat, Position>, a: seq<nat>, t: map<nat, Position>, b: seq<nat>,
      c: Class)
    requires NoDuplicates(a) && (forall u :: u in a ==> u in b && u in s) && (forall u :: u in b ==> u in t)
    requires forall u :: u in a ==> s[u].market == t[u].market && s[u].sector == t[u].sector
    ensures Tally(At(s, a), c) <= Tally(At(t, b), c)
    decreases |a|
  {
    if a != [] {
      var init, u := a[..|a| - 1], a[|a| - 1];
      assert a == init + [u] && u in a;
      var l, r := TakeOut(init, u, b);
      TallyShrinks(s, init, t, l + r, c);
      assert At(s, a) == At(s, init) + [s[u]];
      TallyAppend(At(s, init), s[u], c);
      RemoveOne(t, l, u, r, c);
    }
  }

  lemma RemoveOne(t: map<nat, Position>, l: seq<nat>, u: nat, r: seq<nat>, c: Class)
    requires u in t && (forall v :: v in l ==> v in t) && (forall v :: v in r ==> v in t)
    ensures forall v :: v in l + [u] + r ==> v in t
    ensures Tally(At(t, l + [u] + r), c) == Tally(At(t, l + r), c) + (if InClass(t[u], c) then 1 else 0)
  {
    assert At(t, l + r) == At(t, l) + At(t, r);
    assert At(t, l + [u] + r) == At(t, l) + [t[u]] + At(t, r);
    TallyConcat(At(t, l), At(t, r), c);
    TallyConcat(At(t, l) + [t[u]], At(t, r), c);
    TallyAppend(At(t, l), t[u], c);
  }

  /** Positions of a class, listed or about to be: an order in flight counts as one. */
  function Exposure(d: Desk, c: Class): int
    requires Valid(d.held)
  {
    Tally(Values(d.held), c) + (if d.opening.Some? && Claims(d.opening.value.candidate, c) then 1 else 0)
  }

  predicate Claims(k: Candidate, c: Class) {
    match c
    case Everything => true
    case OnMarket(m) => k.market == m
    case InSector(s) => k.market == Stocks && k.sector == s
  }

  /** The cap on a class; unnamed sectors have none. */
  function Cap(cfg: Config, c: Class): Option<int> {
    match c
    case Everything => Some(cfg.maxTotal)
    case OnMarket(m) => Some(if m == Crypto then cfg.maxCrypto else cfg.maxStocks)
    case InSector(s) => if Named(s) then Some(cfg.maxPerSector) else None
  }

  ghost predicate WithinCaps(cfg: Config, d: Desk)
    requires Valid(d.held)
  {
    forall c :: Cap(cfg, c).Some? ==> Exposure(d, c) <= Cap(cfg, c).value
  }

  /** The most one position can be opened with. */
  function MaxSize(cfg: Config): real {
    Share(cfg.lossLimit, cfg.pctOfLoss) + 0.005
  }

  /** The list names each position once, and each was opened by the desk within the size limit. */
  ghost predicate Accounted(cfg: Config, d: Desk) {
    && NoDuplicates(d.held.list) && NoDuplicates(d.pending) && (forall u :: u in d.pending ==> u in d.held.list)
    && (forall u :: u in d.held.list ==> u in d.paid && d.paid[u] <= MaxSize(cfg))
    && (d.opening.Some? ==> 0.0 < d.opening.value.amount <= MaxSize(cfg) && IsCents(d.opening.value.amount))
  }

  ghost predicate Orderly(d: Desk, s: Step) {
    && Enabled(d, s)
    && (s.Refreshes? ==> Benign(d.held, s.stocks, Stocks) && Benign(d.held, s.crypto, Crypto))
  }

  /** The gate is the caps and nothing else: it lets a candidate through exactly when the loss limit is
      not reached, every capped class it would join has room, and its market's part of the budget has more left
      than the amount, or a billionth less. */
  lemma GateIsCaps(cfg: Config, s: State, k: Candidate, ps: seq<Position>, amount: real)
    requires amount >= 0.0
    ensures CanOpen(cfg, s, k.market, ps, if k.market == Stocks then k.sector else "unknown", amount) == Allowed <==>
              && s.realized > -cfg.lossLimit
              && (forall c :: Claims(k, c) && Cap(cfg, c).Some? ==> Tally(ps, c) < Cap(cfg, c).value)
              && Deployed(s, k.market) < Entitled(cfg, s, k.market)
              && amount <= Entitled(cfg, s, k.market) - Deployed(s, k.market) + 0.000000001
  {
    TallyOfAll(ps);
    BudgetIsEntitled(cfg, s, k.market);
    var sector := if k.market == Stocks then k.sector else "unknown";
    if CanOpen(cfg, s, k.market, ps, sector, amount) != Allowed
       && forall c :: Claims(k, c) && Cap(cfg, c).Some? ==> Tally(ps, c) < Cap(cfg, c).value {
      assert Claims(k, Everything) && Cap(cfg, Everything).Some?;
      assert Claims(k, OnMarket(k.market)) && Cap(cfg, OnMarket(k.market)).Some?;
      assert k.market == Stocks && Named(k.sector) ==>
          Claims(k, InSector(k.sector)) && Cap(cfg, InSector(k.sector)).Some?;
    }
  }

  /** An open is sized exactly when the loss limit is not reached, every capped class it would join has room, its
      market's part of the budget is not used up, and what it would be sized at rounds to a cent or more. */
  lemma SizedIff(cfg: Config, d: Desk, c: Candidate)
    requires Valid(d.held)
    ensures Sized(cfg, d, c).Some? <==>
              && d.risk.realized > -cfg.lossLimit
              && (forall k :: Claims(c, k) && Cap(cfg, k).Some? ==> Tally(Values(d.held), k) < Cap(cfg, k).value)
              && Deployed(d.risk, c.market) < Entitled(cfg, d.risk, c.market)
              && PositionSize(cfg, d.risk, c.market, c.sizeScore) > 0.0
  {
    GateIsCaps(cfg, d.risk, c, Values(d.held), 0.0);
  }

  lemma SizedWithinCaps(cfg: Config, d: Desk, c: Candidate, k: Class)
    requires Valid(d.held) && d.opening.None? && Sized(cfg, d, c).Some? && WithinCaps(cfg, d) && Cap(cfg, k).Some?
    ensures Exposure(d.(opening := Sized(cfg, d, c)), k) <= Cap(cfg, k).value
  {
    TallyOfAll(Values(d.held));
    assert Exposure(d, k) <= Cap(cfg, k).value;
  }

  lemma SizedWithinMax(cfg: Config, d: Desk, c: Candidate)
    requires cfg.Sane() && Valid(d.held) && Sized(cfg, d, c).Some?
    ensures 0.0 < Sized(cfg, d, c).value.amount <= MaxSize(cfg) && IsCents(Sized(cfg, d, c).value.amount)
  {
    var _ := SizedWithinBudget(cfg, d, c);
    ShareMonotone(LossRoom(cfg, d.risk), cfg.lossLimit, cfg.pctOfLoss);
  }

  lemma ShareMonotone(x: real, y: real, f: real)
    requires x <= y && f >= 0.0
    ensures Share(x, f) <= Share(y, f)
  {
  }

  lemma LandExposure(cfg: Config, d: Desk, fill: Fill, c: Class)
    requires cfg.Sane() && Valid(d.held) && d.opening.Some? && OpeningSound(d)
    requires Landed(cfg, d.opening.value, fill).Some?
    requires Cap(cfg, c).Some?
    ensures var p := Landed(cfg, d.opening.value, fill).value;
            Valid(Land(d, p).held) && Exposure(Land(d, p), c) <= Exposure(d, c)
  {
    hide Landed;
    var p := Landed(cfg, d.opening.value, fill).value;
    LandedBounds(cfg, d.opening.value, fill);
    var e := Land(d, p);
    assert d.held.next !in d.held.store;
    assert forall i :: 0 <= i < |d.held.list| ==> d.held.list[i] in d.held.list;
    assert Values(e.held) == Values(d.held) + [p];
    TallyAppend(Values(d.held), p, c);
  }

  lemma {:induction false} WithoutNoDuplicates(us: seq<nat>, u: nat)
    requires NoDuplicates(us)
    ensures NoDuplicates(Without(us, u))
    ensures |Without(us, u)| == if u in us then |us| - 1 else |us|
  {
    if us != [] {
      var init := us[..|us| - 1];
      WithoutNoDuplicates(init, u);
      WithoutMembers(init, u);
      var vs := Without(init, u);
      assert us == init + [us[|us| - 1]];
      assert forall i :: 0 <= i < |vs| ==> vs[i] in vs;
      assert forall v :: v in init ==> exists i :: 0 <= i < |init| && init[i] == v;
    }
  }

  /** Trading on old objects only: same markets and sectors, and a shorter or equal duplicate-free list. */
  lemma ShrinkExposure(cfg: Config, d: Desk, e: Desk, c: Class)
    requires Valid(d.held) && Valid(e.held) && e.opening == d.opening && NoDuplicates(e.held.list)
    requires forall u :: u in e.held.list ==>
               && u in d.held.list && e.held.store[u].market == d.held.store[u].market
               && e.held.store[u].sector == d.held.store[u].sector
    ensures Exposure(e, c) <= Exposure(d, c)
  {
    TallyShrinks(e.held.store, e.held.list, d.held.store, d.held.list, c);
    assert Values(e.held) == At(e.held.store, e.held.list) && Values(d.held) == At(d.held.store, d.held.list);
  }

  ghost predicate CapsInv(cfg: Config, d: Desk) {
    WellFormed(d) && Accounted(cfg, d) && WithinCaps(cfg, d)
  }

  lemma BeginKeepsCaps(cfg: Config, d: Desk, c: Candidate)
    requires cfg.Sane() && CapsInv(cfg, d) && d.opening.None?
    ensures CapsInv(cfg, Apply(cfg, d, OpenBegins(c)))
  {
    if Sized(cfg, d, c).Some? {
      SizedWithinMax(cfg, d, c);
      forall k | Cap(cfg, k).Some? ensures Exposure(d.(opening := Sized(cfg, d, c)), k) <= Cap(cfg, k).value {
        SizedWithinCaps(cfg, d, c, k);
      }
    }
  }

  lemma LandKeepsCaps(cfg: Config, d: Desk, fill: Fill)
    requires cfg.Sane() && CapsInv(cfg, d) && d.opening.Some?
    ensures CapsInv(cfg, Apply(cfg, d, OpenLands(fill)))
  {
    var e := Apply(cfg, d, OpenLands(fill));
    StaysWellFormed(cfg, d, OpenLands(fill));
    LandedBounds(cfg, d.opening.value, fill);
    if Landed(cfg, d.opening.value, fill).Some? {
      LandKeepsAccounts(cfg, d, Landed(cfg, d.opening.value, fill).value);
    }
    forall k | Cap(cfg, k).Some? ensures Exposure(e, k) <= Cap(cfg, k).value {
      assert Exposure(d, k) <= Cap(cfg, k).value;
      if Landed(cfg, d.opening.value, fill).Some? {
        LandExposure(cfg, d, fill, k);
      }
    }
  }

  lemma LandKeepsAccounts(cfg: Config, d: Desk, p: Position)
    requires WellFormed(d) && Accounted(cfg, d) && p.amountUsd <= MaxSize(cfg)
    ensures Accounted(cfg, Land(d, p))
  {
    assert d.held.next !in d.held.store;
    assert forall i :: 0 <= i < |d.held.list| ==> d.held.list[i] in d.held.list;
  }

  lemma RefreshKeepsCaps(cfg: Config, d: Desk, stocks: Option<seq<Position>>, crypto: Option<seq<Position>>)
    requires CapsInv(cfg, d) && Orderly(d, Refreshes(stocks, crypto))
    ensures CapsInv(cfg, Apply(cfg, d, Refreshes(stocks, crypto)))
    ensures Exposure(Apply(cfg, d, Refreshes(stocks, crypto)), Everything) <= Exposure(d, Everything)
  {
    var e := Apply(cfg, d, Refreshes(stocks, crypto));
    RefreshBenign(d.held, stocks, crypto);
    forall u | u in e.held.list
      ensures e.held.store[u].market == d.held.store[u].market && e.held.store[u].sector == d.held.store[u].sector
    {
      SameButKeys(d.held.store[u], e.held.store[u]);
    }
    forall k ensures Exposure(e, k) <= Exposure(d, k) {
      ShrinkExposure(cfg, d, e, k);
    }
  }

  lemma ManageKeepsCaps(cfg: Config, d: Desk, decision: Decision)
    requires CapsInv(cfg, d) && Enabled(d, Manages(decision))
    ensures CapsInv(cfg, Apply(cfg, d, Manages(decision)))
  {
    var e, u := Apply(cfg, d, Manages(decision)), d.pending[0];
    assert u in d.pending && d.pending == [u] + d.pending[1..];
    StaysWellFormed(cfg, d, Manages(decision));
    WithoutMembers(d.held.list, u);
    WithoutNoDuplicates(d.held.list, u);
    forall v | v in d.pending[1..] ensures v in d.held.list && v != u {
      assert v in d.pending;
      var i :| 0 <= i < |d.pending[1..]| && d.pending[1..][i] == v;
      assert d.pending[i + 1] == v;
    }
    forall k ensures Exposure(e, k) <= Exposure(d, k) {
      ShrinkExposure(cfg, d, e, k);
    }
  }

  lemma StepKeepsCaps(cfg: Config, d: Desk, s: Step)
    requires cfg.Sane() && CapsInv(cfg, d) && Orderly(d, s)
    ensures CapsInv(cfg, Apply(cfg, d, s))
  {
    match s
    case OpenBegins(c) => BeginKeepsCaps(cfg, d, c);
    case OpenLands(fill) => LandKeepsCaps(cfg, d, fill);
    case Refreshes(stocks, crypto) => RefreshKeepsCaps(cfg, d, stocks, crypto);
    case Manages(decision) => ManageKeepsCaps(cfg, d, decision);
    case DayCheck(today) => SameExposure(cfg, d, Apply(cfg, d, s));
    case Allocates(split) => SameExposure(cfg, d, Apply(cfg, d, s));
    case PassAborts => SameExposure(cfg, d, Apply(cfg, d, s));
  }

  lemma SameExposure(cfg: Config, d: Desk, e: Desk)
    requires Valid(d.held) && WithinCaps(cfg, d) && e.held == d.held && e.opening == d.opening
    ensures WithinCaps(cfg, e) && Exposure(e, Everything) == Exposure(d, Everything)
  {
    forall k | Cap(cfg, k).Some? ensures Exposure(e, k) <= Cap(cfg, k).value {
      assert Exposure(d, k) <= Cap(cfg, k).value;
    }
  }

  ghost predicate OrderlyRun(cfg: Config, d: Desk, steps: seq<Step>)
    requires WellFormed(d) && Legal(cfg, d, steps)
    decreases |steps|
  {
    steps == [] ||
    (OrderlyRun(cfg, d, steps[..|steps| - 1]) && Orderly(Run(cfg, d, steps[..|steps| - 1]), steps[|steps| - 1]))
  }

  lemma {:induction false} RunKeepsCaps(cfg: Config, d: Desk, steps: seq<Step>)
    requires cfg.Sane() && CapsInv(cfg, d) && Legal(cfg, d, steps) && OrderlyRun(cfg, d, steps)
    ensures CapsInv(cfg, Run(cfg, d, steps))
    decreases |steps|
  {
    if steps != [] {
      RunKeepsCaps(cfg, d, steps[..|steps| - 1]);
      StepKeepsCaps(cfg, Run(cfg, d, steps[..|steps| - 1]), steps[|steps| - 1]);
    }
  }

  lemma StartKeepsCaps(cfg: Config, day: int)
    requires cfg.Sane()
    ensures CapsInv(cfg, Start(day)) && Exposure(Start(day), Everything) == 0
  {
    assert Values(Start(day).held) == [];
  }

  /** Open-position caps. On every run in which no snapshot imports or repeats a holding, the book, with the
      order in flight counted in, stays within the total cap, the cap of each market and the cap of
      each named sector; stranded tokens of failed buys are positions like any other. */
  lemma OpenPositionCaps(cfg: Config, day: int, steps: seq<Step>, sector: string)
    requires cfg.Sane() && Legal(cfg, Start(day), steps) && OrderlyRun(cfg, Start(day), steps)
    ensures var d := Run(cfg, Start(day), steps);
            && |d.held.list| <= Exposure(d, Everything) <= cfg.maxTotal
            && Tally(Values(d.held), OnMarket(Crypto)) <= Exposure(d, OnMarket(Crypto)) <= cfg.maxCrypto
            && Tally(Values(d.held), OnMarket(Stocks)) <= Exposure(d, OnMarket(Stocks)) <= cfg.maxStocks
            && (Named(sector) ==>
                  Tally(Values(d.held), InSector(sector)) <= Exposure(d, InSector(sector)) <= cfg.maxPerSector)
  {
    StartKeepsCaps(cfg, day);
    RunKeepsCaps(cfg, Start(day), steps);
    var d := Run(cfg, Start(day), steps);
    TallyOfAll(Values(d.held));
    assert Cap(cfg, Everything).Some? && Cap(cfg, OnMarket(Crypto)).Some? && Cap(cfg, OnMarket(Stocks)).Some?;
    assert Named(sector) ==> Cap(cfg, InSector(sector)).Some?;
  }

  /** A refresh does not consult the caps: it lists as many stocks as the broker reports. */
  lemma ImportsIgnoreCaps(h: Holdings, stocks: seq<Position>, crypto: Option<seq<Position>>)
    requires Valid(h) && AllOf(stocks, Stocks) && SnapshotOf(crypto, Crypto)
    ensures |Refresh(h, Some(stocks), crypto).list| >= |stocks|
  {
    MergeAllExtends(h, Stocks, h, stocks);
  }

  // -- daily loss --------------------------------------------------------------------------------------

  /** A close loses no more than the most a position can be opened with. */
  ghost predicate LossCovered(cfg: Config, d: Desk, s: Step) {
    s.Manages? && s.decision.Closed? && d.pending != [] && d.pending[0] in d.held.store ==>
      d.held.store[d.pending[0]].Pnl() >= -MaxSize(cfg)
  }

  ghost predicate CoveredRun(cfg: Config, d: Desk, steps: seq<Step>)
    requires WellFormed(d) && Legal(cfg, d, steps)
    decreases |steps|
  {
    steps == [] ||
    (CoveredRun(cfg, d, steps[..|steps| - 1]) &&
     LossCovered(cfg, Run(cfg, d, steps[..|steps| - 1]), steps[|steps| - 1]))
  }

  function Times(n: int, x: real): real {
    n as real * x
  }

  lemma TimesMore(n: int, k: int, x: real)
    requires x >= 0.0 && n <= k
    ensures Times(n, x) <= Times(k, x)
  {
    ScaleLe(x, n as real, k as real);
  }

  lemma TimesOneMore(n: int, x: real)
    ensures Times(n + 1, x) == Times(n, x) + x
  {
    assert (n + 1) as real == n as real + 1.0;
  }

  /** What the day can still lose: the limit, and the largest size for every slot not yet open. */
  ghost predicate LossInv(cfg: Config, d: Desk)
    requires Valid(d.held)
  {
    d.risk.realized >= -cfg.lossLimit - Times(cfg.maxTotal - Exposure(d, Everything), MaxSize(cfg))
  }

  lemma MaxSizeNonNegative(cfg: Config)
    requires cfg.Sane()
    ensures MaxSize(cfg) >= 0.0
  {
    ProductNonNegative(cfg.lossLimit, cfg.pctOfLoss);
  }

  /** Fewer open positions, or a realized loss above the limit with every slot taken, keep the bound. */
  lemma FewerKeepsLoss(cfg: Config, d: Desk, e: Desk)
    requires cfg.Sane() && Valid(d.held) && Valid(e.held) && LossInv(cfg, d)
    requires e.risk.realized >= d.risk.realized && Exposure(e, Everything) <= Exposure(d, Everything)
    ensures LossInv(cfg, e)
  {
    MaxSizeNonNegative(cfg);
    TimesMore(cfg.maxTotal - Exposure(d, Everything), cfg.maxTotal - Exposure(e, Everything), MaxSize(cfg));
  }

  lemma AboveLimitKeepsLoss(cfg: Config, e: Desk)
    requires cfg.Sane() && Valid(e.held) && WithinCaps(cfg, e) && e.risk.realized >= -cfg.lossLimit
    ensures LossInv(cfg, e)
  {
    MaxSizeNonNegative(cfg);
    assert Cap(cfg, Everything).Some?;
    TimesMore(0, cfg.maxTotal - Exposure(e, Everything), MaxSize(cfg));
    assert Times(0, MaxSize(cfg)) == 0.0;
  }

  lemma CloseKeepsLoss(cfg: Config, d: Desk)
    requires cfg.Sane() && CapsInv(cfg, d) && LossInv(cfg, d)
    requires Enabled(d, Manages(Closed)) && LossCovered(cfg, d, Manages(Closed))
    ensures WellFormed(Apply(cfg, d, Manages(Closed))) && LossInv(cfg, Apply(cfg, d, Manages(Closed)))
  {
    var e, u := Apply(cfg, d, Manages(Closed)), d.pending[0];
    assert u in d.pending;
    StaysWellFormed(cfg, d, Manages(Closed));
    WithoutNoDuplicates(d.held.list, u);
    TallyOfAll(Values(d.held));
    TallyOfAll(Values(e.held));
    assert Exposure(e, Everything) == Exposure(d, Everything) - 1;
    TimesOneMore(cfg.maxTotal - Exposure(d, Everything), MaxSize(cfg));
  }

  lemma StepKeepsLoss(cfg: Config, d: Desk, s: Step)
    requires cfg.Sane() && CapsInv(cfg, d) && LossInv(cfg, d) && Orderly(d, s) && LossCovered(cfg, d, s)
    ensures WellFormed(Apply(cfg, d, s)) && LossInv(cfg, Apply(cfg, d, s))
  {
    var e := Apply(cfg, d, s);
    StepKeepsCaps(cfg, d, s);
    match s
    case DayCheck(today) => SameExposure(cfg, d, e); DayKeepsLoss(cfg, d, today);
    case OpenBegins(c) => if Sized(cfg, d, c).Some? { AboveLimitKeepsLoss(cfg, e); }
    case OpenLands(fill) => LandingKeepsTotal(cfg, d, fill); FewerKeepsLoss(cfg, d, e);
    case Allocates(split) => SameExposure(cfg, d, e); FewerKeepsLoss(cfg, d, e);
    case Refreshes(stocks, crypto) => RefreshKeepsCaps(cfg, d, stocks, crypto); FewerKeepsLoss(cfg, d, e);
    case Manages(decision) =>
      if decision.Closed? {
        CloseKeepsLoss(cfg, d);
      } else {
        assert d.pending[0] in d.pending;
        TallyOfAll(Values(d.held));
        TallyOfAll(Values(e.held));
        FewerKeepsLoss(cfg, d, e);
      }
    case PassAborts => SameExposure(cfg, d, e); FewerKeepsLoss(cfg, d, e);
  }

  lemma DayKeepsLoss(cfg: Config, d: Desk, today: int)
    requires cfg.Sane() && CapsInv(cfg, d) && LossInv(cfg, d)
    ensures LossInv(cfg, Apply(cfg, d, DayCheck(today)))
  {
    var e := Apply(cfg, d, DayCheck(today));
    SameExposure(cfg, d, e);
    if today != d.risk.day {
      AboveLimitKeepsLoss(cfg, e);
    }
  }

  lemma LandingKeepsTotal(cfg: Config, d: Desk, fill: Fill)
    requires cfg.Sane() && CapsInv(cfg, d) && d.opening.Some?
    ensures Valid(Apply(cfg, d, OpenLands(fill)).held)
    ensures Exposure(Apply(cfg, d, OpenLands(fill)), Everything) <= Exposure(d, Everything)
  {
    if Landed(cfg, d.opening.value, fill).Some? {
      LandExposure(cfg, d, fill, Everything);
    }
  }

  lemma {:induction false} RunKeepsLoss(cfg: Config, d: Desk, steps: seq<Step>)
    requires cfg.Sane() && CapsInv(cfg, d) && LossInv(cfg, d) && Legal(cfg, d, steps)
    requires OrderlyRun(cfg, d, steps) && CoveredRun(cfg, d, steps)
    ensures CapsInv(cfg, Run(cfg, d, steps)) && LossInv(cfg, Run(cfg, d, steps))
    decreases |steps|
  {
    if steps != [] {
      var init, last := steps[..|steps| - 1], steps[|steps| - 1];
      RunKeepsLoss(cfg, d, init);
      StepKeepsCaps(cfg, Run(cfg, d, init), last);
      StepKeepsLoss(cfg, Run(cfg, d, init), last);
    }
  }

  lemma LossInvBounds(cfg: Config, d: Desk)
    requires cfg.Sane() && Valid(d.held) && LossInv(cfg, d)
    ensures d.risk.realized >= -(cfg.lossLimit + Times(cfg.maxTotal, MaxSize(cfg)))
  {
    MaxSizeNonNegative(cfg);
    TimesMore(cfg.maxTotal - Exposure(d, Everything), cfg.maxTotal, MaxSize(cfg));
  }

  /** Concurrent daily loss bound. With closes landing while an open is in flight and positions carried
      over midnight, the day's realized loss stays within the limit plus one largest size for each
      position the caps allow, provided no close loses more than a position can be opened with. */
  lemma ConcurrentLossBound(cfg: Config, day: int, steps: seq<Step>)
    requires cfg.Sane() && Legal(cfg, Start(day), steps)
    requires OrderlyRun(cfg, Start(day), steps) && CoveredRun(cfg, Start(day), steps)
    ensures Run(cfg, Start(day), steps).risk.realized >= -(cfg.lossLimit + Times(cfg.maxTotal, MaxSize(cfg)))
  {
    StartKeepsCaps(cfg, day);
    AboveLimitKeepsLoss(cfg, Start(day));
    RunKeepsLoss(cfg, Start(day), steps);
    LossInvBounds(cfg, Run(cfg, Start(day), steps));
  }

  // -- what closes realize -------------------------------------------------------------------------------

  /** Profit is what the holding is worth at the current price less what it came to at the entry price. */
  lemma PnlIsGain(p: Position)
    ensures p.currentPrice != 0.0 ==> Bill(p.quantity, p.entryPrice) + p.Pnl() == Bill(p.quantity, p.currentPrice)
    ensures p.currentPrice == 0.0 ==> p.Pnl() == 0.0
  {
  }

  /** A close moves the day's profit by exactly that, and nothing if the holding has no price; it takes the
      holding off the list and its cost off the record of its market. */
  lemma CloseRealizesGain(cfg: Config, d: Desk)
    requires WellFormed(d) && Enabled(d, Manages(Closed))
    ensures var e, u := Apply(cfg, d, Manages(Closed)), d.pending[0];
            u in d.held.store &&
            var p := d.held.store[u];
            && (p.currentPrice != 0.0 ==>
                  e.risk.realized + Bill(p.quantity, p.entryPrice)
                    == d.risk.realized + Bill(p.quantity, p.currentPrice))
            && (p.currentPrice == 0.0 ==> e.risk.realized == d.risk.realized)
            && (Deployed(d.risk, p.market) >= 0.0 ==>
                  Deployed(e.risk, p.market) == Max(0.0, Deployed(d.risk, p.market) - p.amountUsd))
            && (forall v :: v in e.held.list <==> v in d.held.list && v != u)
  {
    assert d.pending[0] in d.pending;
    PnlIsGain(d.held.store[d.pending[0]]);
    WithoutMembers(d.held.list, d.pending[0]);
  }

  /** A trim realizes nothing: whatever it sold at, a close after it books only the rest, so the trimmed part
      of the gain or loss never reaches the day's profit. */
  lemma TrimGoesUnbooked(d: Desk, u: nat, fraction: real)
    requires u in d.held.store
    ensures var p, t := d.held.store[u], Manage(d, u, Trimmed(fraction));
            && t.risk == d.risk && u in t.held.store
            && Manage(t, u, Closed).risk.realized == Manage(d, u, Closed).risk.realized - p.Pnl() * fraction
  {
    var p, t := d.held.store[u], Manage(d, u, Trimmed(fraction));
    TrimIsProportional(p, fraction);
    assert t.held.store[u] == Smaller(p, fraction);
    assert p.Pnl() * (1.0 - fraction) == p.Pnl() - p.Pnl() * fraction;
  }

  // -- long positions ----------------------------------------------------------------------------------

  /** A long holding that came to no more than it was paid with, to the half cent shares are rounded by. */
  ghost predicate Backed(cfg: Config, p: Position, paid: real) {
    && p.quantity >= 0.0 && p.entryPrice >= 0.0 && p.currentPrice >= 0.0
    && Bill(p.quantity, p.entryPrice) <= MaxSize(cfg)
    && Bill(p.quantity, p.entryPrice) <= paid + (if p.market == Stocks then 0.005 else 0.0)
  }

  lemma BackedLosesLittle(cfg: Config, p: Position, paid: real)
    requires Backed(cfg, p, paid)
    ensures p.Pnl() >= -MaxSize(cfg) && p.Pnl() >= -paid - (if p.market == Stocks then 0.005 else 0.0)
  {
    PnlIsGain(p);
    ScaleLe(p.quantity, 0.0, p.currentPrice);
    ScaleLe(p.entryPrice, 0.0, p.quantity);
  }

  /** Less of it at the same entry price. */
  lemma BackedShrinks(cfg: Config, p: Position, q: Position, paid: real)
    requires Backed(cfg, p, paid) && q.market == p.market && q.entryPrice == p.entryPrice
    requires 0.0 <= q.quantity <= p.quantity && q.currentPrice >= 0.0
    ensures Backed(cfg, q, paid)
  {
    ScaleLe(p.entryPrice, q.quantity, p.quantity);
  }

  ghost predicate AllBacked(cfg: Config, d: Desk) {
    forall u :: u in d.held.list ==> u in d.held.store && u in d.paid && Backed(cfg, d.held.store[u], d.paid[u])
  }

  /** Every entry that reports a listed holding gives it a price that is not negative, and no more of it. */
  ghost predicate Modest(h: Holdings, snapshot: Option<seq<Position>>, m: Market) {
    snapshot.Some? ==>
      forall live, u :: live in snapshot.value && u in h.list && Is(h.store, u, m, KeyFor(m, live)) ==>
        0.0 <= live.quantity <= h.store[u].quantity && live.currentPrice >= 0.0
  }

  /** A crypto fill comes to no more than the order was for; reports are modest. */
  ghost predicate LongStep(d: Desk, s: Step) {
    match s
    case OpenLands(CryptoFill(q, p)) => d.opening.Some? ==> p >= 0.0 && Bill(q, p) <= d.opening.value.amount
    case Refreshes(stocks, crypto) => Modest(d.held, stocks, Stocks) && Modest(d.held, crypto, Crypto)
    case _ => true
  }

  lemma LandedBacked(cfg: Config, o: Opening, fill: Fill)
    requires IsCentRounding(cfg.round) && 0.0 < o.amount <= MaxSize(cfg)
    requires fill.CryptoFill? ==> fill.price >= 0.0 && Bill(fill.quantity, fill.price) <= o.amount
    requires Landed(cfg, o, fill).Some?
    ensures var p := Landed(cfg, o, fill).value; Backed(cfg, p, p.amountUsd)
  {
    match fill
    case CryptoStranded(q) =>
      DivNonNegative(o.amount, q);
      QuotientTimes(o.amount, q);
    case StockFill(stop) =>
      SharesCost(o.amount, o.candidate.price);
      StockCost(cfg, o, stop);
    case _ =>
  }

  lemma ReportKeepsBacked(cfg: Config, h: Holdings, snapshot: Option<seq<Position>>, u: nat, q: Position, paid: real)
    requires u in h.list && u in h.store && Backed(cfg, h.store[u], paid)
    requires Modest(h, snapshot, h.store[u].market)
    requires Follows(h.store[u], q, h.store[u].market, if snapshot.Some? then snapshot.value else [])
    ensures Backed(cfg, q, paid)
  {
    var p := h.store[u];
    SameButKeys(p, q);
    if q.quantity != p.quantity || q.currentPrice != p.currentPrice {
      var live :| live in snapshot.value && KeyFor(p.market, live) == KeyFor(p.market, p) &&
                  live.quantity == q.quantity && live.currentPrice == q.currentPrice;
      assert Is(h.store, u, p.market, KeyFor(p.market, live));
    }
    BackedShrinks(cfg, p, q, paid);
  }

  lemma RefreshKeepsBacked(cfg: Config, d: Desk, stocks: Option<seq<Position>>, crypto: Option<seq<Position>>)
    requires CapsInv(cfg, d) && AllBacked(cfg, d) && Orderly(d, Refreshes(stocks, crypto))
    requires LongStep(d, Refreshes(stocks, crypto))
    ensures AllBacked(cfg, Apply(cfg, d, Refreshes(stocks, crypto)))
  {
    hide Backed, Follows, Modest, Refresh;
    var e := Apply(cfg, d, Refreshes(stocks, crypto));
    RefreshBenign(d.held, stocks, crypto);
    forall u | u in e.held.list ensures u in e.held.store && u in d.paid && Backed(cfg, e.held.store[u], d.paid[u]) {
      var p := d.held.store[u];
      RefreshFollowsReports(d.held, stocks, crypto, u);
      ReportKeepsBacked(cfg, d.held, if p.market == Stocks then stocks else crypto, u, e.held.store[u], d.paid[u]);
    }
  }

  lemma SmallerHolds(p: Position, fraction: real)
    requires p.quantity >= 0.0 && 0.0 < fraction < 1.0
    ensures 0.0 <= Smaller(p, fraction).quantity <= p.quantity
  {
    ProductNonNegative(p.quantity, fraction);
    ProductNonNegative(p.quantity, 1.0 - fraction);
    assert p.quantity * (1.0 - fraction) == p.quantity - p.quantity * fraction;
  }

  lemma ManageKeepsBacked(cfg: Config, d: Desk, decision: Decision)
    requires CapsInv(cfg, d) && AllBacked(cfg, d) && Enabled(d, Manages(decision))
    ensures AllBacked(cfg, Apply(cfg, d, Manages(decision)))
  {
    var u := d.pending[0];
    assert u in d.pending;
    match decision
    case Trimmed(f) =>
      SmallerHolds(d.held.store[u], f);
      BackedShrinks(cfg, d.held.store[u], Smaller(d.held.store[u], f), d.paid[u]);
    case Closed => WithoutMembers(d.held.list, u);
    case _ =>
  }

  lemma StepKeepsBacked(cfg: Config, d: Desk, s: Step)
    requires cfg.Sane() && CapsInv(cfg, d) && AllBacked(cfg, d) && Orderly(d, s) && LongStep(d, s)
    ensures WellFormed(Apply(cfg, d, s)) && AllBacked(cfg, Apply(cfg, d, s))
  {
    StaysWellFormed(cfg, d, s);
    match s
    case OpenLands(fill) =>
      if Landed(cfg, d.opening.value, fill).Some? {
        LandedBacked(cfg, d.opening.value, fill);
      }
    case Refreshes(stocks, crypto) => RefreshKeepsBacked(cfg, d, stocks, crypto);
    case Manages(decision) => ManageKeepsBacked(cfg, d, decision);
    case _ =>
  }

  ghost predicate LongRun(cfg: Config, d: Desk, steps: seq<Step>)
    requires WellFormed(d) && Legal(cfg, d, steps)
    decreases |steps|
  {
    steps == [] ||
    (LongRun(cfg, d, steps[..|steps| - 1]) && LongStep(Run(cfg, d, steps[..|steps| - 1]), steps[|steps| - 1]))
  }

  lemma {:induction false} RunKeepsBacked(cfg: Config, d: Desk, steps: seq<Step>)
    requires cfg.Sane() && CapsInv(cfg, d) && AllBacked(cfg, d) && Legal(cfg, d, steps)
    requires OrderlyRun(cfg, d, steps) && LongRun(cfg, d, steps)
    ensures CapsInv(cfg, Run(cfg, d, steps)) && AllBacked(cfg, Run(cfg, d, steps)) && CoveredRun(cfg, d, steps)
    decreases |steps|
  {
    if steps != [] {
      hide CapsInv, Backed, LongStep, MaxSize;
      var init, last := steps[..|steps| - 1], steps[|steps| - 1];
      RunKeepsBacked(cfg, d, init);
      var before := Run(cfg, d, init);
      StepKeepsCaps(cfg, before, last);
      StepKeepsBacked(cfg, before, last);
      BackedCovers(cfg, before, last);
    }
  }

  lemma BackedCovers(cfg: Config, d: Desk, s: Step)
    requires CapsInv(cfg, d) && AllBacked(cfg, d)
    ensures LossCovered(cfg, d, s)
  {
    if d.pending != [] {
      var u := d.pending[0];
      assert u in d.pending;
      BackedLosesLittle(cfg, d.held.store[u], d.paid[u]);
    }
  }

  /** Long positions lose no more than was paid for them. On every run whose crypto fills come to no more than
      their orders and whose reports show prices that are not negative and never more of a holding than the
      desk has, trims and midnights included, each listed position stands at a loss of at most what the desk
      recorded for it, and half a cent on shares; so every close of the run is covered. */
  lemma LongsAreCovered(cfg: Config, day: int, steps: seq<Step>)
    requires cfg.Sane() && Legal(cfg, Start(day), steps)
    requires OrderlyRun(cfg, Start(day), steps) && LongRun(cfg, Start(day), steps)
    ensures CoveredRun(cfg, Start(day), steps)
    ensures var d := Run(cfg, Start(day), steps);
            forall u :: u in d.held.list ==>
              && u in d.held.store && u in d.paid
              && d.held.store[u].Pnl() >= -d.paid[u] - (if d.held.store[u].market == Stocks then 0.005 else 0.0)
  {
    StartKeepsCaps(cfg, day);
    RunKeepsBacked(cfg, Start(day), steps);
    var d := Run(cfg, Start(day), steps);
    forall u | u in d.held.list
      ensures d.held.store[u].Pnl() >= -d.paid[u] - (if d.held.store[u].market == Stocks then 0.005 else 0.0)
    {
      BackedLosesLittle(cfg, d.held.store[u], d.paid[u]);
    }
  }

  /** The loss bound for such runs, with nothing assumed of what closes lose. */
  lemma LongLossBound(cfg: Config, day: int, steps: seq<Step>)
    requires cfg.Sane() && Legal(cfg, Start(day), steps)
    requires OrderlyRun(cfg, Start(day), steps) && LongRun(cfg, Start(day), steps)
    ensures Run(cfg, Start(day), steps).risk.realized >= -(cfg.lossLimit + Times(cfg.maxTotal, MaxSize(cfg)))
  {
    LongsAreCovered(cfg, day, steps);
    ConcurrentLossBound(cfg, day, steps);
  }

  // -- what the desk holds ------------------------------------------------------------------------------

  /** What the listed positions of a market cost. */
  function Cost(store: map<nat, Position>, us: seq<nat>, m: Market): real {
    if us == [] then 0.0
    else
      var u := us[|us| - 1];
      Cost(store, us[..|us| - 1], m) + (if u in store && store[u].market == m then store[u].amountUsd else 0.0)
  }

  function OpenCost(d: Desk, m: Market): real {
    Cost(d.held.store, d.held.list, m)
  }

  lemma CostAppend(store: map<nat, Position>, us: seq<nat>, u: nat, m: Market)
    requires u in store
    ensures Cost(store, us + [u], m) == Cost(store, us, m) + (if store[u].market == m then store[u].amountUsd else 0.0)
  {
    assert (us + [u])[..|us|] == us;
  }

  lemma {:induction false} CostConcat(store: map<nat, Position>, a: seq<nat>, b: seq<nat>, m: Market)
    ensures Cost(store, a + b, m) == Cost(store, a, m) + Cost(store, b, m)
  {
    if b == [] {
      assert a + b == a;
    } else {
      CostConcat(store, a, b[..|b| - 1], m);
      assert (a + b)[..|a + b| - 1] == a + b[..|b| - 1];
    }
  }

  lemma {:induction false} CostSame(s: map<nat, Position>, t: map<nat, Position>, us: seq<nat>, m: Market)
    requires forall u :: u in us ==> u in s && u in t && s[u] == t[u]
    ensures Cost(s, us, m) == Cost(t, us, m)
  {
    if us != [] {
      assert us[|us| - 1] in us;
      CostSame(s, t, us[..|us| - 1], m);
    }
  }

  /** A duplicate-free choice among the entries of a list, none of them dearer than before, costs no more. */
  lemma {:induction false} CostShrinks(s: map<nat, Position>, a: seq<nat>, t: map<nat, Position>, b: seq<nat>,
      m: Market)
    requires NoDuplicates(a) && AmountsNonNegative(t)
    requires (forall u :: u in a ==> u in b && u in s) && (forall u :: u in b ==> u in t)
    requires forall u :: u in a ==> s[u].market == t[u].market && s[u].amountUsd <= t[u].amountUsd
    ensures Cost(s, a, m) <= Cost(t, b, m)
    decreases |a|
  {
    if a == [] {
      CostNonNegative(t, b, m);
    } else {
      var init, u := a[..|a| - 1], a[|a| - 1];
      assert a == init + [u] && u in a;
      var l, r := TakeOut(init, u, b);
      CostShrinks(s, init, t, l + r, m);
      CostWithoutOne(t, l, u, r, m);
    }
  }

  lemma CostWithoutOne(t: map<nat, Position>, l: seq<nat>, u: nat, r: seq<nat>, m: Market)
    requires u in t
    ensures Cost(t, l + [u] + r, m) == Cost(t, l + r, m) + (if t[u].market == m then t[u].amountUsd else 0.0)
  {
    CostConcat(t, l, r, m);
    CostConcat(t, l + [u], r, m);
    CostAppend(t, l, u, m);
  }

  lemma {:induction false} CostNonNegative(t: map<nat, Position>, us: seq<nat>, m: Market)
    requires AmountsNonNegative(t)
    ensures Cost(t, us, m) >= 0.0
  {
    if us != [] {
      CostNonNegative(t, us[..|us| - 1], m);
    }
  }

  /** Closing takes the position's cost off the list, once. */
  lemma {:induction false} CostOfWithout(t: map<nat, Position>, us: seq<nat>, u: nat, m: Market)
    requires NoDuplicates(us) && u in us && u in t
    ensures Cost(t, Without(us, u), m) == Cost(t, us, m) - (if t[u].market == m then t[u].amountUsd else 0.0)
  {
    var init, last := us[..|us| - 1], us[|us| - 1];
    assert us == init + [last];
    if last == u {
      assert forall i :: 0 <= i < |init| ==> init[i] != u;
      WithoutAbsent(init, u);
      assert Without(us, u) == init;
    } else {
      CostOfWithout(t, init, u, m);
      assert Without(us, u)[..|Without(init, u)|] == Without(init, u);
    }
  }

  lemma {:induction false} WithoutAbsent(us: seq<nat>, u: nat)
    requires forall i :: 0 <= i < |us| ==> us[i] != u
    ensures Without(us, u) == us
  {
    if us != [] {
      WithoutAbsent(us[..|us| - 1], u);
    }
  }

  /** What is recorded as deployed covers what the desk holds. */
  ghost predicate Covers(d: Desk, m: Market) {
    OpenCost(d, m) <= Deployed(d.risk, m)
  }

  ghost predicate SameDay(d: Desk, s: Step) {
    s.DayCheck? ==> s.today == d.risk.day
  }

  lemma LandCovers(cfg: Config, d: Desk, fill: Fill, m: Market)
    requires WellFormed(d) && Covers(d, m) && d.opening.Some?
    ensures Covers(Apply(cfg, d, OpenLands(fill)), m)
  {
    var e, landed := Apply(cfg, d, OpenLands(fill)), Landed(cfg, d.opening.value, fill);
    if landed.Some? {
      assert d.held.next !in d.held.store;
      CostSame(d.held.store, e.held.store, d.held.list, m);
      CostAppend(e.held.store, d.held.list, d.held.next, m);
    }
  }

  lemma RefreshCovers(cfg: Config, d: Desk, stocks: Option<seq<Position>>, crypto: Option<seq<Position>>, m: Market)
    requires WellFormed(d) && AmountsNonNegative(d.held.store) && NoDuplicates(d.held.list) && Covers(d, m)
    requires Orderly(d, Refreshes(stocks, crypto))
    ensures Covers(Apply(cfg, d, Refreshes(stocks, crypto)), m)
  {
    var r := Refresh(d.held, stocks, crypto);
    RefreshBenign(d.held, stocks, crypto);
    forall u | u in r.list
      ensures && u in d.held.store && r.store[u].market == d.held.store[u].market
              && r.store[u].amountUsd == d.held.store[u].amountUsd
    {
      SameButKeys(d.held.store[u], r.store[u]);
    }
    CostShrinks(r.store, r.list, d.held.store, d.held.list, m);
  }

  lemma SmallerCosts(p: Position, fraction: real)
    requires p.amountUsd >= 0.0 && 0.0 < fraction < 1.0
    ensures 0.0 <= Smaller(p, fraction).amountUsd <= p.amountUsd
  {
    ScaleLe(p.amountUsd, 1.0 - fraction, 1.0);
    ScaleLe(p.amountUsd, 0.0, 1.0 - fraction);
  }

  lemma ManageCovers(cfg: Config, d: Desk, decision: Decision, m: Market)
    requires WellFormed(d) && AmountsNonNegative(d.held.store) && NoDuplicates(d.held.list) && Covers(d, m)
    requires Enabled(d, Manages(decision)) && d.pending[0] in d.held.list
    ensures Covers(Apply(cfg, d, Manages(decision)), m)
  {
    var e, u := Apply(cfg, d, Manages(decision)), d.pending[0];
    if decision.Closed? {
      CostOfWithout(d.held.store, d.held.list, u, m);
    } else {
      if decision.Trimmed? {
        SmallerCosts(d.held.store[u], decision.fraction);
      }
      CostShrinks(e.held.store, e.held.list, d.held.store, d.held.list, m);
    }
  }

  lemma StepCovers(cfg: Config, d: Desk, s: Step, m: Market)
    requires WellFormed(d) && AmountsNonNegative(d.held.store) && Accounted(cfg, d) && Covers(d, m)
    requires Orderly(d, s) && SameDay(d, s)
    ensures Covers(Apply(cfg, d, s), m)
  {
    match s
    case OpenLands(fill) => LandCovers(cfg, d, fill, m);
    case Refreshes(stocks, crypto) => RefreshCovers(cfg, d, stocks, crypto, m);
    case Manages(decision) => assert d.pending[0] in d.pending; ManageCovers(cfg, d, decision, m);
    case _ =>
  }

  ghost predicate OneDay(cfg: Config, d: Desk, steps: seq<Step>)
    requires WellFormed(d) && Legal(cfg, d, steps)
    decreases |steps|
  {
    steps == [] ||
    (OneDay(cfg, d, steps[..|steps| - 1]) && SameDay(Run(cfg, d, steps[..|steps| - 1]), steps[|steps| - 1]))
  }

  lemma {:induction false} RunCovers(cfg: Config, d: Desk, steps: seq<Step>, m: Market)
    requires cfg.Sane() && CapsInv(cfg, d) && BudgetInv(d) && Covers(d, m) && Legal(cfg, d, steps)
    requires OrderlyRun(cfg, d, steps) && OneDay(cfg, d, steps)
    requires forall i :: 0 <= i < |steps| ==> NoShorts(steps[i])
    ensures CapsInv(cfg, Run(cfg, d, steps)) && BudgetInv(Run(cfg, d, steps)) && Covers(Run(cfg, d, steps), m)
    decreases |steps|
  {
    if steps != [] {
      var init, last := steps[..|steps| - 1], steps[|steps| - 1];
      RunCovers(cfg, d, init, m);
      var before := Run(cfg, d, init);
      StepKeepsCaps(cfg, before, last);
      StepKeepsBudgetInv(cfg, before, last);
      StepCovers(cfg, before, last, m);
    }
  }

  /** The record covers the book. Within a day, trims and all, what a market's open positions cost is
      never more than what is recorded as deployed, and so never more than half a cent above the largest
      budget the market has had. */
  lemma OpenCostWithinBudget(cfg: Config, day: int, steps: seq<Step>, m: Market)
    requires cfg.Sane() && Legal(cfg, Start(day), steps) && OrderlyRun(cfg, Start(day), steps)
    requires OneDay(cfg, Start(day), steps) && forall i :: 0 <= i < |steps| ==> NoShorts(steps[i])
    ensures var d := Run(cfg, Start(day), steps);
            OpenCost(d, m) <= Deployed(d.risk, m) <= PeakBudget(cfg, Start(day), steps, m) + 0.005
  {
    StartKeepsCaps(cfg, day);
    RunCovers(cfg, Start(day), steps, m);
    BudgetBound(cfg, day, steps, m);
  }

  /** Midnight is what breaks it: after the reset nothing is recorded, whatever is still open. */
  lemma MidnightForgets(cfg: Config, d: Desk, today: int, m: Market)
    requires WellFormed(d) && today != d.risk.day
    ensures var e := Apply(cfg, d, DayCheck(today));
            Deployed(e.risk, m) == 0.0 && OpenCost(e, m) == OpenCost(d, m) && (Covers(e, m) <==> OpenCost(d, m) <= 0.0)
  {
  }

  /** A reset that finds something open at a cost. */
  predicate Forgets(d: Desk, s: Step, m: Market) {
    s.DayCheck? && s.today != d.risk.day && OpenCost(d, m) > 0.0
  }

  ghost predicate CoversThroughout(cfg: Config, d: Desk, steps: seq<Step>, m: Market)
    requires WellFormed(d) && Legal(cfg, d, steps)
    decreases |steps|
  {
    Covers(Run(cfg, d, steps), m) && (steps != [] ==> CoversThroughout(cfg, d, steps[..|steps| - 1], m))
  }

  ghost predicate ForgetsNowhere(cfg: Config, d: Desk, steps: seq<Step>, m: Market)
    requires WellFormed(d) && Legal(cfg, d, steps)
    decreases |steps|
  {
    steps != [] ==>
      && ForgetsNowhere(cfg, d, steps[..|steps| - 1], m)
      && !Forgets(Run(cfg, d, steps[..|steps| - 1]), steps[|steps| - 1], m)
  }

  lemma {:induction false} RunCoversIff(cfg: Config, d: Desk, steps: seq<Step>, m: Market)
    requires cfg.Sane() && CapsInv(cfg, d) && BudgetInv(d) && Covers(d, m) && Legal(cfg, d, steps)
    requires OrderlyRun(cfg, d, steps) && forall i :: 0 <= i < |steps| ==> NoShorts(steps[i])
    ensures CapsInv(cfg, Run(cfg, d, steps)) && BudgetInv(Run(cfg, d, steps))
    ensures CoversThroughout(cfg, d, steps, m) <==> ForgetsNowhere(cfg, d, steps, m)
    decreases |steps|
  {
    if steps != [] {
      hide CapsInv, BudgetInv, Covers;
      var init, last := steps[..|steps| - 1], steps[|steps| - 1];
      RunCoversIff(cfg, d, init, m);
      var before := Run(cfg, d, init);
      StepKeepsCaps(cfg, before, last);
      StepKeepsBudgetInv(cfg, before, last);
      if Covers(before, m) {
        StepCoversIff(cfg, before, last, m);
      }
    }
  }

  lemma StepCoversIff(cfg: Config, d: Desk, s: Step, m: Market)
    requires CapsInv(cfg, d) && BudgetInv(d) && Covers(d, m) && Orderly(d, s)
    ensures WellFormed(Apply(cfg, d, s)) && (Covers(Apply(cfg, d, s), m) <==> !Forgets(d, s, m))
  {
    StaysWellFormed(cfg, d, s);
    if s.DayCheck? && s.today != d.risk.day {
      MidnightForgets(cfg, d, s.today, m);
    } else {
      StepCovers(cfg, d, s, m);
    }
  }

  /** Over any number of days: on every run that imports nothing and no short, the record covers the book at
      every await exactly when no reset of the run finds something open at a cost. */
  lemma CoversIff(cfg: Config, day: int, steps: seq<Step>, m: Market)
    requires cfg.Sane() && Legal(cfg, Start(day), steps) && OrderlyRun(cfg, Start(day), steps)
    requires forall i :: 0 <= i < |steps| ==> NoShorts(steps[i])
    ensures CoversThroughout(cfg, Start(day), steps, m) <==> ForgetsNowhere(cfg, Start(day), steps, m)
  {
    StartKeepsCaps(cfg, day);
    RunCoversIff(cfg, Start(day), steps, m);
  }

  // -- runs that reach these cases ------------------------------------------------------------------------

  lemma Grows(cfg: Config, d: Desk, steps: seq<Step>, s: Step)
    requires WellFormed(d) && Legal(cfg, d, steps) && Enabled(Run(cfg, d, steps), s)
    ensures Legal(cfg, d, steps + [s]) && Run(cfg, d, steps + [s]) == Apply(cfg, Run(cfg, d, steps), s)
    ensures OrderlyRun(cfg, d, steps) && Orderly(Run(cfg, d, steps), s) ==> OrderlyRun(cfg, d, steps + [s])
  {
    assert (steps + [s])[..|steps|] == steps;
  }

  /** Open, fill, pass midnight: under every configuration that lets a first crypto open through, the cost of
      the position outlives its record. */
  lemma OpenOverMidnight(cfg: Config, day: int, c: Candidate, quantity: real, price: real) returns (steps: seq<Step>)
    requires cfg.Sane() && c.market == Crypto && quantity > 0.0 && Sized(cfg, Start(day), c).Some?
    ensures Legal(cfg, Start(day), steps) && OrderlyRun(cfg, Start(day), steps)
    ensures var d := Run(cfg, Start(day), steps);
            Deployed(d.risk, Crypto) == 0.0 && OpenCost(d, Crypto) > 0.0 && !Covers(d, Crypto)
  {
    var start := Start(day);
    var _ := SizedWithinBudget(cfg, start, c);
    steps := [];
    Grows(cfg, start, steps, OpenBegins(c));
    steps := steps + [OpenBegins(c)];
    Grows(cfg, start, steps, OpenLands(CryptoFill(quantity, price)));
    steps := steps + [OpenLands(CryptoFill(quantity, price))];
    var d := Run(cfg, start, steps);
    CostAppend(d.held.store, [], 0, Crypto);
    assert d.held.list == [] + [0];
    Grows(cfg, start, steps, DayCheck(day + 1));
    steps := steps + [DayCheck(day + 1)];
  }

  /** Such configurations exist: the defaults of the risk manager, rounding half up. */
  lemma DefaultsOpen(day: int, c: Candidate) returns (cfg: Config)
    requires c.market == Crypto
    ensures cfg.Sane() && Sized(cfg, Start(day), c).Some?
  {
    cfg := Config(1000.0, 200.0, 10, 6, 6, 2, 1.0, 1.0, 0.15, 0.25, HalfUp);
    HalfUpIsCentRounding();
    DefaultSize(cfg, day, c.sizeScore);
  }

  lemma DefaultSize(cfg: Config, day: int, score: real)
    requires cfg == Config(1000.0, 200.0, 10, 6, 6, 2, 1.0, 1.0, 0.15, 0.25, HalfUp)
    ensures PositionSize(cfg, Start(day).risk, Crypto, score) > 0.0
  {
    var s := Start(day).risk;
    assert Budget(cfg, s, Crypto) == 500.0 && LossRoom(cfg, s) == 200.0;
    assert RawSize(cfg, s, Crypto) == 50.0;
    var x := Scaled(cfg, s, Crypto, score);
    assert x == 50.0 * Confidence(score) >= 25.0;
    HalfUpNear(x);
  }

  /** Import a short of any size and close it: what is recorded as deployed rises by that size, past any
      budget. */
  lemma ShortImportedAndClosed(cfg: Config, day: int, short: Position) returns (steps: seq<Step>)
    requires cfg.Sane() && short.market == Stocks && short.amountUsd < 0.0
    ensures Legal(cfg, Start(day), steps)
    ensures Deployed(Run(cfg, Start(day), steps).risk, Stocks) == -short.amountUsd
    ensures PeakBudget(cfg, Start(day), steps, Stocks) == Max(0.0, Budget(cfg, Start(day).risk, Stocks))
  {
    hide Run, Legal, Budget, PeakBudget, Apply, Deployed;
    var start, close := Start(day), Manages(Closed);
    steps := ImportShort(cfg, day, short);
    CloseShort(cfg, day, short);
    Grows(cfg, start, steps, close);
    PeakGrows(cfg, start, steps, close, Stocks);
    SameBudget(cfg, start.risk, Run(cfg, start, steps + [close]).risk, Stocks);
    steps := steps + [close];
  }

  lemma CloseShort(cfg: Config, day: int, short: Position)
    requires short.market == Stocks && short.amountUsd < 0.0
    ensures var d := Start(day).(held := Holdings(map[0 := short], [0], 1), pending := [0]);
            var e := Apply(cfg, d, Manages(Closed));
            WellFormed(d) && Enabled(d, Manages(Closed)) && Deployed(e.risk, Stocks) == -short.amountUsd &&
            e.risk.split == Start(day).risk.split
  {
  }

  lemma ImportShort(cfg: Config, day: int, short: Position) returns (steps: seq<Step>)
    requires cfg.Sane() && short.market == Stocks
    ensures Legal(cfg, Start(day), steps)
    ensures Run(cfg, Start(day), steps) == Start(day).(held := Holdings(map[0 := short], [0], 1), pending := [0])
    ensures PeakBudget(cfg, Start(day), steps, Stocks) == Max(0.0, Budget(cfg, Start(day).risk, Stocks))
  {
    hide Apply, Budget, Max;
    var start, merge := Start(day), Refreshes(Some([short]), None);
    AdoptsOne(cfg, day, short);
    Grows(cfg, start, [], merge);
    hide Run, Legal;
    PeakOfOne(cfg, start, [] + [merge], Stocks);
    steps := [] + [merge];
  }

  lemma SameBudget(cfg: Config, s: State, t: State, m: Market)
    requires s.split == t.split
    ensures Budget(cfg, s, m) == Budget(cfg, t, m)
  {
  }

  lemma AdoptsOne(cfg: Config, day: int, p: Position)
    requires p.market == Stocks
    ensures var d, merge := Start(day), Refreshes(Some([p]), None);
            Enabled(d, merge) && Apply(cfg, d, merge) == d.(held := Holdings(map[0 := p], [0], 1), pending := [0])
  {
    var h := Start(day).held;
    assert [p][..0] == [];
    assert MergeAll(h, Stocks, h, [p]) == MergeOne(h, Stocks, h, p);
    assert h.list + [0] == [0];
  }

  lemma PeakOfOne(cfg: Config, d: Desk, steps: seq<Step>, m: Market)
    requires WellFormed(d) && |steps| == 1 && Legal(cfg, d, steps) && Run(cfg, d, steps).risk.split == d.risk.split
    ensures PeakBudget(cfg, d, steps, m) == Max(0.0, Budget(cfg, d.risk, m))
  {
    assert steps[..0] == [];
    SameBudget(cfg, d.risk, Run(cfg, d, steps).risk, m);
  }

  lemma PeakGrows(cfg: Config, d: Desk, steps: seq<Step>, s: Step, m: Market)
    requires WellFormed(d) && Legal(cfg, d, steps) && Legal(cfg, d, steps + [s])
    ensures PeakBudget(cfg, d, steps + [s], m) ==
              Max(Max(0.0, Budget(cfg, Run(cfg, d, steps + [s]).risk, m)), PeakBudget(cfg, d, steps, m))
  {
    assert (steps + [s])[..|steps|] == steps;
  }

  // -- single positions -----------------------------------------------------------------------------------

  /** As many whole shares are bought as the size pays for, and entered at what they cost, to half a cent, with
      the stop of the bracket. */
  lemma StockCost(cfg: Config, o: Opening, stop: real)
    requires IsCentRounding(cfg.round) && Landed(cfg, o, StockFill(stop)).Some?
    ensures var p := Landed(cfg, o, StockFill(stop)).value;
            && -0.005 <= p.amountUsd - Bill(p.quantity, p.entryPrice) <= 0.005
            && Bill(p.quantity, o.candidate.price) <= o.amount < Bill(p.quantity + 1.0, o.candidate.price)
            && p.entryPrice == o.candidate.price && p.Pnl() == 0.0 && p.stopPrice == stop
            && p.symbol == o.candidate.symbol
  {
    hide Bill, Shares;
    MostShares(o.amount, o.candidate.price);
    RoundsWithin(cfg, Bill(Shares(o.amount, o.candidate.price) as real, o.candidate.price));
  }

  lemma MostShares(amount: real, price: real)
    requires price > 0.0
    ensures var n := Shares(amount, price) as real; Bill(n, price) <= amount < Bill(n + 1.0, price)
  {
    var q, n := amount / price, Shares(amount, price) as real;
    QuotientTimes(amount, price);
    assert Bill(q, price) == amount;
    hide Bill;
    BillsGrow(price, n, q);
    BillsGrow(price, q, n + 1.0);
  }

  lemma BillsGrow(price: real, fewer: real, more: real)
    requires price > 0.0 && fewer <= more
    ensures Bill(fewer, price) <= Bill(more, price)
    ensures fewer < more ==> Bill(fewer, price) < Bill(more, price)
  {
  }

  lemma RoundsWithin(cfg: Config, x: real)
    requires IsCentRounding(cfg.round)
    ensures -0.005 <= (cfg.round)(x) - x <= 0.005
  {
  }

  /** A tightened stop is `pct` of the price below the price, and nothing else about the position changes. It is
      a tighter one exactly when the old stop was lower still: the code does not compare the two. */
  lemma TightensIff(p: Position, pct: real)
    requires p.currentPrice > 0.0 && 0.0 < pct < 1.0
    ensures var q := Tighter(p, pct);
            && 0.0 < q.stopPrice < p.currentPrice && q.stopPrice == p.currentPrice - Bill(pct, p.currentPrice)
            && (q.stopPrice > p.stopPrice <==> p.currentPrice - p.stopPrice > Bill(pct, p.currentPrice))
            && q.(stopPrice := p.stopPrice) == p
  {
    assert p.currentPrice * (1.0 - pct) == p.currentPrice - Bill(pct, p.currentPrice);
    ProductPositive(pct, p.currentPrice);
    ProductPositive(p.currentPrice, 1.0 - pct);
  }

  lemma ProductPositive(x: real, y: real)
    requires x > 0.0 && y > 0.0
    ensures x * y > 0.0
  {
  }

  /** A trim takes the same fraction off quantity, cost and unrealized profit, and leaves the cost of a
      unit where it was. */
  lemma TrimIsProportional(p: Position, fraction: real)
    ensures var q := Smaller(p, fraction);
            && q.amountUsd * p.quantity == p.amountUsd * q.quantity
            && q.Pnl() == p.Pnl() * (1.0 - fraction)
            && q.entryPrice == p.entryPrice && q.stopPrice == p.stopPrice && q.Key() == p.Key()
  {
    Associates(p.amountUsd, 1.0 - fraction, p.quantity);
    Associates(p.currentPrice - p.entryPrice, p.quantity, 1.0 - fraction);
  }

  lemma Associates(x: real, y: real, z: real)
    ensures x * y * z == x * (z * y) && x * y * z == x * (y * z)
  {
  }
}
