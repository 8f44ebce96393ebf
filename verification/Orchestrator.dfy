/** The orchestrator as an object (src/desk.py). Each method is the code one loop runs between two
    awaits, and carries out exactly one step of the system the safety results are about. */
module Orchestrator {
  import opened Models
  import opened Allocation
  import opened Risk
  import opened Holdings
  import opened Desk

  function Lookup(known: map<string, nat>, key: string): Option<nat> {
    if key in known then Some(known[key]) else None
  }

  /** The dict agrees with a search through the list. */
  ghost predicate Indexes(known: map<string, nat>, store: map<nat, Position>, list: seq<nat>, m: Market) {
    forall key :: Lookup(known, key) == Known(store, list, m, key)
  }

  /** What a merge touches does not change what a position is matched by. */
  lemma {:induction false} SameKnown(h: Holdings, acc: Holdings, list: seq<nat>, m: Market, key: string)
    requires Extends(h, acc) && forall u :: u in list ==> u in h.store
    ensures Known(acc.store, list, m, key) == Known(h.store, list, m, key)
  {
    if list != [] {
      var u := list[|list| - 1];
      assert u in list;
      SameButKeys(h.store[u], acc.store[u]);
      SameKnown(h, acc, list[..|list| - 1], m, key);
    }
  }

  lemma {:induction false} SameDictKeys(h: Holdings, acc: Holdings, list: seq<nat>)
    requires Extends(h, acc) && forall u :: u in list ==> u in h.store
    ensures DictKeys(acc.store, list) == DictKeys(h.store, list)
  {
    if list != [] {
      var u := list[|list| - 1];
      assert u in list;
      SameButKeys(h.store[u], acc.store[u]);
      SameDictKeys(h, acc, list[..|list| - 1]);
    }
  }

  lemma MergeAllNext(h: Holdings, m: Market, base: Holdings, lives: seq<Position>, i: nat)
    requires i < |lives|
    ensures MergeAll(h, m, base, lives[..i + 1]) == MergeOne(h, m, MergeAll(h, m, base, lives[..i]), lives[i])
  {
    assert lives[..i + 1][..i] == lives[..i];
  }

  class TradingDesk {
    const risk: RiskManager
    var store: map<nat, Position>
    var positions: seq<nat>
    var next: nat
    var opening: Option<Opening>
    var pending: seq<nat>
    ghost var paid: map<nat, real>

    ghost function Held(): Holdings
      reads this
    {
      Holdings(store, positions, next)
    }

    ghost function Now(): Desk
      reads this, risk
    {
      Desk(risk.Now(), Held(), opening, pending, paid)
    }

    constructor (risk: RiskManager)
      ensures this.risk == risk && Now() == Start(risk.sessionDate).(risk := risk.Now())
    {
      this.risk := risk;
      store, positions, next := map[], [], 0;
      opening, pending, paid := None, [], map[];
    }

    method CheckDay(today: int)
      requires WellFormed(Now())
      modifies risk
      ensures Now() == Apply(risk.cfg, old(Now()), DayCheck(today)) && WellFormed(Now())
    {
      var _ := risk.MaybeResetDay(today);
    }

    method Allocate(split: Split)
      requires WellFormed(Now())
      modifies risk
      ensures Now() == Apply(risk.cfg, old(Now()), Allocates(split)) && WellFormed(Now())
    {
      var _ := risk.SetAllocation(split);
    }

    /** The listed positions, in order. */
    method Book() returns (book: seq<Position>)
      requires Valid(Held())
      ensures book == Values(Held())
    {
      book := [];
      for i := 0 to |positions|
        invariant |book| == i && forall j :: 0 <= j < i ==> book[j] == Values(Held())[j]
      {
        assert positions[i] in Held().list;
        book := book + [store[positions[i]]];
      }
    }

    /** Under the lock: gate, then size. Nothing is sized while another order is in flight. */
    method BeginOpen(c: Candidate)
      requires WellFormed(Now())
      modifies this
      ensures Now() == Apply(risk.cfg, old(Now()), OpenBegins(c)) && WellFormed(Now())
    {
      if opening.Some? {
        return;
      }
      var book := Book();
      var sector := if c.market == Stocks then c.sector else "unknown";
      if CanOpen(risk.cfg, risk.Now(), c.market, book, sector, 0.0) != Allowed {
        return;
      }
      var amount := PositionSize(risk.cfg, risk.Now(), c.market, c.sizeScore);
      if amount <= 0.0 {
        return;
      }
      opening := Some(Opening(c, amount));
    }

    /** The order has come back: record what it put on the desk and release the lock. */
    method LandOpen(fill: Fill)
      requires WellFormed(Now())
      modifies this, risk
      ensures Now() == Apply(risk.cfg, old(Now()), OpenLands(fill)) && WellFormed(Now())
    {
      if opening.None? {
        return;
      }
      var landed := Landed(risk.cfg, opening.value, fill);
      opening := None;
      if landed.Some? {
        var p := landed.value;
        risk.RecordFill(p.market, p.amountUsd);
        store, positions := store[next := p], positions + [next];
        paid := paid[next := p.amountUsd];
        next := next + 1;
      }
    }

    method Index(m: Market) returns (known: map<string, nat>, keys: seq<string>)
      requires forall u :: u in positions ==> u in store
      ensures Indexes(known, store, positions, m)
      ensures m == Crypto ==> keys == DictKeys(store, positions)
    {
      known, keys := map[], [];
      for i := 0 to |positions|
        invariant Indexes(known, store, positions[..i], m)
        invariant m == Crypto ==> keys == DictKeys(store, positions[..i])
      {
        var u := positions[i];
        assert positions[..i + 1] == positions[..i] + [u] && u in positions;
        if store[u].market == m {
          var key := KeyFor(m, store[u]);
          if key !in keys {
            keys := keys + [key];
          }
          known := known[key := u];
        }
      }
      assert positions[..|positions|] == positions;
    }

    /** One entry of a snapshot: update what is known in place, adopt what is not. */
    method MergeEntry(m: Market, known: map<string, nat>, live: Position, merged: seq<nat>, ghost h: Holdings)
      returns (longer: seq<nat>)
      requires Valid(h) && Extends(h, Holdings(store, merged, next)) && Indexes(known, h.store, h.list, m)
      modifies this`store, this`next
      ensures Holdings(store, longer, next) == MergeOne(h, m, old(Holdings(store, merged, next)), live)
    {
      hide Known;
      var key := KeyFor(m, live);
      assert Lookup(known, key) == Known(h.store, h.list, m, key);
      if key in known {
        var u := known[key];
        store, longer := store[u := Updated(store[u], live, m)], merged + [u];
      } else {
        store, longer := store[next := live], merged + [next];
        next := next + 1;
      }
    }

    /** Walk one snapshot. */
    method Merge(m: Market, known: map<string, nat>, lives: seq<Position>, ghost h: Holdings) returns (merged: seq<nat>)
      requires Valid(h) && Extends(h, Held()) && AllOf(lives, m) && Indexes(known, h.store, h.list, m)
      modifies this`store, this`next
      ensures Holdings(store, merged, next) == MergeAll(h, m, old(Held()), lives)
    {
      merged := [];
      ghost var base := Held();
      for i := 0 to |lives|
        invariant Holdings(store, merged, next) == MergeAll(h, m, base, lives[..i])
      {
        hide MergeAll, MergeOne, Indexes, Extends, Valid;
        MergeAllNext(h, m, base, lives, i);
        MergeAllExtends(h, m, base, lives[..i]);
        merged := MergeEntry(m, known, lives[i], merged, h);
      }
      assert lives[..|lives|] == lives;
    }

    method KeptEntries(m: Market) returns (kept: seq<nat>)
      requires forall u :: u in positions ==> u in store
      ensures kept == Kept(store, positions, m)
    {
      kept := [];
      for i := 0 to |positions|
        invariant kept == Kept(store, positions[..i], m)
      {
        assert positions[..i + 1][..i] == positions[..i] && positions[i] in positions;
        if store[positions[i]].market == m {
          kept := kept + [positions[i]];
        }
      }
      assert positions[..|positions|] == positions;
    }

    /** Desk-only lots the wallet snapshot did not mention. */
    method Unseen(known: map<string, nat>, keys: seq<string>, seen: set<string>, ghost h: Holdings)
      returns (rest: seq<nat>)
      requires Indexes(known, h.store, h.list, Crypto)
      ensures rest == Leftover(h, keys, seen)
    {
      rest := [];
      for i := 0 to |keys|
        invariant rest == Leftover(h, keys[..i], seen)
      {
        assert keys[..i + 1][..i] == keys[..i];
        assert Lookup(known, keys[i]) == Known(h.store, h.list, Crypto, keys[i]);
        if keys[i] !in seen && keys[i] in known {
          rest := rest + [known[keys[i]]];
        }
      }
      assert keys[..|keys|] == keys;
    }

    method RefreshStocks(stocks: Option<seq<Position>>) returns (merged: seq<nat>)
      requires Valid(Held()) && SnapshotOf(stocks, Stocks)
      modifies this`store, this`next
      ensures Holdings(store, merged, next) == MergeStocks(old(Held()), stocks)
    {
      if stocks.None? {
        merged := KeptEntries(Stocks);
      } else {
        var known, _ := Index(Stocks);
        merged := Merge(Stocks, known, stocks.value, Held());
      }
    }

    /** The dict of crypto mints is built after the stock half, over positions whose keys it left alone. */
    method IndexCrypto(ghost h: Holdings) returns (known: map<string, nat>, keys: seq<string>)
      requires Valid(h) && Extends(h, Held()) && positions == h.list
      ensures Indexes(known, h.store, h.list, Crypto) && keys == DictKeys(h.store, h.list)
    {
      known, keys := Index(Crypto);
      forall key ensures Lookup(known, key) == Known(h.store, h.list, Crypto, key) {
        SameKnown(h, Held(), h.list, Crypto, key);
        assert Lookup(known, key) == Known(store, positions, Crypto, key);
      }
      SameDictKeys(h, Held(), h.list);
    }

    method RefreshCrypto(crypto: Option<seq<Position>>, ghost h: Holdings) returns (merged: seq<nat>)
      requires Valid(h) && Extends(h, Held()) && positions == h.list && SnapshotOf(crypto, Crypto)
      modifies this`store, this`next
      ensures Holdings(store, merged, next) == MergeCrypto(h, old(Held()), crypto)
    {
      if crypto.None? {
        SameKept(h, Held(), h.list, Crypto);
        merged := KeptEntries(Crypto);
      } else {
        var known, keys := IndexCrypto(h);
        var seen := set i | 0 <= i < |crypto.value| :: KeyFor(Crypto, crypto.value[i]);
        merged := Merge(Crypto, known, crypto.value, h);
        var rest := Unseen(known, keys, seen, h);
        merged := merged + rest;
      }
    }

    /** Merge the broker's and the wallet's snapshots; `None` is one that could not be read. */
    method RefreshPositions(stocks: Option<seq<Position>>, crypto: Option<seq<Position>>)
      requires WellFormed(Now()) && SnapshotOf(stocks, Stocks) && SnapshotOf(crypto, Crypto)
      modifies this
      ensures Now() == Apply(risk.cfg, old(Now()), Refreshes(stocks, crypto)) && WellFormed(Now())
    {
      ghost var h := Held();
      StockHalf(h, stocks);
      RefreshKept(h, stocks, crypto);
      var merged := RefreshStocks(stocks);
      MergeCryptoIgnoresList(h, Held(), MergeStocks(h, stocks), crypto);
      var mergedCrypto := RefreshCrypto(crypto, h);
      positions := merged + mergedCrypto;
      pending := positions;
    }

    method Remove(u: nat)
      modifies this`positions
      ensures positions == Without(old(positions), u)
    {
      var rest := [];
      for i := 0 to |positions|
        invariant rest == Without(positions[..i], u)
      {
        assert positions[..i + 1][..i] == positions[..i];
        if positions[i] != u {
          rest := rest + [positions[i]];
        }
      }
      assert positions[..|positions|] == positions;
      positions := rest;
    }

    method Tighten(u: nat, pct: real)
      requires u in store
      modifies this`store
      ensures Now() == Manage(old(Now()), u, Tightened(pct))
    {
      store := store[u := Tighter(store[u], pct)];
    }

    method Trim(u: nat, fraction: real)
      requires u in store
      modifies this`store
      ensures Now() == Manage(old(Now()), u, Trimmed(fraction))
    {
      store := store[u := Smaller(store[u], fraction)];
    }

    method Close(u: nat)
      requires u in store
      modifies this`positions, risk
      ensures Now() == Manage(old(Now()), u, Closed)
    {
      var p := store[u];
      risk.RecordClose(p.market, p.Pnl(), p.amountUsd);
      Remove(u);
    }

    /** One position of the exit pass; its decision has come back from the exit manager. */
    method ManagePosition(decision: Decision)
      requires WellFormed(Now()) && Enabled(Now(), Manages(decision))
      modifies this, risk
      ensures Now() == Apply(risk.cfg, old(Now()), Manages(decision)) && WellFormed(Now())
    {
      StaysWellFormed(risk.cfg, Now(), Manages(decision));
      var u := pending[0];
      assert u in pending;
      pending := pending[1..];
      match decision
      case Untouched =>
      case Tightened(pct) => Tighten(u, pct);
      case Trimmed(fraction) => Trim(u, fraction);
      case Closed => Close(u);
    }

    method AbortPass()
      requires WellFormed(Now())
      modifies this
      ensures Now() == Apply(risk.cfg, old(Now()), PassAborts) && WellFormed(Now())
    {
      pending := [];
    }
  }

  lemma {:induction false} SameKept(h: Holdings, acc: Holdings, list: seq<nat>, m: Market)
    requires Extends(h, acc) && forall u :: u in list ==> u in h.store
    ensures Kept(acc.store, list, m) == Kept(h.store, list, m)
  {
    if list != [] {
      var u := list[|list| - 1];
      assert u in list;
      SameButKeys(h.store[u], acc.store[u]);
      SameKept(h, acc, list[..|list| - 1], m);
    }
  }

  lemma {:induction false} MergeAllIgnoresList(h: Holdings, m: Market, a: Holdings, b: Holdings, lives: seq<Position>)
    requires a.store == b.store && a.next == b.next
    ensures MergeAll(h, m, a, lives) == MergeAll(h, m, b, lives)
  {
    if lives != [] {
      MergeAllIgnoresList(h, m, a, b, lives[..|lives| - 1]);
    }
  }

  lemma MergeCryptoIgnoresList(h: Holdings, a: Holdings, b: Holdings, crypto: Option<seq<Position>>)
    requires a.store == b.store && a.next == b.next
    ensures MergeCrypto(h, a, crypto) == MergeCrypto(h, b, crypto)
  {
    if crypto.Some? {
      MergeAllIgnoresList(h, Crypto, a, b, crypto.value);
    }
  }
}
