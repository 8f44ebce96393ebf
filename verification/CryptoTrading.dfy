/** The desk and its executor together (the ends of `_open_crypto` and `manage_position` in src/desk.py,
    of `buy` and `sell` in src/crypto/crypto_executor.py). Each method is the code from the last await of an
    order to its record, and carries out exactly one step of the session the recovery results are about. */
module CryptoTrading {
  import opened Models
  import opened EventLog
  import opened Ledger
  import opened CryptoExecutor
  import opened Session

  /** One entry of the desk's list: the object it refers to, and that object's mint. Two entries may be the
      same object, when a snapshot lists a mint twice. */
  datatype Entry = Entry(id: nat, mint: Mint)

  function Mints(entries: seq<Entry>): multiset<Mint> {
    if entries == [] then multiset{}
    else Mints(entries[..|entries| - 1]) + multiset{entries[|entries| - 1].mint}
  }

  /** Every entry but those of the object `id`. */
  function Others(entries: seq<Entry>, id: nat): seq<Entry> {
    if entries == [] then []
    else
      var last := entries[|entries| - 1];
      Others(entries[..|entries| - 1], id) + (if last.id == id then [] else [last])
  }

  function Occurrences(entries: seq<Entry>, id: nat): nat {
    if entries == [] then 0
    else Occurrences(entries[..|entries| - 1], id) + (if entries[|entries| - 1].id == id then 1 else 0)
  }

  /** Each object has one mint and an identity already given out. */
  ghost predicate InOrder(entries: seq<Entry>, next: nat) {
    && (forall e, f :: e in entries && f in entries && e.id == f.id ==> e.mint == f.mint)
    && (forall e :: e in entries ==> e.id < next)
  }

  lemma NewInOrder(entries: seq<Entry>, next: nat, m: Mint)
    requires InOrder(entries, next)
    ensures InOrder(entries + [Entry(next, m)], next + 1)
  {
  }

  lemma MintsAppend(entries: seq<Entry>, e: Entry)
    ensures Mints(entries + [e]) == Mints(entries) + multiset{e.mint}
  {
    assert (entries + [e])[..|entries|] == entries;
  }

  lemma WithoutOneMore(ms: multiset<Mint>, m: Mint, n: nat)
    requires n <= ms[m]
    ensures Without(ms + multiset{m}, m, n + 1) == Without(ms, m, n)
  {
  }

  lemma WithoutElsewhere(ms: multiset<Mint>, m: Mint, n: nat, k: Mint)
    requires n <= ms[m]
    ensures Without(ms + multiset{k}, m, n) == Without(ms, m, n) + multiset{k}
  {
  }

  /** Dropping an object drops its mint as often as the object was listed. */
  lemma {:induction false} MintsOfOthers(entries: seq<Entry>, id: nat, m: Mint)
    requires forall e :: e in entries && e.id == id ==> e.mint == m
    ensures Occurrences(entries, id) <= Mints(entries)[m]
    ensures Mints(Others(entries, id)) == Without(Mints(entries), m, Occurrences(entries, id))
  {
    if entries != [] {
      hide Without;
      var init, last := entries[..|entries| - 1], entries[|entries| - 1];
      assert last in entries;
      MintsOfOthers(init, id, m);
      if last.id == id {
        assert Others(entries, id) == Others(init, id);
        WithoutOneMore(Mints(init), m, Occurrences(init, id));
      } else {
        MintsAppend(Others(init, id), last);
        WithoutElsewhere(Mints(init), m, Occurrences(init, id), last.mint);
      }
    } else {
      assert Without(multiset{}, m, 0) == multiset{};
    }
  }

  lemma {:induction false} OthersMembers(entries: seq<Entry>, id: nat)
    ensures forall e :: e in Others(entries, id) <==> e in entries && e.id != id
  {
    if entries != [] {
      OthersMembers(entries[..|entries| - 1], id);
      assert entries == entries[..|entries| - 1] + [entries[|entries| - 1]];
    }
  }

  lemma {:induction false} OccurrencesPositive(entries: seq<Entry>, e: Entry)
    requires e in entries
    ensures Occurrences(entries, e.id) >= 1
  {
    var init := entries[..|entries| - 1];
    if entries[|entries| - 1] != e {
      assert entries == init + [entries[|entries| - 1]];
      OccurrencesPositive(init, e);
    }
  }

  class CryptoTrader {
    const executor: CryptoExecutor
    var positions: seq<Entry>
    var next: nat
    /** The session's view: what is under way, and the wallet on chain. */
    ghost var world: World

    ghost predicate Valid()
      reads this, executor, executor.eventLog
    {
      && world.paper == executor.paper && world.book == executor.Now() && world.log == executor.eventLog.records
      && world.positions == Mints(positions) && WellFormed(world.book)
      && InOrder(positions, next)
    }

    constructor (executor: CryptoExecutor, wallet: map<Mint, int>)
      requires executor.Now() == EMPTY && executor.eventLog.records == []
      ensures this.executor == executor && Valid() && world == Start(executor.paper, wallet)
    {
      this.executor, positions, next := executor, [], 0;
      world := Start(executor.paper, wallet);
    }

    /** A new position object at the end of the list. */
    method List(m: Mint)
      requires InOrder(positions, next)
      modifies this`positions, this`next
      ensures Mints(positions) == Mints(old(positions)) + multiset{m}
      ensures InOrder(positions, next)
    {
      MintsAppend(positions, Entry(next, m));
      NewInOrder(positions, next, m);
      positions := positions + [Entry(next, m)];
      next := next + 1;
    }

    /** The balance read after a confirmed buy has come back. */
    method LandBuy(m: Mint, usd: real, q: Quote, before: int, after: int)
      requires Valid() && !executor.paper
      requires world.opening == Some(Opening(m, usd, Some(Order(before, q.minOut, q.decimals))))
      requires after == Balance(world.wallet, m)
      modifies this, executor, executor.eventLog
      ensures world == Apply(old(world), BuyLands) && Valid()
    {
      hide InOrder, Mints, Credit;
      var r, logged := executor.SettleLiveBuy(m, after - before, q, usd);
      if r.Filled? {
        List(m);
        executor.eventLog.Write(BuyOf(m, usd));
      } else if r.stranded.Some? && r.stranded.value.rawAmount > 0 {
        List(m);
      }
      world := Apply(world, BuyLands);
    }

    /** A paper buy, which awaits nothing after its quote. */
    method LandPaperBuy(m: Mint, usd: real, q: Quote) returns (price: real)
      requires Valid() && executor.paper && q.outAmount > 0
      requires world.opening == Some(Opening(m, usd, None))
      modifies this, executor, executor.eventLog
      ensures world == Apply(old(world), PaperBuyLands(q.outAmount, q.decimals, price)) && Valid()
    {
      var r := executor.PaperBuy(m, usd, q);
      price := r.price;
      List(m);
      executor.eventLog.Write(BuyOf(m, usd));
      world := Apply(world, PaperBuyLands(q.outAmount, q.decimals, price));
    }

    /** The list without the closed object, however often it is listed. */
    method Remove(id: nat)
      modifies this`positions
      ensures positions == Others(old(positions), id)
    {
      var all, rest := positions, [];
      for i := 0 to |all|
        invariant rest == Others(all[..i], id)
      {
        assert all[..i + 1][..i] == all[..i];
        if all[i].id != id {
          rest := rest + [all[i]];
        }
      }
      assert all[..|all|] == all;
      positions := rest;
    }

    method Drop(p: Entry)
      requires InOrder(positions, next) && p in positions
      modifies this`positions
      ensures 1 <= Occurrences(old(positions), p.id) <= Mints(old(positions))[p.mint]
      ensures Mints(positions) == Without(Mints(old(positions)), p.mint, Occurrences(old(positions), p.id))
      ensures InOrder(positions, next)
    {
      hide InOrder, Mints, Others, Occurrences, Without;
      Listed(positions, next, p);
      OthersInOrder(positions, next, p.id);
      Remove(p.id);
    }

    method CloseOut(p: Entry, pnl: real)
      requires InOrder(positions, next) && p in positions
      modifies this`positions, executor.eventLog
      ensures executor.eventLog.records == old(executor.eventLog.records) + [CloseOf(p.mint, pnl)]
      ensures 1 <= Occurrences(old(positions), p.id) <= Mints(old(positions))[p.mint]
      ensures Mints(positions) == Without(Mints(old(positions)), p.mint, Occurrences(old(positions), p.id))
      ensures InOrder(positions, next)
    {
      executor.eventLog.Write(CloseOf(p.mint, pnl));
      Drop(p);
    }

    /** The balance read after a confirmed sell has come back; only a filled close is logged as one and takes
        the position off. */
    method LandSell(p: Entry, closing: bool, raw: int, decimals: nat, price: real, proceeds: real,
                    before: int, after: int, pnl: real)
      requires Valid() && p in positions && !executor.paper && SellSent(world) && after == Balance(world.wallet, p.mint)
      requires var x := world.exiting.value;
               x.mint == p.mint && x.closing == closing && x.stage.raw == raw && x.stage.before == before
      modifies this, executor, executor.eventLog
      ensures world == Apply(old(world), SellLands(pnl, Occurrences(old(positions), p.id))) && Valid()
      ensures Drops(old(world), Occurrences(old(positions), p.id))
    {
      ghost var entries := Occurrences(positions, p.id);
      hide InOrder, Mints, Without, WellFormed;
      Listed(positions, next, p);
      var r, logged := executor.SettleLiveSell(p.mint, before - after, raw, decimals, price, proceeds);
      if r.Filled? && closing {
        CloseOut(p, pnl);
      }
      world := Apply(world, SellLands(pnl, entries));
    }

    /** A paper sell, which awaits nothing after its size is known. */
    method LandPaperSell(p: Entry, closing: bool, raw: int, decimals: nat, price: real, proceeds: real, pnl: real)
      requires Valid() && p in positions && executor.paper && raw > 0 && world.exiting.Some?
      requires var x := world.exiting.value; x.mint == p.mint && x.closing == closing && x.stage == Sized(raw)
      modifies this, executor, executor.eventLog
      ensures world == Apply(old(world), PaperSellLands(pnl, Occurrences(old(positions), p.id))) && Valid()
      ensures Drops(old(world), Occurrences(old(positions), p.id))
    {
      ghost var entries := Occurrences(positions, p.id);
      hide InOrder, Mints, Without, WellFormed;
      Listed(positions, next, p);
      var _ := executor.PaperSell(p.mint, raw, decimals, price, proceeds);
      if closing {
        CloseOut(p, pnl);
      }
      world := Apply(world, PaperSellLands(pnl, entries));
    }

    /** A wallet refresh asks first which mints the desk has opened. */
    method AskOpened() returns (mints: set<Mint>)
      requires Valid()
      modifies this`world
      ensures world == Apply(old(world), RefreshReads) && world.snapshot == Some(mints) && Valid()
    {
      mints := executor.DeskOpenedMints(true);
      world := Apply(world, RefreshReads);
    }

    method Tighten(m: Mint, price: real)
      requires Valid() && m != "" && price > 0.0
      modifies this, executor
      ensures world == Apply(old(world), Tightens(m, price)) && Valid()
    {
      var _ := executor.TightenStop(m, price);
      world := Apply(world, Tightens(m, price));
    }
  }

  lemma OthersInOrder(entries: seq<Entry>, next: nat, id: nat)
    requires InOrder(entries, next)
    ensures InOrder(Others(entries, id), next)
  {
    OthersMembers(entries, id);
  }

  lemma Listed(entries: seq<Entry>, next: nat, p: Entry)
    requires InOrder(entries, next) && p in entries
    ensures 1 <= Occurrences(entries, p.id) <= Mints(entries)[p.mint]
    ensures Mints(Others(entries, p.id)) == Without(Mints(entries), p.mint, Occurrences(entries, p.id))
  {
    OccurrencesPositive(entries, p);
    MintsOfOthers(entries, p.id, p.mint);
  }
}
