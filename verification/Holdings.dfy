/** The desk's list of positions and how a broker or wallet snapshot is merged into it
    (`refresh_positions`, src/desk.py). Position objects are shared and updated in place, so they live
    in a store under an identity, and the list holds identities: two entries may be one object. */
module Holdings {
  import opened Models

  datatype Holdings = Holdings(store: map<nat, Position>, list: seq<nat>, next: nat)

  ghost predicate Valid(h: Holdings) {
    && (forall u :: u in h.list ==> u in h.store)
    && (forall u :: u in h.store ==> u < h.next)
  }

  /** What a position is matched by: stocks by symbol, crypto by mint. */
  function KeyFor(m: Market, p: Position): string {
    if m == Stocks then p.symbol else p.Key()
  }

  predicate Is(store: map<nat, Position>, u: nat, m: Market, key: string) {
    u in store && store[u].market == m && KeyFor(m, store[u]) == key
  }

  /** The last listed position of the market under that key, as a dict built over the list finds it. */
  function Known(store: map<nat, Position>, list: seq<nat>, m: Market, key: string): (u: Option<nat>)
    ensures u.Some? ==> u.value in list && Is(store, u.value, m, key)
    ensures u.None? ==> forall v :: v in list ==> !Is(store, v, m, key)
  {
    if list == [] then None
    else if Is(store, list[|list| - 1], m, key) then Some(list[|list| - 1])
    else Known(store, list[..|list| - 1], m, key)
  }

  /** A known position takes quantity and price from the snapshot, and a crypto one its stop if it has one. */
  function Updated(p: Position, live: Position, m: Market): Position {
    var q := p.(quantity := live.quantity, currentPrice := live.currentPrice);
    if m == Crypto && live.stopPrice != 0.0 then q.(stopPrice := live.stopPrice) else q
  }

  /** Add one snapshot entry to the merged list: update the known position, or adopt a new one. */
  function MergeOne(h: Holdings, m: Market, acc: Holdings, live: Position): Holdings {
    var known := Known(h.store, h.list, m, KeyFor(m, live));
    if known.Some? && known.value in acc.store then
      Holdings(acc.store[known.value := Updated(acc.store[known.value], live, m)], acc.list + [known.value], acc.next)
    else
      Holdings(acc.store[acc.next := live], acc.list + [acc.next], acc.next + 1)
  }

  /** Merge a whole snapshot, starting from the store of `base` and an empty list. */
  function MergeAll(h: Holdings, m: Market, base: Holdings, lives: seq<Position>): Holdings {
    if lives == [] then base.(list := [])
    else MergeOne(h, m, MergeAll(h, m, base, lives[..|lives| - 1]), lives[|lives| - 1])
  }

  /** The entries of one market, in order. */
  function Kept(store: map<nat, Position>, list: seq<nat>, m: Market): seq<nat> {
    if list == [] then []
    else
      var u, init := list[|list| - 1], Kept(store, list[..|list| - 1], m);
      if u in store && store[u].market == m then init + [u] else init
  }

  lemma {:induction false} KeptMembers(store: map<nat, Position>, list: seq<nat>, m: Market)
    ensures forall u :: u in Kept(store, list, m) <==> u in list && u in store && store[u].market == m
  {
    if list != [] {
      KeptMembers(store, list[..|list| - 1], m);
      assert list == list[..|list| - 1] + [list[|list| - 1]];
    }
  }

  /** The keys of the crypto positions, each once, in the order a dict remembers them. */
  function DictKeys(store: map<nat, Position>, list: seq<nat>): (ks: seq<string>)
    ensures forall k :: k in ks <==> exists u :: u in list && Is(store, u, Crypto, k)
    ensures forall i, j :: 0 <= i < j < |ks| ==> ks[i] != ks[j]
  {
    if list == [] then []
    else
      var u, init := list[|list| - 1], DictKeys(store, list[..|list| - 1]);
      assert list == list[..|list| - 1] + [u];
      if u in store && store[u].market == Crypto && store[u].Key() !in init then
        assert Is(store, u, Crypto, store[u].Key());
        init + [store[u].Key()]
      else init
  }

  function LiveKeys(m: Market, lives: seq<Position>): set<string> {
    set i | 0 <= i < |lives| :: KeyFor(m, lives[i])
  }

  /** Known crypto positions the snapshot did not mention. */
  function Leftover(h: Holdings, ks: seq<string>, mentioned: set<string>): seq<nat> {
    if ks == [] then []
    else
      var k, init := ks[|ks| - 1], Leftover(h, ks[..|ks| - 1], mentioned);
      var known := Known(h.store, h.list, Crypto, k);
      if k !in mentioned && known.Some? then init + [known.value] else init
  }

  function MergeStocks(h: Holdings, stocks: Option<seq<Position>>): Holdings {
    if stocks.None? then h.(list := Kept(h.store, h.list, Stocks)) else MergeAll(h, Stocks, h, stocks.value)
  }

  /** The crypto half, from the store the stock half left: live entries first, then what they did not mention. */
  function MergeCrypto(h: Holdings, base: Holdings, crypto: Option<seq<Position>>): Holdings {
    if crypto.None? then base.(list := Kept(h.store, h.list, Crypto))
    else
      var merged := MergeAll(h, Crypto, base, crypto.value);
      merged.(list := merged.list + Leftover(h, DictKeys(h.store, h.list), LiveKeys(Crypto, crypto.value)))
  }

  /** The whole refresh: `None` is a snapshot that could not be read. */
  function Refresh(h: Holdings, stocks: Option<seq<Position>>, crypto: Option<seq<Position>>): Holdings {
    var s := MergeStocks(h, stocks);
    var c := MergeCrypto(h, s, crypto);
    c.(list := s.list + c.list)
  }

  // -- one market's merge ------------------------------------------------------------------------

  /** Everything about a position that a merge leaves alone. */
  function Identity(p: Position): Position {
    p.(quantity := 0.0, currentPrice := 0.0, stopPrice := 0.0)
  }

  /** The positions agree on entry price, amount, score, market, sector and keys. */
  predicate SameBut(p: Position, q: Position) {
    Identity(p) == Identity(q)
  }

  lemma SameButKeys(p: Position, q: Position)
    requires SameBut(p, q)
    ensures p.market == q.market && p.sector == q.sector && p.symbol == q.symbol && p.Key() == q.Key()
    ensures p.entryPrice == q.entryPrice && p.amountUsd == q.amountUsd && p.score == q.score
  {
  }

  ghost predicate AllOf(lives: seq<Position>, m: Market) {
    forall i :: 0 <= i < |lives| ==> lives[i].market == m
  }

  /** `acc` descends from `h`: every old position is still there, the same but for what a merge touches. */
  ghost predicate Extends(h: Holdings, acc: Holdings) {
    && (forall u :: u in h.store ==> u in acc.store && SameBut(h.store[u], acc.store[u]))
    && (forall u :: u in acc.store ==> u < acc.next)
    && h.next <= acc.next
  }

  lemma ExtendsTransitive(a: Holdings, b: Holdings, c: Holdings)
    requires Extends(a, b) && Extends(b, c)
    ensures Extends(a, c)
  {
  }

  /** Outside market `m` of `h`, the positions of `acc` are untouched in `r`. */
  ghost predicate Untouched(h: Holdings, m: Market, acc: Holdings, r: Holdings) {
    forall u :: u in acc.store && !(u in h.store && h.store[u].market == m) ==>
      u in r.store && r.store[u] == acc.store[u]
  }

  /** One entry: the list grows by a position of that market and key which now shows the snapshot. */
  lemma MergeOneFacts(h: Holdings, m: Market, acc: Holdings, live: Position)
    requires Valid(h) && Extends(h, acc) && live.market == m
    ensures var r := MergeOne(h, m, acc, live);
            && Extends(acc, r) && Untouched(h, m, acc, r)
            && |r.list| == |acc.list| + 1 && r.list[..|acc.list|] == acc.list
            && Is(r.store, r.list[|acc.list|], m, KeyFor(m, live))
            && Updated(r.store[r.list[|acc.list|]], live, m) == r.store[r.list[|acc.list|]]
            && (forall u :: u in acc.store && u != r.list[|acc.list|] ==> r.store[u] == acc.store[u])
  {
    var known := Known(h.store, h.list, m, KeyFor(m, live));
    if known.Some? {
      SameButKeys(h.store[known.value], acc.store[known.value]);
    }
  }

  lemma {:induction false} MergeAllExtends(h: Holdings, m: Market, base: Holdings, lives: seq<Position>)
    requires Valid(h) && Extends(h, base) && AllOf(lives, m)
    ensures var r := MergeAll(h, m, base, lives);
            Extends(h, r) && Extends(base, r) && Untouched(h, m, base, r) && |r.list| == |lives|
  {
    if lives != [] {
      var init := lives[..|lives| - 1];
      MergeAllExtends(h, m, base, init);
      var b, r := MergeAll(h, m, base, init), MergeAll(h, m, base, lives);
      MergeOneFacts(h, m, b, lives[|init|]);
      ExtendsTransitive(base, b, r);
      ExtendsTransitive(h, b, r);
    }
  }

  /** Entry by entry: the merged list names, for each snapshot entry, a position of that market and key. */
  lemma {:induction false} MergeAllEntries(h: Holdings, m: Market, base: Holdings, lives: seq<Position>, i: nat)
    requires Valid(h) && Extends(h, base) && AllOf(lives, m) && i < |lives|
    ensures var r := MergeAll(h, m, base, lives); |r.list| == |lives| && Is(r.store, r.list[i], m, KeyFor(m, lives[i]))
  {
    var init := lives[..|lives| - 1];
    MergeAllExtends(h, m, base, init);
    var b, r := MergeAll(h, m, base, init), MergeAll(h, m, base, lives);
    MergeOneFacts(h, m, b, lives[|init|]);
    if i == |init| {
      assert r.list[i] == r.list[|b.list|];
    } else {
      MergeAllEntries(h, m, base, init, i);
      EntryStays(b, r, m, KeyFor(m, lives[i]), i);
    }
  }

  lemma EntryStays(b: Holdings, r: Holdings, m: Market, key: string, i: nat)
    requires Extends(b, r) && i < |b.list| <= |r.list| && r.list[..|b.list|] == b.list
    requires Is(b.store, b.list[i], m, key)
    ensures r.list[i] == b.list[i] && Is(r.store, r.list[i], m, key)
  {
    assert r.list[i] == r.list[..|b.list|][i];
    SameButKeys(b.store[b.list[i]], r.store[b.list[i]]);
  }

  lemma MergeAllIn(h: Holdings, m: Market, base: Holdings, lives: seq<Position>)
    requires Valid(h) && Extends(h, base) && AllOf(lives, m)
    ensures var r := MergeAll(h, m, base, lives); |r.list| == |lives| && AllIn(r.store, r.list, m)
  {
    MergeAllExtends(h, m, base, lives);
    var r := MergeAll(h, m, base, lives);
    forall i | 0 <= i < |lives| ensures r.list[i] in r.store && r.store[r.list[i]].market == m {
      MergeAllEntries(h, m, base, lives, i);
    }
  }

  // -- lists of entries ----------------------------------------------------------------------------

  ghost predicate AllIn(store: map<nat, Position>, us: seq<nat>, m: Market) {
    forall i :: 0 <= i < |us| ==> us[i] in store && store[us[i]].market == m
  }

  lemma {:induction false} KeptAppend(store: map<nat, Position>, a: seq<nat>, b: seq<nat>, m: Market)
    ensures Kept(store, a + b, m) == Kept(store, a, m) + Kept(store, b, m)
  {
    if b == [] {
      assert a + b == a;
    } else {
      KeptAppend(store, a, b[..|b| - 1], m);
      assert (a + b)[..|a + b| - 1] == a + b[..|b| - 1];
    }
  }

  lemma KeptLast(store: map<nat, Position>, us: seq<nat>, u: nat, n: Market)
    requires u in store
    ensures Kept(store, us + [u], n) == Kept(store, us, n) + (if store[u].market == n then [u] else [])
  {
    assert (us + [u])[..|us|] == us;
  }

  lemma {:induction false} KeptOf(store: map<nat, Position>, us: seq<nat>, m: Market, n: Market)
    requires AllIn(store, us, m)
    ensures Kept(store, us, n) == if n == m then us else []
  {
    if us != [] {
      var init, u := us[..|us| - 1], us[|us| - 1];
      KeptOf(store, init, m, n);
      KeptLast(store, init, u, n);
      assert us == init + [u];
    }
  }

  lemma {:induction false} LeftoverKnown(h: Holdings, ks: seq<string>, mentioned: set<string>)
    ensures forall u :: u in Leftover(h, ks, mentioned) ==> u in h.list && u in h.store && h.store[u].market == Crypto
    ensures forall u :: u in Leftover(h, ks, mentioned) ==> h.store[u].Key() in ks && h.store[u].Key() !in mentioned
    ensures forall k :: k in ks && k !in mentioned && Known(h.store, h.list, Crypto, k).Some? ==>
                          Known(h.store, h.list, Crypto, k).value in Leftover(h, ks, mentioned)
  {
    if ks != [] {
      LeftoverKnown(h, ks[..|ks| - 1], mentioned);
      assert ks == ks[..|ks| - 1] + [ks[|ks| - 1]];
    }
  }

  // -- the two halves of a refresh -------------------------------------------------------------------

  ghost predicate SnapshotOf(snapshot: Option<seq<Position>>, m: Market) {
    snapshot.Some? ==> AllOf(snapshot.value, m)
  }

  lemma StockHalf(h: Holdings, stocks: Option<seq<Position>>)
    requires Valid(h) && SnapshotOf(stocks, Stocks)
    ensures var s := MergeStocks(h, stocks);
            Extends(h, s) && AllIn(s.store, s.list, Stocks) && Untouched(h, Stocks, h, s)
  {
    if stocks.Some? {
      MergeAllExtends(h, Stocks, h, stocks.value);
      MergeAllIn(h, Stocks, h, stocks.value);
    } else {
      KeptAllIn(h, Stocks);
    }
  }

  lemma KeptAllIn(h: Holdings, m: Market)
    ensures AllIn(h.store, Kept(h.store, h.list, m), m)
  {
    KeptMembers(h.store, h.list, m);
    var us := Kept(h.store, h.list, m);
    assert forall i :: 0 <= i < |us| ==> us[i] in us;
  }

  lemma AllInExtends(h: Holdings, r: Holdings, us: seq<nat>, m: Market)
    requires Extends(h, r) && AllIn(h.store, us, m)
    ensures AllIn(r.store, us, m)
  {
    forall i | 0 <= i < |us| ensures us[i] in r.store && r.store[us[i]].market == m {
      SameButKeys(h.store[us[i]], r.store[us[i]]);
    }
  }

  lemma CryptoHalf(h: Holdings, base: Holdings, crypto: Option<seq<Position>>)
    requires Valid(h) && Extends(h, base) && SnapshotOf(crypto, Crypto)
    ensures var c := MergeCrypto(h, base, crypto);
            Extends(h, c) && Extends(base, c) && AllIn(c.store, c.list, Crypto) && Untouched(h, Crypto, base, c)
  {
    if crypto.Some? {
      MergeAllExtends(h, Crypto, base, crypto.value);
      MergeAllIn(h, Crypto, base, crypto.value);
      LeftoversAreCrypto(h, MergeAll(h, Crypto, base, crypto.value), LiveKeys(Crypto, crypto.value));
    } else {
      KeptAllIn(h, Crypto);
      AllInExtends(h, base, Kept(h.store, h.list, Crypto), Crypto);
    }
  }

  lemma LeftoversAreCrypto(h: Holdings, r: Holdings, mentioned: set<string>)
    requires Extends(h, r)
    ensures AllIn(r.store, Leftover(h, DictKeys(h.store, h.list), mentioned), Crypto)
  {
    var ls := Leftover(h, DictKeys(h.store, h.list), mentioned);
    LeftoverKnown(h, DictKeys(h.store, h.list), mentioned);
    assert forall i :: 0 <= i < |ls| ==> ls[i] in ls;
    AllInExtends(h, r, ls, Crypto);
  }

  /** The list after a refresh is the stock half followed by the crypto half, and the crypto half
      touches no stock. */
  lemma RefreshHalves(h: Holdings, stocks: Option<seq<Position>>, crypto: Option<seq<Position>>)
    requires Valid(h) && SnapshotOf(stocks, Stocks) && SnapshotOf(crypto, Crypto)
    ensures var s, r := MergeStocks(h, stocks), Refresh(h, stocks, crypto);
            var c := MergeCrypto(h, s, crypto);
            && Extends(h, s) && Extends(s, r) && Extends(h, r)
            && AllIn(r.store, s.list, Stocks) && AllIn(r.store, c.list, Crypto)
            && (forall i :: 0 <= i < |s.list| ==> s.list[i] in s.store && r.store[s.list[i]] == s.store[s.list[i]])
  {
    StockHalf(h, stocks);
    var s := MergeStocks(h, stocks);
    CryptoHalf(h, s, crypto);
    var c := MergeCrypto(h, s, crypto);
    AllInExtends(s, c, s.list, Stocks);
    forall i | 0 <= i < |s.list| ensures s.list[i] in s.store && c.store[s.list[i]] == s.store[s.list[i]] {
      var u := s.list[i];
      if u in h.store {
        SameButKeys(h.store[u], s.store[u]);
      }
    }
  }

  lemma RefreshKept(h: Holdings, stocks: Option<seq<Position>>, crypto: Option<seq<Position>>)
    requires Valid(h) && SnapshotOf(stocks, Stocks) && SnapshotOf(crypto, Crypto)
    ensures var s, r := MergeStocks(h, stocks), Refresh(h, stocks, crypto);
            var c := MergeCrypto(h, s, crypto);
            && Kept(r.store, r.list, Stocks) == s.list && Kept(r.store, r.list, Crypto) == c.list && Valid(r)
  {
    RefreshHalves(h, stocks, crypto);
    var s, c, r := MergeStocks(h, stocks), MergeCrypto(h, MergeStocks(h, stocks), crypto), Refresh(h, stocks, crypto);
    KeptAppend(r.store, s.list, c.list, Stocks);
    KeptAppend(r.store, s.list, c.list, Crypto);
    KeptOf(r.store, s.list, Stocks, Stocks);
    KeptOf(r.store, s.list, Stocks, Crypto);
    KeptOf(r.store, c.list, Crypto, Stocks);
    KeptOf(r.store, c.list, Crypto, Crypto);
    forall u | u in r.list ensures u in r.store {
      assert u in s.list || u in c.list;
    }
  }

  // -- what a refresh promises ------------------------------------------------------------------------

  /** A snapshot that could not be read leaves that market's sub-book exactly as it was: the same
      objects, in the same order, with the same contents, whatever the other market reported. */
  lemma FailedSnapshotKeepsSubBook(h: Holdings, stocks: Option<seq<Position>>, crypto: Option<seq<Position>>, m: Market)
    requires Valid(h) && SnapshotOf(stocks, Stocks) && SnapshotOf(crypto, Crypto)
    requires if m == Stocks then stocks.None? else crypto.None?
    ensures var r := Refresh(h, stocks, crypto);
            && Kept(r.store, r.list, m) == Kept(h.store, h.list, m)
            && forall u :: u in Kept(h.store, h.list, m) ==> u in h.store && u in r.store && r.store[u] == h.store[u]
  {
    RefreshKept(h, stocks, crypto);
    KeptMembers(h.store, h.list, m);
    var r := Refresh(h, stocks, crypto);
    forall u | u in Kept(h.store, h.list, m) ensures u in r.store && r.store[u] == h.store[u] {
      if m == Crypto {
        StockHalf(h, stocks);
      } else {
        RefreshHalves(h, stocks, crypto);
        var i :| 0 <= i < |MergeStocks(h, stocks).list| && MergeStocks(h, stocks).list[i] == u;
      }
    }
  }

  /** Known positions keep their entry price, amount, score, sector and keys through any refresh. */
  lemma RefreshKeepsIdentity(h: Holdings, stocks: Option<seq<Position>>, crypto: Option<seq<Position>>, u: nat)
    requires Valid(h) && SnapshotOf(stocks, Stocks) && SnapshotOf(crypto, Crypto) && u in h.store
    ensures var r := Refresh(h, stocks, crypto); u in r.store && SameBut(h.store[u], r.store[u])
  {
    RefreshHalves(h, stocks, crypto);
  }

  /** Some entry reports this quantity and price under the key. */
  ghost predicate Quotes(lives: seq<Position>, m: Market, key: string, quantity: real, price: real) {
    exists live :: live in lives && KeyFor(m, live) == key && live.quantity == quantity && live.currentPrice == price
  }

  ghost predicate QuotesStop(lives: seq<Position>, m: Market, key: string, stop: real) {
    stop != 0.0 && exists live :: live in lives && KeyFor(m, live) == key && live.stopPrice == stop
  }

  /** From `p` to `q`: quantity and price stay or are those of one entry of its key; a stock's stop stays, a
      crypto position's stays or is a stop that such an entry reports. */
  ghost predicate Follows(p: Position, q: Position, m: Market, lives: seq<Position>) {
    && SameBut(p, q)
    && ((q.quantity == p.quantity && q.currentPrice == p.currentPrice)
        || Quotes(lives, m, KeyFor(m, p), q.quantity, q.currentPrice))
    && (q.stopPrice == p.stopPrice || (m == Crypto && QuotesStop(lives, m, KeyFor(m, p), q.stopPrice)))
  }

  lemma FollowsLonger(p: Position, q: Position, m: Market, lives: seq<Position>, live: Position)
    requires Follows(p, q, m, lives)
    ensures Follows(p, q, m, lives + [live])
    ensures KeyFor(m, live) == KeyFor(m, p) ==> Follows(p, Updated(q, live, m), m, lives + [live])
  {
    assert forall x :: x in lives ==> x in lives + [live];
    assert live in lives + [live];
  }

  lemma {:induction false} MergeAllFollows(h: Holdings, m: Market, base: Holdings, lives: seq<Position>, u: nat)
    requires Valid(h) && Extends(h, base) && AllOf(lives, m) && u in h.store && base.store[u] == h.store[u]
    ensures var r := MergeAll(h, m, base, lives); u in r.store && Follows(h.store[u], r.store[u], m, lives)
  {
    if lives != [] {
      var init, live := lives[..|lives| - 1], lives[|lives| - 1];
      assert lives == init + [live];
      MergeAllFollows(h, m, base, init, u);
      MergeAllExtends(h, m, base, init);
      FollowsLonger(h.store[u], MergeAll(h, m, base, init).store[u], m, init, live);
    }
  }

  /** What a refresh may change about a position: nothing unless an entry of its key reports it. A stock's stop
      is never touched, as no broker entry carries one; a crypto position's only by a reported one. */
  lemma RefreshFollowsReports(h: Holdings, stocks: Option<seq<Position>>, crypto: Option<seq<Position>>, u: nat)
    requires Valid(h) && SnapshotOf(stocks, Stocks) && SnapshotOf(crypto, Crypto) && u in h.store
    ensures var p, r := h.store[u], Refresh(h, stocks, crypto);
            var snapshot := if p.market == Stocks then stocks else crypto;
            && u in r.store
            && Follows(p, r.store[u], p.market, if snapshot.Some? then snapshot.value else [])
            && (p.market == Stocks ==> r.store[u].stopPrice == p.stopPrice)
  {
    var s := MergeStocks(h, stocks);
    StockHalf(h, stocks);
    CryptoHalf(h, s, crypto);
    if h.store[u].market == Stocks {
      if stocks.Some? {
        MergeAllFollows(h, Stocks, h, stocks.value, u);
      }
      SameButKeys(h.store[u], s.store[u]);
    } else if crypto.Some? {
      MergeAllFollows(h, Crypto, s, crypto.value, u);
    }
  }

  /** No crypto mint ever disappears, even when the wallet snapshot is empty. */
  lemma RefreshKeepsMints(h: Holdings, stocks: Option<seq<Position>>, crypto: Option<seq<Position>>, u: nat)
    requires Valid(h) && SnapshotOf(stocks, Stocks) && SnapshotOf(crypto, Crypto)
    requires u in h.list && h.store[u].market == Crypto
    ensures var r := Refresh(h, stocks, crypto);
            exists v :: v in r.list && Is(r.store, v, Crypto, h.store[u].Key())
  {
    StockHalf(h, stocks);
    var s, r := MergeStocks(h, stocks), Refresh(h, stocks, crypto);
    var v := MintKept(h, s, crypto, u);
    assert r.list == s.list + MergeCrypto(h, s, crypto).list;
    assert v in r.list && Is(r.store, v, Crypto, h.store[u].Key());
  }

  lemma MintKept(h: Holdings, base: Holdings, crypto: Option<seq<Position>>, u: nat) returns (v: nat)
    requires Valid(h) && Extends(h, base) && SnapshotOf(crypto, Crypto)
    requires u in h.list && h.store[u].market == Crypto
    ensures var c := MergeCrypto(h, base, crypto); v in c.list && Is(c.store, v, Crypto, h.store[u].Key())
  {
    var k := h.store[u].Key();
    assert Is(h.store, u, Crypto, k);
    CryptoHalf(h, base, crypto);
    if crypto.None? {
      KeptMembers(h.store, h.list, Crypto);
      v := u;
    } else if k in LiveKeys(Crypto, crypto.value) {
      var i :| 0 <= i < |crypto.value| && KeyFor(Crypto, crypto.value[i]) == k;
      MergeAllEntries(h, Crypto, base, crypto.value, i);
      v := MergeAll(h, Crypto, base, crypto.value).list[i];
    } else {
      LeftoverKnown(h, DictKeys(h.store, h.list), LiveKeys(Crypto, crypto.value));
      v := Known(h.store, h.list, Crypto, k).value;
      SameButKeys(h.store[v], MergeCrypto(h, base, crypto).store[v]);
    }
    SameButKeys(h.store[u], MergeCrypto(h, base, crypto).store[u]);
  }

  /** After a broker snapshot the stock symbols of the book are the broker's, in the broker's order. */
  lemma RefreshTakesLiveSymbols(h: Holdings, lives: seq<Position>, crypto: Option<seq<Position>>)
    requires Valid(h) && AllOf(lives, Stocks) && SnapshotOf(crypto, Crypto)
    ensures var r := Refresh(h, Some(lives), crypto);
            var us := Kept(r.store, r.list, Stocks);
            && |us| == |lives|
            && forall i :: 0 <= i < |us| ==> us[i] in r.store && r.store[us[i]].symbol == lives[i].symbol
  {
    RefreshKept(h, Some(lives), crypto);
    RefreshHalves(h, Some(lives), crypto);
    MergeAllExtends(h, Stocks, h, lives);
    var s := MergeAll(h, Stocks, h, lives);
    forall i | 0 <= i < |lives| ensures Is(s.store, s.list[i], Stocks, lives[i].symbol) {
      MergeAllEntries(h, Stocks, h, lives, i);
    }
  }

  // -- snapshots with distinct keys ----------------------------------------------------------------

  ghost predicate DistinctKeys(m: Market, lives: seq<Position>) {
    forall i, j :: 0 <= i < j < |lives| ==> KeyFor(m, lives[i]) != KeyFor(m, lives[j])
  }

  ghost predicate Proper(snapshot: Option<seq<Position>>, m: Market) {
    snapshot.Some? ==> AllOf(snapshot.value, m) && DistinctKeys(m, snapshot.value)
  }

  /** Within market `m` no two entries share a key. */
  ghost predicate UniqueIn(store: map<nat, Position>, list: seq<nat>, m: Market) {
    forall i, j :: 0 <= i < j < |list| && list[i] in store && list[j] in store
                   && store[list[i]].market == m && store[list[j]].market == m
                   ==> KeyFor(m, store[list[i]]) != KeyFor(m, store[list[j]])
  }

  lemma {:induction false} KnownUnique(store: map<nat, Position>, list: seq<nat>, m: Market, i: nat)
    requires UniqueIn(store, list, m) && i < |list| && list[i] in store && store[list[i]].market == m
    ensures Known(store, list, m, KeyFor(m, store[list[i]])) == Some(list[i])
  {
    if i < |list| - 1 {
      KnownUnique(store, list[..|list| - 1], m, i);
    }
  }

  /** With distinct keys, no later snapshot entry overwrites what an earlier one set. */
  lemma {:induction false} MergeAllSettles(h: Holdings, m: Market, base: Holdings, lives: seq<Position>, i: nat)
    requires Valid(h) && Extends(h, base) && AllOf(lives, m) && DistinctKeys(m, lives) && i < |lives|
    ensures var r := MergeAll(h, m, base, lives);
            && |r.list| == |lives| && r.list[i] in r.store
            && Updated(r.store[r.list[i]], lives[i], m) == r.store[r.list[i]]
  {
    var init := lives[..|lives| - 1];
    MergeAllExtends(h, m, base, init);
    var b, r := MergeAll(h, m, base, init), MergeAll(h, m, base, lives);
    MergeOneFacts(h, m, b, lives[|init|]);
    if i < |init| {
      MergeAllSettles(h, m, base, init, i);
      MergeAllEntries(h, m, base, init, i);
      var u := b.list[i];
      assert r.list[i] == r.list[..|b.list|][i] == u;
      assert KeyFor(m, lives[i]) != KeyFor(m, lives[|init|]);
      if u == r.list[|b.list|] {
        SameButKeys(b.store[u], r.store[u]);
      }
    }
  }

  /** The entry already shows the snapshot, and is the one its key finds. */
  ghost predicate Shows(r: Holdings, m: Market, u: nat, live: Position) {
    && u in r.store && Updated(r.store[u], live, m) == r.store[u]
    && Known(r.store, r.list, m, KeyFor(m, live)) == Some(u)
  }

  /** Merging again over a list that already shows the snapshot changes nothing. */
  lemma {:induction false} MergeAgain(r: Holdings, m: Market, base: Holdings, us: seq<nat>, lives: seq<Position>)
    requires base.store == r.store && base.next == r.next && |us| == |lives|
    requires forall i :: 0 <= i < |lives| ==> Shows(r, m, us[i], lives[i])
    ensures MergeAll(r, m, base, lives) == base.(list := us)
  {
    if lives != [] {
      hide Shows, MergeOne;
      var n := |lives| - 1;
      MergeAgain(r, m, base, us[..n], lives[..n]);
      MergeOneAgain(r, m, base.(list := us[..n]), us[n], lives[n]);
      assert us[..n] + [us[n]] == us;
    }
  }

  lemma MergeOneAgain(r: Holdings, m: Market, acc: Holdings, u: nat, live: Position)
    requires acc.store == r.store && Shows(r, m, u, live)
    ensures MergeOne(r, m, acc, live) == acc.(list := acc.list + [u])
  {
    assert r.store[u := r.store[u]] == r.store;
  }

  /** The crypto entries whose key is not mentioned, in order. */
  function Unmentioned(store: map<nat, Position>, list: seq<nat>, mentioned: set<string>): seq<nat> {
    if list == [] then []
    else
      var u, init := list[|list| - 1], Unmentioned(store, list[..|list| - 1], mentioned);
      if u in store && store[u].market == Crypto && store[u].Key() !in mentioned then init + [u] else init
  }

  lemma {:induction false} UnmentionedAppend(store: map<nat, Position>, a: seq<nat>, b: seq<nat>,
      mentioned: set<string>)
    ensures Unmentioned(store, a + b, mentioned) == Unmentioned(store, a, mentioned) + Unmentioned(store, b, mentioned)
  {
    if b == [] {
      assert a + b == a;
    } else {
      UnmentionedAppend(store, a, b[..|b| - 1], mentioned);
      assert (a + b)[..|a + b| - 1] == a + b[..|b| - 1];
    }
  }

  lemma {:induction false} UnmentionedOf(store: map<nat, Position>, us: seq<nat>, mentioned: set<string>, none: bool)
    requires forall u :: u in us ==> u in store
    requires forall u :: u in us ==>
               if none then store[u].market == Stocks || store[u].Key() in mentioned
               else store[u].market == Crypto && store[u].Key() !in mentioned
    ensures Unmentioned(store, us, mentioned) == if none then [] else us
  {
    if us != [] {
      var init, u := us[..|us| - 1], us[|us| - 1];
      assert u in us && us == init + [u];
      UnmentionedOf(store, init, mentioned, none);
    }
  }

  /** Over a list with unique keys the leftovers are read off the list itself. */
  lemma {:induction false} LeftoverUnique(r: Holdings, n: nat, mentioned: set<string>)
    requires Valid(r) && UniqueIn(r.store, r.list, Crypto) && n <= |r.list|
    ensures Leftover(r, DictKeys(r.store, r.list[..n]), mentioned) == Unmentioned(r.store, r.list[..n], mentioned)
  {
    if n > 0 {
      LeftoverUnique(r, n - 1, mentioned);
      var list, u := r.list[..n], r.list[n - 1];
      assert list[..|list| - 1] == r.list[..n - 1] && u in r.list;
      if r.store[u].market == Crypto {
        KnownUnique(r.store, r.list, Crypto, n - 1);
        var k, ks := r.store[u].Key(), DictKeys(r.store, r.list[..n - 1]);
        assert forall i :: 0 <= i < n - 1 ==> r.list[..n - 1][i] == r.list[i];
        assert k !in ks;
        assert (ks + [k])[..|ks|] == ks;
      }
    }
  }

  lemma {:induction false} LeftoverDistinct(h: Holdings, ks: seq<string>, mentioned: set<string>)
    requires forall i, j :: 0 <= i < j < |ks| ==> ks[i] != ks[j]
    ensures UniqueIn(h.store, Leftover(h, ks, mentioned), Crypto)
  {
    if ks != [] {
      var init := ks[..|ks| - 1];
      LeftoverDistinct(h, init, mentioned);
      LeftoverKnown(h, init, mentioned);
      var ls := Leftover(h, init, mentioned);
      assert forall i :: 0 <= i < |ls| ==> ls[i] in ls && h.store[ls[i]].Key() in init;
    }
  }

  lemma UniqueConcat(store: map<nat, Position>, us: seq<nat>, ls: seq<nat>, mentioned: set<string>)
    requires AllIn(store, us, Crypto) && AllIn(store, ls, Crypto)
    requires UniqueIn(store, us, Crypto) && UniqueIn(store, ls, Crypto)
    requires forall i :: 0 <= i < |us| ==> store[us[i]].Key() in mentioned
    requires forall i :: 0 <= i < |ls| ==> store[ls[i]].Key() !in mentioned
    ensures UniqueIn(store, us + ls, Crypto)
  {
  }

  lemma UniqueWhole(store: map<nat, Position>, a: seq<nat>, b: seq<nat>)
    requires AllIn(store, a, Stocks) && AllIn(store, b, Crypto)
    ensures UniqueIn(store, a, Stocks) ==> UniqueIn(store, a + b, Stocks)
    ensures UniqueIn(store, b, Crypto) ==> UniqueIn(store, a + b, Crypto)
  {
  }

  lemma UniqueExtends(h: Holdings, r: Holdings, us: seq<nat>, m: Market)
    requires Extends(h, r) && AllIn(h.store, us, m) && UniqueIn(h.store, us, m)
    ensures UniqueIn(r.store, us, m)
  {
    forall i | 0 <= i < |us| ensures KeyFor(m, r.store[us[i]]) == KeyFor(m, h.store[us[i]]) {
      SameButKeys(h.store[us[i]], r.store[us[i]]);
    }
  }

  lemma MergeAllUnique(h: Holdings, m: Market, base: Holdings, lives: seq<Position>)
    requires Valid(h) && Extends(h, base) && AllOf(lives, m) && DistinctKeys(m, lives)
    ensures var r := MergeAll(h, m, base, lives); UniqueIn(r.store, r.list, m)
  {
    var r := MergeAll(h, m, base, lives);
    MergeAllExtends(h, m, base, lives);
    forall i | 0 <= i < |lives| ensures Is(r.store, r.list[i], m, KeyFor(m, lives[i])) {
      MergeAllEntries(h, m, base, lives, i);
    }
  }

  /** The leftovers, in the store after the merge: listed once each, and none of them live. */
  lemma LeftoverParts(h: Holdings, r: Holdings, mentioned: set<string>)
    requires Valid(h) && Extends(h, r)
    ensures var ls := Leftover(h, DictKeys(h.store, h.list), mentioned);
            && AllIn(r.store, ls, Crypto) && UniqueIn(r.store, ls, Crypto)
            && forall i :: 0 <= i < |ls| ==> r.store[ls[i]].Key() !in mentioned
  {
    var ks := DictKeys(h.store, h.list);
    var ls := Leftover(h, ks, mentioned);
    LeftoverKnown(h, ks, mentioned);
    LeftoverDistinct(h, ks, mentioned);
    LeftoversAreCrypto(h, h, mentioned);
    LeftoversAreCrypto(h, r, mentioned);
    UniqueExtends(h, r, ls, Crypto);
    forall i | 0 <= i < |ls| ensures r.store[ls[i]].Key() !in mentioned {
      assert ls[i] in ls;
      SameButKeys(h.store[ls[i]], r.store[ls[i]]);
    }
  }

  lemma LiveKeysOf(h: Holdings, base: Holdings, lives: seq<Position>)
    requires Valid(h) && Extends(h, base) && AllOf(lives, Crypto)
    ensures var r := MergeAll(h, Crypto, base, lives);
            forall i :: 0 <= i < |r.list| ==>
              r.list[i] in r.store && r.store[r.list[i]].Key() in LiveKeys(Crypto, lives)
  {
    var r := MergeAll(h, Crypto, base, lives);
    MergeAllExtends(h, Crypto, base, lives);
    forall i | 0 <= i < |r.list| ensures r.list[i] in r.store && r.store[r.list[i]].Key() in LiveKeys(Crypto, lives) {
      MergeAllEntries(h, Crypto, base, lives, i);
      assert KeyFor(Crypto, lives[i]) in LiveKeys(Crypto, lives);
    }
  }

  /** After snapshots with distinct keys, every stock symbol and every crypto key is listed once. */
  lemma RefreshUnique(h: Holdings, stocks: Option<seq<Position>>, crypto: Option<seq<Position>>)
    requires Valid(h) && Proper(stocks, Stocks) && Proper(crypto, Crypto)
    ensures var r := Refresh(h, stocks, crypto);
            && (stocks.Some? ==> UniqueIn(r.store, r.list, Stocks))
            && (crypto.Some? ==> UniqueIn(r.store, r.list, Crypto))
  {
    RefreshHalves(h, stocks, crypto);
    var s, c, r := MergeStocks(h, stocks), MergeCrypto(h, MergeStocks(h, stocks), crypto), Refresh(h, stocks, crypto);
    StockHalf(h, stocks);
    if stocks.Some? {
      MergeAllUnique(h, Stocks, h, stocks.value);
      UniqueExtends(s, r, s.list, Stocks);
    }
    if crypto.Some? {
      CryptoHalfUnique(h, s, crypto.value);
    }
    UniqueWhole(r.store, s.list, c.list);
  }

  lemma CryptoHalfUnique(h: Holdings, base: Holdings, lives: seq<Position>)
    requires Valid(h) && Extends(h, base) && AllOf(lives, Crypto) && DistinctKeys(Crypto, lives)
    ensures var c := MergeCrypto(h, base, Some(lives)); UniqueIn(c.store, c.list, Crypto)
  {
    var merged, mentioned := MergeAll(h, Crypto, base, lives), LiveKeys(Crypto, lives);
    MergeAllExtends(h, Crypto, base, lives);
    MergeAllIn(h, Crypto, base, lives);
    MergeAllUnique(h, Crypto, base, lives);
    LiveKeysOf(h, base, lives);
    LeftoverParts(h, merged, mentioned);
    UniqueConcat(merged.store, merged.list, Leftover(h, DictKeys(h.store, h.list), mentioned), mentioned);
  }

  /** The stock half of a second, identical refresh changes nothing. */
  lemma StocksAgain(h: Holdings, stocks: Option<seq<Position>>, crypto: Option<seq<Position>>)
    requires Valid(h) && Proper(stocks, Stocks) && Proper(crypto, Crypto)
    ensures var r := Refresh(h, stocks, crypto); MergeStocks(r, stocks) == r.(list := MergeStocks(h, stocks).list)
  {
    var s, r := MergeStocks(h, stocks), Refresh(h, stocks, crypto);
    if stocks.None? {
      RefreshKept(h, stocks, crypto);
    } else {
      MergeAllExtends(h, Stocks, h, stocks.value);
      forall i | 0 <= i < |stocks.value| ensures Shows(r, Stocks, s.list[i], stocks.value[i]) {
        StockEntryAgain(h, stocks.value, crypto, i);
      }
      MergeAgain(r, Stocks, r, s.list, stocks.value);
    }
  }

  lemma StockEntryAgain(h: Holdings, lives: seq<Position>, crypto: Option<seq<Position>>, i: nat)
    requires Valid(h) && Proper(Some(lives), Stocks) && Proper(crypto, Crypto) && i < |lives|
    ensures var s, r := MergeStocks(h, Some(lives)), Refresh(h, Some(lives), crypto);
            |s.list| == |lives| && Shows(r, Stocks, s.list[i], lives[i])
  {
    var s, r := MergeStocks(h, Some(lives)), Refresh(h, Some(lives), crypto);
    RefreshHalves(h, Some(lives), crypto);
    RefreshUnique(h, Some(lives), crypto);
    MergeAllSettles(h, Stocks, h, lives, i);
    MergeAllEntries(h, Stocks, h, lives, i);
    assert r.list[i] == s.list[i];
    KnownUnique(r.store, r.list, Stocks, i);
  }

  lemma CryptoEntryAgain(h: Holdings, stocks: Option<seq<Position>>, lives: seq<Position>, i: nat)
    requires Valid(h) && Proper(stocks, Stocks) && Proper(Some(lives), Crypto) && i < |lives|
    ensures var s, r := MergeStocks(h, stocks), Refresh(h, stocks, Some(lives));
            var us := MergeAll(h, Crypto, s, lives).list;
            |us| == |lives| && Shows(r, Crypto, us[i], lives[i])
  {
    var s, r := MergeStocks(h, stocks), Refresh(h, stocks, Some(lives));
    StockHalf(h, stocks);
    RefreshUnique(h, stocks, Some(lives));
    MergeAllSettles(h, Crypto, s, lives, i);
    MergeAllEntries(h, Crypto, s, lives, i);
    assert r.list[|s.list| + i] == MergeAll(h, Crypto, s, lives).list[i];
    KnownUnique(r.store, r.list, Crypto, |s.list| + i);
  }

  /** After a refresh the book shows the snapshots: each reported holding is the one position its key
      finds, with the reported quantity and price, and the reported stop if a wallet holding has one. */
  lemma RefreshShowsLive(h: Holdings, stocks: Option<seq<Position>>, crypto: Option<seq<Position>>, m: Market,
      live: Position)
    requires Valid(h) && Proper(stocks, Stocks) && Proper(crypto, Crypto)
    requires var snapshot := if m == Stocks then stocks else crypto; snapshot.Some? && live in snapshot.value
    ensures var r := Refresh(h, stocks, crypto);
            var u := Known(r.store, r.list, m, KeyFor(m, live));
            && u.Some? && u.value in r.store && r.store[u.value].market == m
            && r.store[u.value].quantity == live.quantity && r.store[u.value].currentPrice == live.currentPrice
            && (m == Crypto && live.stopPrice != 0.0 ==> r.store[u.value].stopPrice == live.stopPrice)
  {
    if m == Stocks {
      var i :| 0 <= i < |stocks.value| && stocks.value[i] == live;
      StockEntryAgain(h, stocks.value, crypto, i);
    } else {
      var i :| 0 <= i < |crypto.value| && crypto.value[i] == live;
      CryptoEntryAgain(h, stocks, crypto.value, i);
    }
  }

  /** The leftovers of a second, identical refresh are the leftovers of the first. */
  lemma LeftoverAgain(h: Holdings, stocks: Option<seq<Position>>, lives: seq<Position>)
    requires Valid(h) && Proper(stocks, Stocks) && Proper(Some(lives), Crypto)
    ensures var r, mentioned := Refresh(h, stocks, Some(lives)), LiveKeys(Crypto, lives);
            Leftover(r, DictKeys(r.store, r.list), mentioned) == Leftover(h, DictKeys(h.store, h.list), mentioned)
  {
    LeftoverReadOff(h, stocks, lives);
    UnmentionedAfter(h, stocks, lives);
  }

  lemma UnmentionedAfter(h: Holdings, stocks: Option<seq<Position>>, lives: seq<Position>)
    requires Valid(h) && SnapshotOf(stocks, Stocks) && AllOf(lives, Crypto)
    ensures var r, mentioned := Refresh(h, stocks, Some(lives)), LiveKeys(Crypto, lives);
            Unmentioned(r.store, r.list, mentioned) == Leftover(h, DictKeys(h.store, h.list), mentioned)
  {
    var s, mentioned := MergeStocks(h, stocks), LiveKeys(Crypto, lives);
    StockHalf(h, stocks);
    var merged := MergeAll(h, Crypto, s, lives);
    MergeAllExtends(h, Crypto, s, lives);
    LiveKeysOf(h, s, lives);
    LeftoverParts(h, merged, mentioned);
    AllInExtends(s, merged, s.list, Stocks);
    UnmentionedParts(merged.store, s.list, merged.list, Leftover(h, DictKeys(h.store, h.list), mentioned), mentioned);
  }

  lemma LeftoverReadOff(h: Holdings, stocks: Option<seq<Position>>, lives: seq<Position>)
    requires Valid(h) && Proper(stocks, Stocks) && Proper(Some(lives), Crypto)
    ensures var r, mentioned := Refresh(h, stocks, Some(lives)), LiveKeys(Crypto, lives);
            Leftover(r, DictKeys(r.store, r.list), mentioned) == Unmentioned(r.store, r.list, mentioned)
  {
    var r := Refresh(h, stocks, Some(lives));
    RefreshKept(h, stocks, Some(lives));
    RefreshUnique(h, stocks, Some(lives));
    LeftoverUnique(r, |r.list|, LiveKeys(Crypto, lives));
    assert r.list[..|r.list|] == r.list;
  }

  lemma UnmentionedParts(store: map<nat, Position>, a: seq<nat>, us: seq<nat>, ls: seq<nat>, mentioned: set<string>)
    requires AllIn(store, a, Stocks) && AllIn(store, ls, Crypto)
    requires forall i :: 0 <= i < |us| ==> us[i] in store && store[us[i]].Key() in mentioned
    requires forall i :: 0 <= i < |ls| ==> store[ls[i]].Key() !in mentioned
    ensures Unmentioned(store, a + (us + ls), mentioned) == ls
  {
    UnmentionedAppend(store, a, us + ls, mentioned);
    UnmentionedAppend(store, us, ls, mentioned);
    UnmentionedOf(store, a, mentioned, true);
    UnmentionedOf(store, us, mentioned, true);
    UnmentionedOf(store, ls, mentioned, false);
  }

  /** Refreshing twice from the same snapshots is refreshing once, whenever each snapshot names a key
      at most once. The book itself may hold several positions under one key. */
  lemma RefreshIdempotent(h: Holdings, stocks: Option<seq<Position>>, crypto: Option<seq<Position>>)
    requires Valid(h) && Proper(stocks, Stocks) && Proper(crypto, Crypto)
    ensures var r := Refresh(h, stocks, crypto); Refresh(r, stocks, crypto) == r
  {
    var s, r := MergeStocks(h, stocks), Refresh(h, stocks, crypto);
    StocksAgain(h, stocks, crypto);
    if crypto.None? {
      RefreshKept(h, stocks, crypto);
    } else {
      var us := MergeAll(h, Crypto, s, crypto.value).list;
      StockHalf(h, stocks);
      MergeAllExtends(h, Crypto, s, crypto.value);
      forall i | 0 <= i < |us| ensures Shows(r, Crypto, us[i], crypto.value[i]) {
        CryptoEntryAgain(h, stocks, crypto.value, i);
      }
      MergeAgain(r, Crypto, r.(list := s.list), us, crypto.value);
      LeftoverAgain(h, stocks, crypto.value);
    }
  }

  // -- snapshots that import nothing ------------------------------------------------------------------

  ghost predicate NoDuplicates(us: seq<nat>) {
    forall i, j :: 0 <= i < j < |us| ==> us[i] != us[j]
  }

  /** Every entry of the snapshot is a position the desk already lists, and none is named twice. */
  ghost predicate Benign(h: Holdings, snapshot: Option<seq<Position>>, m: Market) {
    && Proper(snapshot, m)
    && (snapshot.Some? ==>
          forall i :: 0 <= i < |snapshot.value| ==> Known(h.store, h.list, m, KeyFor(m, snapshot.value[i])).Some?)
  }

  /** Same objects, and a list that names some of the old entries, each at most once. */
  ghost predicate Shrinks(h: Holdings, r: Holdings) {
    && r.store.Keys == h.store.Keys && r.next == h.next
    && NoDuplicates(r.list) && (forall u :: u in r.list ==> u in h.list)
  }

  lemma {:induction false} MergeAllKnown(h: Holdings, m: Market, base: Holdings, lives: seq<Position>)
    requires Valid(h) && Extends(h, base) && AllOf(lives, m)
    requires forall i :: 0 <= i < |lives| ==> Known(h.store, h.list, m, KeyFor(m, lives[i])).Some?
    ensures var r := MergeAll(h, m, base, lives);
            r.store.Keys == base.store.Keys && r.next == base.next && forall i :: 0 <= i < |r.list| ==>
                r.list[i] in h.list
  {
    if lives != [] {
      var init := lives[..|lives| - 1];
      MergeAllKnown(h, m, base, init);
      MergeAllExtends(h, m, base, init);
    }
  }

  lemma UniqueNoDuplicates(store: map<nat, Position>, us: seq<nat>, m: Market)
    requires AllIn(store, us, m) && UniqueIn(store, us, m)
    ensures NoDuplicates(us)
  {
  }

  lemma {:induction false} KeptNoDuplicates(store: map<nat, Position>, list: seq<nat>, m: Market)
    requires NoDuplicates(list)
    ensures NoDuplicates(Kept(store, list, m))
  {
    if list != [] {
      var init := list[..|list| - 1];
      KeptNoDuplicates(store, init, m);
      KeptMembers(store, init, m);
      var us := Kept(store, init, m);
      assert forall i :: 0 <= i < |us| ==> us[i] in us;
    }
  }

  lemma StockHalfBenign(h: Holdings, stocks: Option<seq<Position>>)
    requires Valid(h) && NoDuplicates(h.list) && Benign(h, stocks, Stocks)
    ensures Shrinks(h, MergeStocks(h, stocks))
  {
    if stocks.Some? {
      MergeAllKnown(h, Stocks, h, stocks.value);
      MergeAllIn(h, Stocks, h, stocks.value);
      MergeAllUnique(h, Stocks, h, stocks.value);
      UniqueNoDuplicates(MergeStocks(h, stocks).store, MergeStocks(h, stocks).list, Stocks);
    } else {
      KeptNoDuplicates(h.store, h.list, Stocks);
      KeptMembers(h.store, h.list, Stocks);
    }
  }

  lemma CryptoHalfBenign(h: Holdings, base: Holdings, crypto: Option<seq<Position>>)
    requires Valid(h) && NoDuplicates(h.list) && Benign(h, crypto, Crypto)
    requires Extends(h, base) && base.store.Keys == h.store.Keys && base.next == h.next
    ensures Shrinks(h, MergeCrypto(h, base, crypto))
  {
    if crypto.Some? {
      MergeAllKnown(h, Crypto, base, crypto.value);
      LeftoverKnown(h, DictKeys(h.store, h.list), LiveKeys(Crypto, crypto.value));
      CryptoHalfUnique(h, base, crypto.value);
      CryptoHalf(h, base, crypto);
      UniqueNoDuplicates(MergeCrypto(h, base, crypto).store, MergeCrypto(h, base, crypto).list, Crypto);
      var us := MergeAll(h, Crypto, base, crypto.value).list;
      assert forall u :: u in us ==> exists i :: 0 <= i < |us| && us[i] == u;
    } else {
      KeptNoDuplicates(h.store, h.list, Crypto);
      KeptMembers(h.store, h.list, Crypto);
    }
  }

  /** A refresh from snapshots that import nothing and repeat nothing adds no entry to the list. */
  lemma RefreshBenign(h: Holdings, stocks: Option<seq<Position>>, crypto: Option<seq<Position>>)
    requires Valid(h) && NoDuplicates(h.list) && Benign(h, stocks, Stocks) && Benign(h, crypto, Crypto)
    ensures var r := Refresh(h, stocks, crypto); Shrinks(h, r) && Extends(h, r) && Valid(r)
  {
    StockHalf(h, stocks);
    StockHalfBenign(h, stocks);
    var s, c, r := MergeStocks(h, stocks), MergeCrypto(h, MergeStocks(h, stocks), crypto), Refresh(h, stocks, crypto);
    CryptoHalfBenign(h, s, crypto);
    RefreshHalves(h, stocks, crypto);
    RefreshKept(h, stocks, crypto);
    JoinNoDuplicates(r.store, s.list, c.list);
  }

  lemma JoinNoDuplicates(store: map<nat, Position>, a: seq<nat>, b: seq<nat>)
    requires NoDuplicates(a) && NoDuplicates(b) && AllIn(store, a, Stocks) && AllIn(store, b, Crypto)
    ensures NoDuplicates(a + b)
  {
  }
}
