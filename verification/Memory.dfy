/** Outcome memory (src/shared/memory.py): one pass over the event log that joins every close to the buy
    it closed, and a ranked recall over the result. */
module Memory {
  import opened Models
  import opened EventLog

  /** A buy record carries its sector and theme already picked out of the agents' scores. */
  datatype Lesson = Lesson(
    market: string, symbol: string, pnl: real, won: bool, returnPct: real, holdHours: real,
    entryScore: real, sector: string, theme: string, closedAt: string)

  /** `round` is Python's round(x, digits), left open; `upper` and `lower` are its case maps. */
  datatype Config = Config(
    enabled: bool, maxExamples: int, round: (real, int) -> real, upper: string -> string, lower: string -> string)

  type Key = (string, string)

  function KeyOf(r: Record): Key {
    (r.market, r.symbol)
  }

  function LessonOf(cfg: Config, close: Record, buy: Option<Record>): Lesson {
    var amount := if buy.Some? then buy.value.amount else 0.0;
    Lesson(
      close.market, close.symbol, (cfg.round)(close.pnl, 2), close.pnl >= 0.0,
      if amount != 0.0 then (cfg.round)(close.pnl / amount, 4) else 0.0,
      (cfg.round)(close.holdHours, 1),
      if buy.Some? then buy.value.score else 0.0,
      if buy.Some? then buy.value.sector else "",
      if buy.Some? then buy.value.theme else "",
      close.stamp)
  }

  /** A close drops out of the lookback window only if its time is known to be before the cutoff. */
  predicate IsExpired(r: Record, cutoff: int) {
    r.ts.Some? && r.ts.value < cutoff
  }

  predicate Teaches(r: Record, cutoff: int) {
    r.kind == Close && !IsExpired(r, cutoff)
  }

  // -- the fold -------------------------------------------------------------------------------------

  /** The buys still waiting for a close, by market and symbol. */
  function Opened(log: seq<Record>): map<Key, Record> {
    if log == [] then map[]
    else
      var before, r := Opened(log[..|log| - 1]), log[|log| - 1];
      match r.kind
      case Buy => before[KeyOf(r) := r]
      case Close => before - {KeyOf(r)}
      case _ => before
  }

  function Waiting(log: seq<Record>, key: Key): Option<Record> {
    if key in Opened(log) then Some(Opened(log)[key]) else None
  }

  function Lessons(cfg: Config, log: seq<Record>, cutoff: int): seq<Lesson> {
    if log == [] then []
    else
      var init, r := log[..|log| - 1], log[|log| - 1];
      Lessons(cfg, init, cutoff) + (if Teaches(r, cutoff) then [LessonOf(cfg, r, Waiting(init, KeyOf(r)))] else [])
  }

  // -- the declarative join -----------------------------------------------------------------------------

  /** Record `j` is the buy that is open under `key`, a market and a symbol, just before record
      `n`: the latest one, and not yet closed. */
  ghost predicate OpenAt(log: seq<Record>, n: nat, key: Key, j: nat) {
    && j < n <= |log| && log[j].kind == Buy && (log[j].market, log[j].symbol) == key
    && forall k :: j < k < n && (log[k].market, log[k].symbol) == key ==> log[k].kind != Buy && log[k].kind != Close
  }

  ghost function Opener(log: seq<Record>, n: nat, key: Key): Option<Record> {
    if exists j :: OpenAt(log, n, key, j) then
      var j: nat :| OpenAt(log, n, key, j);
      Some(log[j])
    else None
  }

  /** The closes inside the window, in log order. */
  function Closes(log: seq<Record>, cutoff: int): seq<nat> {
    if log == [] then []
    else Closes(log[..|log| - 1], cutoff) + (if Teaches(log[|log| - 1], cutoff) then [|log| - 1] else [])
  }

  lemma {:induction false} ClosesExact(log: seq<Record>, cutoff: int)
    ensures var cs := Closes(log, cutoff);
            && (forall a, b :: 0 <= a < b < |cs| ==> cs[a] < cs[b])
            && (forall i: nat :: i in cs <==> i < |log| && Teaches(log[i], cutoff))
  {
    if log != [] {
      hide Teaches;
      var init, n := log[..|log| - 1], |log| - 1;
      ClosesExact(init, cutoff);
      var cs, ds := Closes(init, cutoff), Closes(log, cutoff);
      assert ds == cs + (if Teaches(log[n], cutoff) then [n] else []);
      forall a, b | 0 <= a < b < |ds| ensures ds[a] < ds[b] {
        assert cs[a] in cs;
      }
      forall i: nat ensures i in ds <==> i < |log| && Teaches(log[i], cutoff) {
        assert i < n ==> init[i] == log[i];
        assert i in ds <==> i in cs || (Teaches(log[n], cutoff) && i == n);
      }
    }
  }

  lemma OpenAtPrefix(log: seq<Record>, n: nat, m: nat, key: Key, j: nat)
    requires n <= m <= |log|
    ensures OpenAt(log[..m], n, key, j) <==> OpenAt(log, n, key, j)
  {
    assert forall k :: 0 <= k < n ==> log[..m][k] == log[k];
  }

  lemma OpenAtUnique(log: seq<Record>, n: nat, key: Key, i: nat, j: nat)
    requires OpenAt(log, n, key, i) && OpenAt(log, n, key, j)
    ensures i == j
  {
  }

  /** What one more record does to the open buy of a key. */
  lemma OpenAtNext(log: seq<Record>, key: Key, j: nat)
    requires log != []
    ensures var n, r := |log| - 1, log[|log| - 1];
            OpenAt(log, |log|, key, j) <==>
              if KeyOf(r) == key && r.kind == Buy then j == n
              else OpenAt(log, n, key, j) && !(KeyOf(r) == key && r.kind == Close)
  {
  }

  /** The dict of the fold holds exactly the buys that are open. */
  lemma {:induction false} WaitingIsOpener(log: seq<Record>, key: Key)
    ensures Waiting(log, key) == Opener(log, |log|, key)
  {
    if log != [] {
      var init, n := log[..|log| - 1], |log| - 1;
      WaitingIsOpener(init, key);
      OpenerPrefix(log, n, key);
      forall j: nat ensures OpenAt(log, |log|, key, j) <==>
                            if KeyOf(log[n]) == key && log[n].kind == Buy then j == n
                            else OpenAt(log, n, key, j) && !(KeyOf(log[n]) == key && log[n].kind == Close) {
        OpenAtNext(log, key, j);
      }
      OpenerFrom(log, n, key);
    }
  }

  lemma OpenerFrom(log: seq<Record>, n: nat, key: Key)
    requires |log| == n + 1
    requires forall j: nat :: OpenAt(log, |log|, key, j) <==>
                              if KeyOf(log[n]) == key && log[n].kind == Buy then j == n
                              else OpenAt(log, n, key, j) && !(KeyOf(log[n]) == key && log[n].kind == Close)
    ensures Opener(log, |log|, key) ==
            if KeyOf(log[n]) == key && log[n].kind == Buy then Some(log[n])
            else if KeyOf(log[n]) == key && log[n].kind == Close then None
            else Opener(log, n, key)
  {
    if KeyOf(log[n]) == key && log[n].kind == Buy {
      assert OpenAt(log, |log|, key, n);
    } else if exists j :: OpenAt(log, n, key, j) {
      var j: nat :| OpenAt(log, n, key, j);
      forall i: nat | OpenAt(log, n, key, i) ensures i == j {
        OpenAtUnique(log, n, key, i, j);
      }
    }
  }

  lemma OpenerPrefix(log: seq<Record>, n: nat, key: Key)
    requires n <= |log|
    ensures Opener(log[..n], n, key) == Opener(log, n, key)
  {
    forall j: nat ensures OpenAt(log[..n], n, key, j) <==> OpenAt(log, n, key, j) {
      OpenAtPrefix(log, n, n, key, j);
    }
    if exists j :: OpenAt(log, n, key, j) {
      var j: nat :| OpenAt(log, n, key, j);
      forall i: nat | OpenAt(log, n, key, i) ensures i == j {
        OpenAtUnique(log, n, key, i, j);
      }
      assert log[..n][j] == log[j];
    }
  }

  /** Log join refinement. The one-pass load yields one lesson for each close inside the lookback window,
      in log order, joined with the latest earlier buy of the same market and symbol that no other close
      of theirs comes between, closes outside the window included. */
  lemma {:induction false} LoadIsJoin(cfg: Config, log: seq<Record>, cutoff: int)
    ensures var cs, ls := Closes(log, cutoff), Lessons(cfg, log, cutoff);
            && |ls| == |cs|
            && forall k :: 0 <= k < |cs| ==>
                 var i := cs[k];
                 i < |log| && ls[k] == LessonOf(cfg, log[i], Opener(log, i, (log[i].market, log[i].symbol)))
  {
    ClosesExact(log, cutoff);
    if log != [] {
      var init, n := log[..|log| - 1], |log| - 1;
      LoadIsJoin(cfg, init, cutoff);
      ClosesExact(init, cutoff);
      var cs, ls := Closes(log, cutoff), Lessons(cfg, log, cutoff);
      forall k | 0 <= k < |cs|
        ensures cs[k] < |log| && ls[k] == LessonOf(cfg, log[cs[k]], Opener(log, cs[k], KeyOf(log[cs[k]])))
      {
        assert cs[k] in cs;
        var i, key := cs[k], KeyOf(log[cs[k]]);
        OpenerPrefix(log, i, key);
        if k < |Closes(init, cutoff)| {
          assert Closes(init, cutoff)[k] in Closes(init, cutoff) && init[i] == log[i];
          OpenerPrefix(init, i, key);
          assert init[..i] == log[..i];
        } else {
          WaitingIsOpener(init, key);
        }
      }
    }
  }

  /** All that is assumed of a rounding to `digits`: at most half a unit of the last digit off. */
  ghost predicate IsRounding(round: (real, int) -> real) {
    forall x ::
      && -0.005 <= round(x, 2) - x <= 0.005
      && -0.05 <= round(x, 1) - x <= 0.05
      && -0.00005 <= round(x, 4) - x <= 0.00005
  }

  function Magnitude(x: real): real {
    if x < 0.0 then -x else x
  }

  /** What a lesson says of its close and the buy it was joined with: the outcome to the cent, a win when nothing
      was lost, a return that gives the outcome back when multiplied by what was paid, and the buy's own score,
      sector and theme. */
  ghost predicate Tells(l: Lesson, close: Record, buy: Option<Record>) {
    && l.market == close.market && l.symbol == close.symbol && l.closedAt == close.stamp
    && -0.005 <= l.pnl - close.pnl <= 0.005 && (l.won <==> close.pnl >= 0.0)
    && -0.05 <= l.holdHours - close.holdHours <= 0.05
    && (match buy
        case None => l.returnPct == 0.0 && l.entryScore == 0.0 && l.sector == "" && l.theme == ""
        case Some(b) =>
          && l.entryScore == b.score && l.sector == b.sector && l.theme == b.theme
          && Magnitude(Times(l.returnPct, b.amount) - (if b.amount == 0.0 then 0.0 else close.pnl))
               <= Times(0.00005, Magnitude(b.amount)))
  }

  lemma LessonTells(cfg: Config, close: Record, buy: Option<Record>)
    requires IsRounding(cfg.round)
    ensures Tells(LessonOf(cfg, close, buy), close, buy)
  {
    if buy.Some? && buy.value.amount != 0.0 {
      ReturnGivesBack(cfg.round, close.pnl, buy.value.amount);
    }
  }

  lemma ReturnGivesBack(round: (real, int) -> real, pnl: real, amount: real)
    requires IsRounding(round) && amount != 0.0
    ensures Magnitude(Times(round(pnl / amount, 4), amount) - pnl) <= Times(0.00005, Magnitude(amount))
  {
    hide Times;
    var r, x := round(pnl / amount, 4), pnl / amount;
    TimesQuotient(pnl, amount);
    TimesDifference(r, x, amount);
    SmallTimes(r - x, amount, 0.00005);
  }

  function Times(x: real, y: real): real {
    x * y
  }

  lemma TimesQuotient(x: real, y: real)
    requires y != 0.0
    ensures Times(x / y, y) == x
  {
    QuotientTimes(x, y);
  }

  lemma TimesDifference(r: real, x: real, y: real)
    ensures Times(r, y) - Times(x, y) == Times(r - x, y)
  {
  }

  lemma SmallTimes(x: real, y: real, e: real)
    requires -e <= x <= e
    ensures Magnitude(Times(x, y)) <= Times(e, Magnitude(y))
  {
    var z := Magnitude(y);
    ProductNonNegative(e - x, z);
    ProductNonNegative(e + x, z);
    assert (e - x) * z == e * z - x * z && (e + x) * z == e * z + x * z;
    assert y < 0.0 ==> x * z == -(x * y);
  }

  /** The loaded lessons are true of the log: lesson by lesson, in the order of the closes. */
  lemma LoadTells(cfg: Config, log: seq<Record>, cutoff: int, k: nat)
    requires IsRounding(cfg.round) && k < |Closes(log, cutoff)|
    ensures var i := Closes(log, cutoff)[k];
            && k < |Lessons(cfg, log, cutoff)| && i < |log|
            && Tells(Lessons(cfg, log, cutoff)[k], log[i], Opener(log, i, (log[i].market, log[i].symbol)))
  {
    LoadIsJoin(cfg, log, cutoff);
    var i := Closes(log, cutoff)[k];
    LessonTells(cfg, log[i], Opener(log, i, KeyOf(log[i])));
  }

  // -- recall -------------------------------------------------------------------------------------------

  datatype Query = Query(market: string, symbol: string, sector: string, theme: string)

  predicate SameSymbol(cfg: Config, l: Lesson, q: Query) {
    (cfg.upper)(q.symbol) != "" && (cfg.upper)(l.symbol) == (cfg.upper)(q.symbol)
  }

  predicate SameSector(cfg: Config, l: Lesson, q: Query) {
    (cfg.lower)(q.sector) != "" && (cfg.lower)(l.sector) == (cfg.lower)(q.sector)
  }

  predicate SameTheme(cfg: Config, l: Lesson, q: Query) {
    (cfg.lower)(q.theme) != "" && (cfg.lower)(l.theme) == (cfg.lower)(q.theme)
  }

  /** How specifically a lesson matches. */
  function Weight(cfg: Config, l: Lesson, q: Query): int {
    1 + (if SameSymbol(cfg, l, q) then 8 else 0) + (if SameSector(cfg, l, q) then 3 else 0)
      + (if SameTheme(cfg, l, q) then 3 else 0)
  }

  /** A scored lesson and its place in the list of lessons. */
  datatype Scored = Scored(weight: int, lesson: Lesson, at: nat)

  /** String order, by code point. */
  predicate AtMost(a: string, b: string) {
    a == "" || (b != "" && (a[0] < b[0] || (a[0] == b[0] && AtMost(a[1..], b[1..]))))
  }

  /** `x` sorts no later than `y` in a descending sort on weight, then on the time of the close. */
  predicate RanksOver(x: Scored, y: Scored) {
    x.weight > y.weight || (x.weight == y.weight && AtMost(y.lesson.closedAt, x.lesson.closedAt))
  }

  function ScoredAll(cfg: Config, ls: seq<Lesson>, q: Query): seq<Scored> {
    if ls == [] then []
    else
      var init, l := ScoredAll(cfg, ls[..|ls| - 1], q), ls[|ls| - 1];
      if l.market == q.market then init + [Scored(Weight(cfg, l, q), l, |ls| - 1)] else init
  }

  /** A stable descending sort: each element goes after everything it does not strictly outrank. */
  function Insert(xs: seq<Scored>, x: Scored): seq<Scored> {
    if xs == [] || RanksOver(xs[|xs| - 1], x) then xs + [x]
    else Insert(xs[..|xs| - 1], x) + [xs[|xs| - 1]]
  }

  function Sorted(xs: seq<Scored>): seq<Scored> {
    if xs == [] then [] else Insert(Sorted(xs[..|xs| - 1]), xs[|xs| - 1])
  }

  /** Python's `xs[:n]`. */
  function Slice<T>(xs: seq<T>, n: int): seq<T> {
    if n >= |xs| then xs else if n >= 0 then xs[..n] else if -n >= |xs| then [] else xs[..|xs| + n]
  }

  function Ranking(cfg: Config, ls: seq<Lesson>, q: Query): seq<Scored> {
    if !cfg.enabled then [] else Slice(Sorted(ScoredAll(cfg, ls, q)), cfg.maxExamples)
  }

  function LessonsOf(xs: seq<Scored>): (ls: seq<Lesson>)
    ensures |ls| == |xs| && forall i :: 0 <= i < |xs| ==> ls[i] == xs[i].lesson
  {
    seq(|xs|, i requires 0 <= i < |xs| => xs[i].lesson)
  }

  // -- the sort -----------------------------------------------------------------------------------------

  ghost predicate DiffersAt(a: string, b: string, k: int) {
    0 <= k < |a| && k < |b| && a[..k] == b[..k] && a[k] < b[k]
  }

  ghost predicate Precedes(a: string, b: string) {
    (|a| <= |b| && a == b[..|a|]) || exists k :: DiffersAt(a, b, k)
  }

  lemma DiffersLater(a: string, b: string, k: int)
    requires a != "" && b != "" && a[0] == b[0]
    ensures DiffersAt(a, b, k) <==> DiffersAt(a[1..], b[1..], k - 1)
  {
    if 0 < k < |a| && k < |b| {
      assert a[..k] == [a[0]] + a[1..][..k - 1] && b[..k] == [b[0]] + b[1..][..k - 1];
      assert a[1..][..k - 1] == a[..k][1..] && b[1..][..k - 1] == b[..k][1..];
    }
  }

  lemma PrefixLater(a: string, b: string)
    requires a != "" && b != "" && a[0] == b[0] && |a| <= |b|
    ensures a == b[..|a|] <==> a[1..] == b[1..][..|a| - 1]
  {
    assert a == [a[0]] + a[1..] && b[..|a|] == [b[0]] + b[1..][..|a| - 1];
    assert b[1..][..|a| - 1] == b[..|a|][1..];
  }

  lemma PrecedesLater(a: string, b: string)
    requires a != "" && b != "" && a[0] == b[0]
    ensures Precedes(a, b) <==> Precedes(a[1..], b[1..])
  {
    hide DiffersAt;
    if |a| <= |b| {
      PrefixLater(a, b);
    }
    if k :| DiffersAt(a, b, k) {
      DiffersLater(a, b, k);
    }
    if k :| DiffersAt(a[1..], b[1..], k) {
      DiffersLater(a, b, k + 1);
    }
  }

  lemma DiffersFirst(a: string, b: string, k: int)
    requires a != "" && b != "" && k > 0 && DiffersAt(a, b, k)
    ensures a[0] == b[0]
  {
    assert a[..k][0] == a[0];
  }

  /** The order of strings: a prefix comes first, and otherwise the first character that differs decides. */
  lemma {:induction false} AtMostIff(a: string, b: string)
    ensures AtMost(a, b) <==>
              (|a| <= |b| && a == b[..|a|]) || exists k :: DiffersAt(a, b, k)
  {
    if a != "" && b != "" && a[0] == b[0] {
      AtMostIff(a[1..], b[1..]);
      PrecedesLater(a, b);
    } else if a != "" && b != "" {
      assert DiffersAt(a, b, 0) <==> a[0] < b[0];
      if k :| DiffersAt(a, b, k) && k != 0 {
        DiffersFirst(a, b, k);
        assert false;
      }
    }
  }

  lemma {:induction false} AtMostTotal(a: string, b: string)
    ensures AtMost(a, b) || AtMost(b, a)
  {
    if a != "" && b != "" && a[0] == b[0] {
      AtMostTotal(a[1..], b[1..]);
    }
  }

  lemma {:induction false} AtMostTransitive(a: string, b: string, c: string)
    requires AtMost(a, b) && AtMost(b, c)
    ensures AtMost(a, c)
  {
    if a != "" && b[0] == a[0] && c[0] == b[0] {
      AtMostTransitive(a[1..], b[1..], c[1..]);
    }
  }

  /** The order the sort ends in: ties on the key keep the order of the log. */
  predicate Above(x: Scored, y: Scored) {
    RanksOver(x, y) && (RanksOver(y, x) ==> x.at < y.at)
  }

  lemma RanksTransitive(x: Scored, y: Scored, z: Scored)
    requires RanksOver(x, y) && RanksOver(y, z)
    ensures RanksOver(x, z)
  {
    if x.weight == y.weight == z.weight {
      AtMostTransitive(z.lesson.closedAt, y.lesson.closedAt, x.lesson.closedAt);
    }
  }

  ghost predicate Descending(xs: seq<Scored>) {
    forall i, j :: 0 <= i < j < |xs| ==> Above(xs[i], xs[j])
  }

  lemma {:induction false} InsertMembers(xs: seq<Scored>, x: Scored)
    ensures |Insert(xs, x)| == |xs| + 1
    ensures forall y :: y in Insert(xs, x) <==> y in xs || y == x
  {
    if xs != [] && !RanksOver(xs[|xs| - 1], x) {
      InsertMembers(xs[..|xs| - 1], x);
      assert xs == xs[..|xs| - 1] + [xs[|xs| - 1]];
    }
  }

  /** A later element goes in behind everything that ranks with it. */
  lemma {:induction false} InsertDescending(xs: seq<Scored>, x: Scored)
    requires Descending(xs) && forall y :: y in xs ==> y.at < x.at
    ensures Descending(Insert(xs, x))
  {
    if xs != [] {
      var init, last := xs[..|xs| - 1], xs[|xs| - 1];
      assert xs == init + [last];
      if RanksOver(last, x) {
        forall i | 0 <= i < |xs| ensures Above(xs[i], x) {
          assert xs[i] in xs;
          if i < |init| {
            RanksTransitive(xs[i], last, x);
          }
        }
      } else {
        AtMostTotal(last.lesson.closedAt, x.lesson.closedAt);
        InsertDescending(init, x);
        InsertMembers(init, x);
        var ys := Insert(init, x);
        forall i | 0 <= i < |ys| ensures Above(ys[i], last) {
          assert ys[i] in ys;
          if ys[i] != x {
            var j :| 0 <= j < |init| && init[j] == ys[i];
            assert xs[j] == init[j];
          }
        }
      }
    }
  }

  lemma {:induction false} SortedMembers(xs: seq<Scored>)
    ensures |Sorted(xs)| == |xs| && forall y :: y in Sorted(xs) <==> y in xs
  {
    if xs != [] {
      SortedMembers(xs[..|xs| - 1]);
      InsertMembers(Sorted(xs[..|xs| - 1]), xs[|xs| - 1]);
      assert xs == xs[..|xs| - 1] + [xs[|xs| - 1]];
    }
  }

  lemma {:induction false} SortedDescending(xs: seq<Scored>)
    requires forall i, j :: 0 <= i < j < |xs| ==> xs[i].at < xs[j].at
    ensures Descending(Sorted(xs))
  {
    if xs != [] {
      var init, last := xs[..|xs| - 1], xs[|xs| - 1];
      SortedDescending(init);
      SortedMembers(init);
      forall y | y in Sorted(init) ensures y.at < last.at {
        assert y in init;
        var i :| 0 <= i < |init| && init[i] == y;
        assert xs[i] == y;
      }
      InsertDescending(Sorted(init), last);
    }
  }

  lemma {:induction false} ScoredMembers(cfg: Config, ls: seq<Lesson>, q: Query)
    ensures var xs := ScoredAll(cfg, ls, q);
            && (forall i, j :: 0 <= i < j < |xs| ==> xs[i].at < xs[j].at)
            && (forall x :: x in xs <==>
                  && x.at < |ls| && x.lesson == ls[x.at] && x.lesson.market == q.market
                  && x.weight == Weight(cfg, x.lesson, q))
  {
    if ls != [] {
      var init := ls[..|ls| - 1];
      ScoredMembers(cfg, init, q);
      var xs := ScoredAll(cfg, init, q);
      assert forall i :: 0 <= i < |xs| ==> xs[i] in xs;
      assert forall i :: 0 <= i < |init| ==> init[i] == ls[i];
    }
  }

  /** The lesson at `i`, as the ranking sees it. */
  function At(cfg: Config, ls: seq<Lesson>, q: Query, i: nat): Scored
    requires i < |ls|
  {
    Scored(Weight(cfg, ls[i], q), ls[i], i)
  }

  /** How many of `n` a slice to `k` asks for; a negative `k` leaves the last ones out. */
  function Wanted(n: int, k: int): int {
    if k < 0 then MaxInt(0, n + k) else if k < n then k else n
  }

  /** Recall is a top-k. What it returns are lessons of the market in strictly descending rank, ties in
      log order, and every lesson of the market left out ranks below all of them. */
  lemma RecallTopK(cfg: Config, ls: seq<Lesson>, q: Query, i: nat)
    requires cfg.enabled && i < |ls| && ls[i].market == q.market
    ensures var top := Ranking(cfg, ls, q);
            && |top| == Wanted(|ScoredAll(cfg, ls, q)|, cfg.maxExamples)
            && Descending(top)
            && (forall k :: 0 <= k < |top| ==> IsAt(cfg, ls, q, top[k]))
            && (At(cfg, ls, q, i) in top || forall k :: 0 <= k < |top| ==> Above(top[k], At(cfg, ls, q, i)))
  {
    hide Sorted, ScoredAll, Weight, Descending, Above;
    var all := Sorted(ScoredAll(cfg, ls, q));
    ScoredMembers(cfg, ls, q);
    SortedMembers(ScoredAll(cfg, ls, q));
    SortedDescending(ScoredAll(cfg, ls, q));
    SliceTops(all, cfg.maxExamples, At(cfg, ls, q, i));
    var top := Slice(all, cfg.maxExamples);
    forall k | 0 <= k < |top| ensures IsAt(cfg, ls, q, top[k]) {
      assert top[k] == all[k] && all[k] in all;
    }
  }

  /** The scored lesson is one of the market's, scored and placed as it should be. */
  ghost predicate IsAt(cfg: Config, ls: seq<Lesson>, q: Query, x: Scored) {
    x.at < |ls| && x == At(cfg, ls, q, x.at) && x.lesson.market == q.market
  }

  lemma SliceTops(all: seq<Scored>, n: int, x: Scored)
    requires Descending(all) && x in all
    ensures var top := Slice(all, n);
            && |top| <= |all| && Descending(top) && (forall k :: 0 <= k < |top| ==> top[k] == all[k])
            && (x in top || forall k :: 0 <= k < |top| ==> Above(top[k], x))
  {
    var top := Slice(all, n);
    var i :| 0 <= i < |all| && all[i] == x;
    if i < |top| {
      assert top[i] == x;
    }
  }

  /** A lesson on the same symbol is never left out while one on another symbol is kept. */
  lemma SymbolFirst(cfg: Config, ls: seq<Lesson>, q: Query, i: nat, k: nat)
    requires i < |ls| && ls[i].market == q.market && SameSymbol(cfg, ls[i], q)
    requires k < |Ranking(cfg, ls, q)| && !SameSymbol(cfg, Ranking(cfg, ls, q)[k].lesson, q)
    ensures At(cfg, ls, q, i) in Ranking(cfg, ls, q)
  {
    RecallTopK(cfg, ls, q, i);
    assert Ranking(cfg, ls, q)[k].weight <= 7 && At(cfg, ls, q, i).weight >= 9;
  }

  /** Nor is one that matches on more: shares the symbol, the sector or the theme wherever the kept one does, and
      one of them besides. */
  lemma MoreAlikeFirst(cfg: Config, ls: seq<Lesson>, q: Query, i: nat, k: nat)
    requires i < |ls| && ls[i].market == q.market && k < |Ranking(cfg, ls, q)|
    requires var kept := Ranking(cfg, ls, q)[k].lesson;
             && (SameSymbol(cfg, kept, q) ==> SameSymbol(cfg, ls[i], q))
             && (SameSector(cfg, kept, q) ==> SameSector(cfg, ls[i], q))
             && (SameTheme(cfg, kept, q) ==> SameTheme(cfg, ls[i], q))
             && ((SameSymbol(cfg, ls[i], q) && !SameSymbol(cfg, kept, q))
                 || (SameSector(cfg, ls[i], q) && !SameSector(cfg, kept, q))
                 || (SameTheme(cfg, ls[i], q) && !SameTheme(cfg, kept, q)))
    ensures At(cfg, ls, q, i) in Ranking(cfg, ls, q)
  {
    RecallTopK(cfg, ls, q, i);
    assert IsAt(cfg, ls, q, Ranking(cfg, ls, q)[k]);
  }

  // -- the memory as an object ----------------------------------------------------------------------------

  class OutcomeMemory {
    const cfg: Config
    var trades: seq<Lesson>
    var loadedFrom: nat

    constructor (cfg: Config)
      ensures this.cfg == cfg && trades == [] && loadedFrom == 0
    {
      this.cfg := cfg;
      trades, loadedFrom := [], 0;
    }

    /** Pair each closed position with the buy that opened it. */
    method Load(records: seq<Record>, cutoff: int) returns (loaded: seq<Lesson>)
      modifies this
      ensures trades == loaded == Lessons(cfg, records, cutoff) && loadedFrom == |records|
    {
      var opens: map<Key, Record> := map[];
      loaded := [];
      for i := 0 to |records|
        invariant opens == Opened(records[..i])
        invariant loaded == Lessons(cfg, records[..i], cutoff)
      {
        var record, key := records[i], KeyOf(records[i]);
        assert records[..i + 1][..i] == records[..i];
        if record.kind == EventLog.Buy {
          opens := opens[key := record];
        } else if record.kind == Close {
          var buy := if key in opens then Some(opens[key]) else None;
          opens := opens - {key};
          if record.ts.Some? && record.ts.value < cutoff {
            continue;
          }
          loaded := loaded + [LessonOf(cfg, record, buy)];
        }
      }
      assert records[..|records|] == records;
      trades := loaded;
      loadedFrom := |records|;
    }

    /** Closed trades most comparable to the one being considered. */
    method Recall(q: Query) returns (lessons: seq<Lesson>)
      ensures lessons == LessonsOf(Ranking(cfg, trades, q))
    {
      if !cfg.enabled || trades == [] {
        return [];
      }
      var scored: seq<Scored> := [];
      for i := 0 to |trades|
        invariant scored == ScoredAll(cfg, trades[..i], q)
      {
        assert trades[..i + 1][..i] == trades[..i];
        if trades[i].market == q.market {
          scored := scored + [Scored(Weight(cfg, trades[i], q), trades[i], i)];
        }
      }
      assert trades[..|trades|] == trades;
      return LessonsOf(Slice(Sorted(scored), cfg.maxExamples));
    }
  }
}
