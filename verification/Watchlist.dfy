/** The launch scout (src/crypto/scout.py): a watchlist of bounded size over a lossy stream. A token is
    watched for one window, its trades are folded into running stats, and it is emitted at most once. */
module Watchlist {
  import opened Models

  datatype Token = Token(mint: string, creator: string, curveSol: real, curveTokens: real, capSol: real)

  /** A buy or sell event. Fields that are missing or do not parse are absent. */
  datatype Trade = Trade(mint: string, buy: bool, trader: string, sol: real, curve: Option<(real, real)>,
      cap: Option<real>)

  /** One token under observation. */
  datatype Stats = Stats(
    token: Token, startedAt: real, traders: set<string>, buys: nat, sells: nat,
    volumeSol: real, launched: Token, devSold: bool)

  /** The token as it looks at the end of its window. The price change it reports is the one between the
      curve it was launched with and the curve its last priced trade left, `token`. */
  datatype Measured = Measured(
    token: Token, buys: nat, sells: nat, uniqueTraders: nat, observed: real,
    volumeSol: real, launched: Token, devSold: bool)

  /** The launch filter and the watch filter are arbitrary predicates. */
  datatype Config = Config(
    watchEnabled: bool, window: real, maxConcurrent: int, minTrades: int,
    launchOk: Token -> bool, accept: Measured -> bool)

  datatype State = State(seen: set<string>, watching: map<string, Stats>, order: seq<string>, subscribed: set<string>)

  /** A frame by its `txType`. A create carries the clock reading its watch starts from. */
  datatype Frame = Created(token: Token, started: real) | Traded(trade: Trade) | Other

  /** A harvest reads the clock twice for a watch that is over: when it asks whether the window has run
      out, and again when it takes the measurements. */
  datatype Reading = Reading(asked: real, measured: real)

  type Clock = string -> Reading

  /** One turn of the stream. `clock` is what the harvest reads for each watch; the two flags say whether the
      (un)subscribe message got through. */
  datatype Event = Message(frame: Frame, clock: Clock, subscribeSent: bool, unsubscribeSent: bool) | Garbled | Dropped

  datatype Emission = FromWatch(measured: Measured) | Unwatched(token: Token)

  const EMPTY := State({}, map[], [], {})

  // -- one watch ------------------------------------------------------------------------------------

  function Fresh(t: Token, now: real): Stats {
    Stats(t, now, {}, 0, 0, 0.0, t, false)
  }

  function Abs(x: real): real {
    if x < 0.0 then -x else x
  }

  function WithCurve(w: Stats, curve: Option<(real, real)>): Stats {
    if curve.None? || curve.value.0 == 0.0 || curve.value.1 == 0.0 then w
    else w.(token := w.token.(curveSol := curve.value.0, curveTokens := curve.value.1))
  }

  function WithCap(w: Stats, cap: Option<real>): Stats {
    if cap.None? || cap.value == 0.0 then w else w.(token := w.token.(capSol := cap.value))
  }

  predicate CreatorSells(t: Trade, creator: string) {
    !t.buy && t.trader != "" && t.trader == creator
  }

  function Recorded(w: Stats, t: Trade): Stats {
    var counted := if t.buy then w.(buys := w.buys + 1)
                   else w.(sells := w.sells + 1, devSold := w.devSold || CreatorSells(t, w.token.creator));
    var traded := counted.(traders := if t.trader == "" then w.traders else w.traders + {t.trader},
        volumeSol := w.volumeSol + Abs(t.sol));
    WithCap(WithCurve(traded, t.curve), t.cap)
  }

  predicate Expired(cfg: Config, w: Stats, now: Reading) {
    now.asked - w.startedAt >= cfg.window
  }

  function Measure(w: Stats, now: Reading): Measured {
    Measured(w.token, w.buys, w.sells, |w.traders|, now.measured - w.startedAt, w.volumeSol, w.launched, w.devSold)
  }

  /** The fold of a whole tape. */
  function RecordedAll(w: Stats, ts: seq<Trade>): Stats {
    if ts == [] then w else Recorded(RecordedAll(w, ts[..|ts| - 1]), ts[|ts| - 1])
  }

  function Count(ts: seq<Trade>, buy: bool): nat {
    if ts == [] then 0 else Count(ts[..|ts| - 1], buy) + (if ts[|ts| - 1].buy == buy then 1 else 0)
  }

  function Traders(ts: seq<Trade>): set<string> {
    set i | 0 <= i < |ts| && ts[i].trader != "" :: ts[i].trader
  }

  lemma RecordedOne(w: Stats, t: Trade)
    ensures var r := Recorded(w, t);
            && r.buys == w.buys + (if t.buy then 1 else 0) && r.sells == w.sells + (if t.buy then 0 else 1)
            && r.traders == (if t.trader == "" then w.traders else w.traders + {t.trader})
            && (r.devSold <==> w.devSold || CreatorSells(t, w.token.creator))
            && r.startedAt == w.startedAt && r.token.mint == w.token.mint && r.token.creator == w.token.creator
  {
  }

  lemma {:induction false} TapeKeeps(t: Token, now: real, ts: seq<Trade>)
    ensures var w := RecordedAll(Fresh(t, now), ts);
            w.startedAt == now && w.token.mint == t.mint && w.token.creator == t.creator
  {
    if ts != [] {
      TapeKeeps(t, now, ts[..|ts| - 1]);
      RecordedOne(RecordedAll(Fresh(t, now), ts[..|ts| - 1]), ts[|ts| - 1]);
    }
  }

  /** The counters of a watch are those of its tape: every trade is one buy or one sell. */
  lemma {:induction false} TapeCounts(t: Token, now: real, ts: seq<Trade>)
    ensures var w := RecordedAll(Fresh(t, now), ts);
            w.buys == Count(ts, true) && w.sells == Count(ts, false) && w.buys + w.sells == |ts|
  {
    if ts != [] {
      TapeCounts(t, now, ts[..|ts| - 1]);
      RecordedOne(RecordedAll(Fresh(t, now), ts[..|ts| - 1]), ts[|ts| - 1]);
    }
  }

  lemma TradersAppend(ts: seq<Trade>, t: Trade)
    ensures Traders(ts + [t]) == (if t.trader == "" then Traders(ts) else Traders(ts) + {t.trader})
  {
    var all := ts + [t];
    assert forall i :: 0 <= i < |ts| ==> all[i] == ts[i];
    assert all[|ts|] == t;
    forall x | x in Traders(ts) ensures x in Traders(all) {
      var i :| 0 <= i < |ts| && ts[i].trader != "" && ts[i].trader == x;
      assert all[i].trader == x;
    }
    if t.trader != "" {
      assert all[|ts|].trader in Traders(all);
    }
  }

  /** It remembers each trader of its tape once. */
  lemma {:induction false} TapeTraders(t: Token, now: real, ts: seq<Trade>)
    ensures RecordedAll(Fresh(t, now), ts).traders == Traders(ts) && |Traders(ts)| <= |ts|
  {
    if ts != [] {
      var init, last := ts[..|ts| - 1], ts[|ts| - 1];
      assert ts == init + [last];
      TapeTraders(t, now, init);
      RecordedOne(RecordedAll(Fresh(t, now), init), last);
      TradersAppend(init, last);
    }
  }

  ghost predicate CreatorSold(ts: seq<Trade>, creator: string) {
    exists i :: 0 <= i < |ts| && CreatorSells(ts[i], creator)
  }

  /** It remembers a sell by the creator exactly when its tape holds one. */
  lemma {:induction false} TapeCreator(t: Token, now: real, ts: seq<Trade>)
    ensures RecordedAll(Fresh(t, now), ts).devSold <==> CreatorSold(ts, t.creator)
  {
    if ts != [] {
      var init, last := ts[..|ts| - 1], ts[|ts| - 1];
      TapeCreator(t, now, init);
      TapeKeeps(t, now, init);
      RecordedOne(RecordedAll(Fresh(t, now), init), last);
      assert forall i :: 0 <= i < |init| ==> ts[i] == init[i];
    }
  }

  predicate Priced(t: Trade) {
    t.curve.Some? && t.curve.value.0 != 0.0 && t.curve.value.1 != 0.0
  }

  predicate Capped(t: Trade) {
    t.cap.Some? && t.cap.value != 0.0
  }

  /** Trade `i` is the last of the tape that `p` holds of. */
  ghost predicate LastOf(ts: seq<Trade>, p: Trade -> bool, i: int) {
    0 <= i < |ts| && p(ts[i]) && forall j :: i < j < |ts| ==> !p(ts[j])
  }

  lemma LastOfNext(ts: seq<Trade>, p: Trade -> bool, i: int)
    requires ts != []
    ensures LastOf(ts, p, i) <==> if p(ts[|ts| - 1]) then i == |ts| - 1 else LastOf(ts[..|ts| - 1], p, i)
  {
  }

  /** The curve and the market cap of a watch are those of the last trade of its tape that carries them, and the
      launch's own until one does; what it was launched with stays. */
  lemma {:induction false} TapeLast(t: Token, now: real, ts: seq<Trade>, i: int)
    ensures var w := RecordedAll(Fresh(t, now), ts);
            && w.launched == t
            && (LastOf(ts, Priced, i) ==> Some((w.token.curveSol, w.token.curveTokens)) == ts[i].curve)
            && (LastOf(ts, Capped, i) ==> Some(w.token.capSol) == ts[i].cap)
            && ((forall j :: 0 <= j < |ts| ==> !Priced(ts[j])) ==>
                  w.token.curveSol == t.curveSol && w.token.curveTokens == t.curveTokens)
            && ((forall j :: 0 <= j < |ts| ==> !Capped(ts[j])) ==> w.token.capSol == t.capSol)
  {
    if ts != [] {
      var init := ts[..|ts| - 1];
      TapeLast(t, now, init, i);
      LastOfNext(ts, Priced, i);
      LastOfNext(ts, Capped, i);
      assert forall j :: 0 <= j < |init| ==> init[j] == ts[j];
    }
  }

  function Bought(ts: seq<Trade>, buy: bool): real {
    if ts == [] then 0.0
    else
      var t := ts[|ts| - 1];
      Bought(ts[..|ts| - 1], buy) + (if t.buy != buy then 0.0 else if t.sol >= 0.0 then t.sol else -t.sol)
  }

  /** Its volume is what was bought and what was sold, sizes without their sign. */
  lemma {:induction false} TapeVolume(t: Token, now: real, ts: seq<Trade>)
    ensures RecordedAll(Fresh(t, now), ts).volumeSol == Bought(ts, true) + Bought(ts, false)
  {
    if ts != [] {
      TapeVolume(t, now, ts[..|ts| - 1]);
    }
  }

  // -- the watchlist ----------------------------------------------------------------------------------

  /** Stage one: each mint is looked at once, and a full watchlist turns launches away. */
  function Admit(cfg: Config, s: State, t: Token): (State, Option<Token>) {
    if t.mint == "" || t.mint in s.seen then (s, None)
    else
      var noted := s.(seen := s.seen + {t.mint});
      if !cfg.launchOk(t) || |s.order| >= cfg.maxConcurrent then (noted, None) else (noted, Some(t))
  }

  function Watched(s: State, t: Token, now: real, sent: bool): State {
    s.(watching := s.watching[t.mint := Fresh(t, now)],
       order := if t.mint in s.watching then s.order else s.order + [t.mint],
       subscribed := if sent then s.subscribed + {t.mint} else s.subscribed)
  }

  function Traced(s: State, t: Trade): State {
    if t.mint in s.watching then s.(watching := s.watching[t.mint := Recorded(s.watching[t.mint], t)]) else s
  }

  predicate Due(cfg: Config, w: Stats, now: Reading) {
    Expired(cfg, w, now) || w.devSold
  }

  predicate Survives(cfg: Config, w: Stats, now: Reading) {
    !w.devSold && w.buys + w.sells >= cfg.minTrades && cfg.accept(Measure(w, now))
  }

  /** What a watch that is asked at `now` contributes to the harvest. */
  function Passed(cfg: Config, w: Stats, now: Reading): seq<Emission> {
    if Due(cfg, w, now) && Survives(cfg, w, now) then [FromWatch(Measure(w, now))] else []
  }

  /** What a harvest emits, in watch order. */
  function Ready(cfg: Config, watching: map<string, Stats>, order: seq<string>, clock: Clock): seq<Emission> {
    if order == [] then []
    else
      var m, init := order[|order| - 1], Ready(cfg, watching, order[..|order| - 1], clock);
      if m in watching then init + Passed(cfg, watching[m], clock(m)) else init
  }

  /** What it leaves. */
  function Staying(cfg: Config, watching: map<string, Stats>, order: seq<string>, clock: Clock): seq<string> {
    if order == [] then []
    else
      var m, init := order[|order| - 1], Staying(cfg, watching, order[..|order| - 1], clock);
      if m in watching && !Due(cfg, watching[m], clock(m)) then init + [m] else init
  }

  function Kept(cfg: Config, watching: map<string, Stats>, clock: Clock): map<string, Stats> {
    map m | m in watching && !Due(cfg, watching[m], clock(m)) :: watching[m]
  }

  function Harvested(cfg: Config, s: State, clock: Clock, sent: bool): State {
    var kept := Kept(cfg, s.watching, clock);
    s.(watching := kept,
       order := Staying(cfg, s.watching, s.order, clock),
       subscribed := if sent then s.subscribed - (s.watching.Keys - kept.Keys) else s.subscribed)
  }

  function Launched(cfg: Config, s: State, t: Token, started: real, sent: bool): (State, Option<Token>) {
    var (noted, admitted) := Admit(cfg, s, t);
    if admitted.None? || !cfg.watchEnabled then (noted, admitted) else (Watched(noted, t, started, sent), None)
  }

  /** Routing a frame, before the harvest: the token is one to emit without watching it. */
  function Routed(cfg: Config, s: State, e: Event): (State, Option<Token>)
    requires e.Message?
  {
    match e.frame
    case Created(t, started) => Launched(cfg, s, t, started, e.subscribeSent)
    case Traded(t) => (Traced(s, t), None)
    case Other => (s, None)
  }

  function Step(cfg: Config, s: State, e: Event): (State, seq<Emission>) {
    match e
    case Garbled => (s, [])
    case Dropped => (s.(watching := map[], order := [], subscribed := {}), [])
    case Message(_, clock, _, unsubscribeSent) =>
      var (routed, direct) := Routed(cfg, s, e);
      if direct.Some? then (routed, [Unwatched(direct.value)])
      else (Harvested(cfg, routed, clock, unsubscribeSent), Ready(cfg, routed.watching, routed.order, clock))
  }

  function Run(cfg: Config, trace: seq<Event>): (State, seq<Emission>) {
    if trace == [] then (EMPTY, [])
    else
      var (s, out) := Run(cfg, trace[..|trace| - 1]);
      var (t, more) := Step(cfg, s, trace[|trace| - 1]);
      (t, out + more)
  }

  // -- structure every run keeps ------------------------------------------------------------------------

  ghost predicate Distinct(ms: seq<string>) {
    forall i, j :: 0 <= i < j < |ms| ==> ms[i] != ms[j]
  }

  ghost predicate Tidy(cfg: Config, s: State) {
    && Distinct(s.order)
    && (forall m :: m in s.order <==> m in s.watching)
    && (forall m :: m in s.watching ==> s.watching[m].token.mint == m && m in s.seen)
    && |s.order| <= MaxInt(0, cfg.maxConcurrent)
  }

  lemma {:induction false} StayingMembers(cfg: Config, watching: map<string, Stats>, order: seq<string>, clock: Clock)
    requires Distinct(order)
    ensures var rest := Staying(cfg, watching, order, clock);
            && Distinct(rest) && |rest| <= |order|
            && forall m :: m in rest <==> m in order && m in watching && !Due(cfg, watching[m], clock(m))
  {
    if order != [] {
      var init := order[..|order| - 1];
      StayingMembers(cfg, watching, init, clock);
      assert order == init + [order[|order| - 1]];
      var rest := Staying(cfg, watching, init, clock);
      assert forall i :: 0 <= i < |rest| ==> rest[i] in rest;
      assert forall m :: m in init ==> exists i :: 0 <= i < |init| && init[i] == m;
    }
  }

  lemma WatchedTidy(cfg: Config, s: State, t: Token, now: real, sent: bool)
    requires Tidy(cfg, s) && t.mint in s.seen && t.mint !in s.watching && |s.order| < cfg.maxConcurrent
    ensures Tidy(cfg, Watched(s, t, now, sent))
  {
    assert forall i :: 0 <= i < |s.order| ==> s.order[i] in s.order;
  }

  lemma TracedTidy(cfg: Config, s: State, t: Trade)
    requires Tidy(cfg, s)
    ensures Tidy(cfg, Traced(s, t))
  {
    if t.mint in s.watching {
      RecordedOne(s.watching[t.mint], t);
    }
  }

  lemma RoutedTidy(cfg: Config, s: State, e: Event)
    requires Tidy(cfg, s) && e.Message?
    ensures Tidy(cfg, Routed(cfg, s, e).0)
  {
    match e.frame
    case Created(t, started) =>
      var (noted, admitted) := Admit(cfg, s, t);
      if admitted.Some? {
        WatchedTidy(cfg, noted, t, started, e.subscribeSent);
      }
    case Traded(t) => TracedTidy(cfg, s, t);
    case Other =>
  }

  lemma StepTidy(cfg: Config, s: State, e: Event)
    requires Tidy(cfg, s)
    ensures Tidy(cfg, Step(cfg, s, e).0)
  {
    if e.Message? {
      RoutedTidy(cfg, s, e);
      StayingMembers(cfg, Routed(cfg, s, e).0.watching, Routed(cfg, s, e).0.order, e.clock);
    }
  }

  lemma {:induction false} RunTidy(cfg: Config, trace: seq<Event>)
    ensures Tidy(cfg, Run(cfg, trace).0)
  {
    if trace != [] {
      RunTidy(cfg, trace[..|trace| - 1]);
      StepTidy(cfg, Run(cfg, trace[..|trace| - 1]).0, trace[|trace| - 1]);
    }
  }

  ghost predicate AllSent(trace: seq<Event>) {
    forall i :: 0 <= i < |trace| ==> trace[i].Message? ==> trace[i].subscribeSent && trace[i].unsubscribeSent
  }

  lemma {:induction false} RunSubscribed(cfg: Config, trace: seq<Event>)
    requires AllSent(trace)
    ensures Run(cfg, trace).0.subscribed == Run(cfg, trace).0.watching.Keys
  {
    if trace != [] {
      var init, e := trace[..|trace| - 1], trace[|trace| - 1];
      assert forall i :: 0 <= i < |init| ==> init[i] == trace[i];
      RunSubscribed(cfg, init);
      RunTidy(cfg, init);
      var s := Run(cfg, init).0;
      if e.Message? {
        assert Routed(cfg, s, e).0.subscribed == Routed(cfg, s, e).0.watching.Keys;
      }
    }
  }

  lemma {:induction false} KeysOfOrder(order: seq<string>, keys: set<string>)
    requires Distinct(order) && forall m :: m in order <==> m in keys
    ensures |keys| == |order|
  {
    if order == [] {
      assert keys == {};
    } else {
      var init, m := order[..|order| - 1], order[|order| - 1];
      assert order == init + [m];
      assert forall i :: 0 <= i < |init| ==> init[i] == order[i];
      assert m !in init;
      KeysOfOrder(init, keys - {m});
    }
  }

  /** Watchlist bound. On every run of creates, trades, harvests and disconnects, the watchlist stays
      within its capacity and inside the mints already seen, and the paid subscription covers exactly
      the watched mints as long as every (un)subscribe message gets through. */
  lemma WatchlistBounded(cfg: Config, trace: seq<Event>)
    ensures var s := Run(cfg, trace).0;
            && |s.watching| <= MaxInt(0, cfg.maxConcurrent)
            && s.watching.Keys <= s.seen
            && (AllSent(trace) ==> s.subscribed == s.watching.Keys)
  {
    RunTidy(cfg, trace);
    KeysOfOrder(Run(cfg, trace).0.order, Run(cfg, trace).0.watching.Keys);
    assert |Run(cfg, trace).0.watching| == |Run(cfg, trace).0.watching.Keys|;
    if AllSent(trace) {
      RunSubscribed(cfg, trace);
    }
  }

  // -- nothing is emitted twice ---------------------------------------------------------------------------

  function MintOf(e: Emission): string {
    if e.FromWatch? then e.measured.token.mint else e.token.mint
  }

  function MintsOf(es: seq<Emission>): (ms: seq<string>)
    ensures |ms| == |es| && forall i :: 0 <= i < |es| ==> ms[i] == MintOf(es[i])
  {
    seq(|es|, i requires 0 <= i < |es| => MintOf(es[i]))
  }

  /** Every emitted mint was a due watch of the list. */
  lemma {:induction false} ReadyMembers(cfg: Config, s: State, order: seq<string>, clock: Clock)
    requires Distinct(order) && forall m :: m in s.watching ==> s.watching[m].token.mint == m
    ensures var es := Ready(cfg, s.watching, order, clock);
            && Distinct(MintsOf(es))
            && forall k :: 0 <= k < |es| ==> MintOf(es[k]) in order && Emits(cfg, s, es[k], clock)
  {
    if order != [] {
      var init, m := order[..|order| - 1], order[|order| - 1];
      assert order == init + [m];
      ReadyMembers(cfg, s, init, clock);
      var before, es := Ready(cfg, s.watching, init, clock), Ready(cfg, s.watching, order, clock);
      assert forall k :: 0 <= k < |before| ==> MintOf(before[k]) in init;
      assert forall i :: 0 <= i < |init| ==> init[i] == order[i];
      assert m !in init;
      assert forall k :: 0 <= k < |before| ==> MintsOf(es)[k] == MintOf(before[k]);
    }
  }

  /** The emission is the measurement of a watch that was due and survived. */
  ghost predicate Emits(cfg: Config, s: State, e: Emission, clock: Clock) {
    e.FromWatch? &&
    var m := MintOf(e);
    && m in s.watching && Due(cfg, s.watching[m], clock(m)) && Survives(cfg, s.watching[m], clock(m))
    && e.measured == Measure(s.watching[m], clock(m))
  }

  /** Emitted mints are distinct, seen, and no longer watched. */
  ghost predicate Spent(s: State, ms: seq<string>) {
    Distinct(ms) && forall i :: 0 <= i < |ms| ==> ms[i] in s.seen && ms[i] !in s.watching
  }

  lemma StepSpent(cfg: Config, s: State, e: Event, out: seq<Emission>)
    requires Tidy(cfg, s) && Spent(s, MintsOf(out))
    ensures var (t, more) := Step(cfg, s, e); Spent(t, MintsOf(out + more))
  {
    var (t, more) := Step(cfg, s, e);
    assert MintsOf(out + more) == MintsOf(out) + MintsOf(more);
    if e.Message? {
      RoutedTidy(cfg, s, e);
      var (routed, direct) := Routed(cfg, s, e);
      RoutedSpent(cfg, s, e, MintsOf(out));
      if direct.None? {
        ReadyMembers(cfg, routed, routed.order, e.clock);
        JoinSpent(routed, MintsOf(out), MintsOf(more));
      } else {
        assert MintsOf(more) == [direct.value.mint];
      }
    } else {
      assert MintsOf(more) == [];
    }
  }

  /** Routing watches only a mint not seen before. */
  lemma RoutedSpent(cfg: Config, s: State, e: Event, ms: seq<string>)
    requires Tidy(cfg, s) && Spent(s, ms) && e.Message?
    ensures Spent(Routed(cfg, s, e).0, ms)
    ensures var (routed, direct) := Routed(cfg, s, e);
            direct.Some? ==>
              && direct.value.mint !in ms && direct.value.mint in routed.seen
              && direct.value.mint !in routed.watching
  {
  }

  lemma JoinSpent(s: State, ms: seq<string>, more: seq<string>)
    requires Spent(s, ms) && Distinct(more) && forall i :: 0 <= i < |more| ==> more[i] in s.watching
    ensures Distinct(ms + more)
  {
  }

  lemma {:induction false} RunSpent(cfg: Config, trace: seq<Event>)
    ensures var (s, out) := Run(cfg, trace); Spent(s, MintsOf(out))
  {
    if trace != [] {
      RunSpent(cfg, trace[..|trace| - 1]);
      RunTidy(cfg, trace[..|trace| - 1]);
      var (s, out) := Run(cfg, trace[..|trace| - 1]);
      StepSpent(cfg, s, trace[|trace| - 1], out);
    }
  }

  /** No mint is ever emitted twice, reconnects included. */
  lemma NeverEmittedTwice(cfg: Config, trace: seq<Event>, i: nat, j: nat)
    requires i < j < |Run(cfg, trace).1|
    ensures MintOf(Run(cfg, trace).1[i]) != MintOf(Run(cfg, trace).1[j])
  {
    RunSpent(cfg, trace);
    var ms := MintsOf(Run(cfg, trace).1);
    assert ms[i] != ms[j];
  }

  // -- one chance -------------------------------------------------------------------------------------------

  /** A launch not seen before is taken exactly when it has a mint, passes the launch filter and there is
      room: then it is watched from that moment, or handed on at once when watching is off. Otherwise the
      watchlist is left as it was. Either way its mint counts as seen. */
  lemma LaunchWatched(cfg: Config, s: State, e: Event)
    requires Tidy(cfg, s) && e.Message? && e.frame.Created? && e.frame.token.mint !in s.seen
    ensures var t, (r, direct) := e.frame.token, Routed(cfg, s, e);
            var taken := t.mint != "" && cfg.launchOk(t) && |s.order| < cfg.maxConcurrent;
            && r.seen == (if t.mint == "" then s.seen else s.seen + {t.mint})
            && direct == (if taken && !cfg.watchEnabled then Some(t) else None)
            && r.watching == (if taken && cfg.watchEnabled then s.watching[t.mint := Fresh(t, e.frame.started)]
                else s.watching)
  {
  }

  lemma StepForgets(cfg: Config, s: State, e: Event, m: string)
    requires Tidy(cfg, s) && m in s.seen && m !in s.watching
    ensures var (t, out) := Step(cfg, s, e);
            m in t.seen && m !in t.watching && forall k :: 0 <= k < |out| ==> MintOf(out[k]) != m
  {
    if e.Message? {
      RoutedTidy(cfg, s, e);
      var (routed, direct) := Routed(cfg, s, e);
      assert m !in routed.watching;
      if direct.None? {
        ReadyMembers(cfg, routed, routed.order, e.clock);
      }
    }
  }

  lemma RunAppends(cfg: Config, trace: seq<Event>, e: Event)
    ensures var (s, out) := Run(cfg, trace); var (t, more) := Step(cfg, s, e); Run(cfg, trace + [e]) == (t, out + more)
  {
    assert (trace + [e])[..|trace|] == trace;
  }

  /** Each mint has one chance. Once it has been seen and is not being watched, be it turned away, judged
      or lost with a connection, it is never watched or emitted again, whatever the stream brings. */
  lemma {:induction false} OneChance(cfg: Config, trace: seq<Event>, more: seq<Event>, m: string)
    requires m in Run(cfg, trace).0.seen && m !in Run(cfg, trace).0.watching
    ensures var (s, out) := Run(cfg, trace + more);
            && m in s.seen && m !in s.watching && |out| >= |Run(cfg, trace).1|
            && forall k :: |Run(cfg, trace).1| <= k < |out| ==> MintOf(out[k]) != m
  {
    if more == [] {
      assert trace + more == trace;
    } else {
      var init, e := more[..|more| - 1], more[|more| - 1];
      OneChance(cfg, trace, init, m);
      assert trace + more == (trace + init) + [e];
      RunTidy(cfg, trace + init);
      RunAppends(cfg, trace + init, e);
      StepForgets(cfg, Run(cfg, trace + init).0, e, m);
    }
  }

  // -- what an emission was earned with ---------------------------------------------------------------------

  /** The trades of one mint in a stretch of the stream. */
  function Tape(trace: seq<Event>, m: string): seq<Trade> {
    if trace == [] then []
    else
      var init, e := Tape(trace[..|trace| - 1], m), trace[|trace| - 1];
      if e.Message? && e.frame.Traded? && e.frame.trade.mint == m then init + [e.frame.trade] else init
  }

  /** `w` is the watch opened by event `c` with every trade of its mint since. */
  ghost predicate WatchedSince(trace: seq<Event>, c: nat, m: string, w: Stats) {
    && c < |trace| && trace[c].Message? && trace[c].frame.Created? && trace[c].frame.token.mint == m
    && (forall i :: c < i < |trace| ==> !trace[i].Dropped?)
    && w == RecordedAll(Fresh(trace[c].frame.token, trace[c].frame.started), Tape(trace[c + 1..], m))
  }

  ghost predicate Faithful(trace: seq<Event>, watching: map<string, Stats>) {
    forall m :: m in watching ==> exists c :: WatchedSince(trace, c, m, watching[m])
  }

  lemma WatchedLonger(trace: seq<Event>, e: Event, c: nat, m: string, w: Stats)
    requires WatchedSince(trace, c, m, w) && !e.Dropped?
    ensures WatchedSince(trace + [e], c, m,
                         if e.Message? && e.frame.Traded? && e.frame.trade.mint == m
                         then Recorded(w, e.frame.trade) else w)
  {
    var longer := trace + [e];
    assert longer[c + 1..] == trace[c + 1..] + [e];
    assert (trace[c + 1..] + [e])[..|trace| - c - 1] == trace[c + 1..];
    var tape := Tape(trace[c + 1..], m);
    if e.Message? && e.frame.Traded? && e.frame.trade.mint == m {
      assert (tape + [e.frame.trade])[..|tape|] == tape;
    }
    assert forall i :: 0 <= i < |trace| ==> longer[i] == trace[i];
  }

  /** What routing does to one watch: it is left alone, grows by its trade, or is opened. */
  lemma RoutedWatches(cfg: Config, s: State, e: Event, m: string)
    requires Tidy(cfg, s) && e.Message? && m in Routed(cfg, s, e).0.watching
    ensures var w, f := Routed(cfg, s, e).0.watching[m], e.frame;
            if m in s.watching
            then w == (if f.Traded? && f.trade.mint == m then Recorded(s.watching[m], f.trade) else s.watching[m])
            else f.Created? && f.token.mint == m && w == Fresh(f.token, f.started)
  {
  }

  lemma NewlyWatched(trace: seq<Event>, e: Event)
    requires e.Message? && e.frame.Created?
    ensures WatchedSince(trace + [e], |trace|, e.frame.token.mint, Fresh(e.frame.token, e.frame.started))
  {
    assert (trace + [e])[|trace| + 1..] == [];
  }

  lemma RoutedFaithful(cfg: Config, s: State, trace: seq<Event>, e: Event)
    requires Tidy(cfg, s) && Faithful(trace, s.watching) && e.Message?
    ensures Faithful(trace + [e], Routed(cfg, s, e).0.watching)
  {
    var r := Routed(cfg, s, e).0;
    forall m | m in r.watching ensures exists c :: WatchedSince(trace + [e], c, m, r.watching[m]) {
      RoutedWatches(cfg, s, e, m);
      if m in s.watching {
        var c: nat :| WatchedSince(trace, c, m, s.watching[m]);
        WatchedLonger(trace, e, c, m, s.watching[m]);
      } else {
        NewlyWatched(trace, e);
      }
    }
  }

  lemma {:induction false} RunFaithful(cfg: Config, trace: seq<Event>)
    ensures Faithful(trace, Run(cfg, trace).0.watching)
  {
    if trace != [] {
      var init, e := trace[..|trace| - 1], trace[|trace| - 1];
      assert trace == init + [e];
      RunFaithful(cfg, init);
      RunTidy(cfg, init);
      var s := Run(cfg, init).0;
      if e.Message? {
        RoutedFaithful(cfg, s, init, e);
      } else if e.Garbled? {
        GarbledFaithful(init, e, s.watching);
      }
    }
  }

  lemma GarbledFaithful(trace: seq<Event>, e: Event, watching: map<string, Stats>)
    requires Faithful(trace, watching) && e.Garbled?
    ensures Faithful(trace + [e], watching)
  {
    forall m | m in watching ensures exists c :: WatchedSince(trace + [e], c, m, watching[m]) {
      var c: nat :| WatchedSince(trace, c, m, watching[m]);
      WatchedLonger(trace, e, c, m, watching[m]);
    }
  }

  /** A tape whole, from opening the watch to reading the clock, makes up what was emitted. */
  ghost predicate EarnedBy(cfg: Config, t: Token, started: real, tape: seq<Trade>, now: Reading, q: Measured) {
    && q.token.mint == t.mint && q.token.creator == t.creator
    && now.asked - started >= cfg.window && q.observed == now.measured - started && q.launched == t
    && !CreatorSold(tape, t.creator) && !q.devSold
    && q.buys == Count(tape, true) && q.sells == Count(tape, false) && q.buys + q.sells == |tape| >= cfg.minTrades
    && q.uniqueTraders == |Traders(tape)| <= q.buys + q.sells
    && q.volumeSol == Bought(tape, true) + Bought(tape, false)
    && (forall i :: LastOf(tape, Priced, i) ==> Some((q.token.curveSol, q.token.curveTokens)) == tape[i].curve)
    && (forall i :: LastOf(tape, Capped, i) ==> Some(q.token.capSol) == tape[i].cap)
    && cfg.accept(q)
    && q == Measure(RecordedAll(Fresh(t, started), tape), now)
  }

  /** The stream between events `c` and `i` earned the emission: the window opened at `c` had run out
      at `i`, and the connection held in between. */
  ghost predicate Earned(cfg: Config, trace: seq<Event>, c: nat, i: nat, q: Measured) {
    && c <= i < |trace| && trace[c].Message? && trace[c].frame.Created? && trace[i].Message?
    && (forall k :: c <= k <= i ==> !trace[k].Dropped?)
    && EarnedBy(cfg, trace[c].frame.token, trace[c].frame.started, Tape(trace[c + 1..i + 1], q.token.mint),
                trace[i].clock(q.token.mint), q)
  }

  lemma SurvivorEarned(cfg: Config, t: Token, started: real, tape: seq<Trade>, now: Reading)
    requires var w := RecordedAll(Fresh(t, started), tape); Due(cfg, w, now) && Survives(cfg, w, now)
    ensures EarnedBy(cfg, t, started, tape, now, Measure(RecordedAll(Fresh(t, started), tape), now))
  {
    TapeKeeps(t, started, tape);
    TapeCounts(t, started, tape);
    TapeTraders(t, started, tape);
    TapeCreator(t, started, tape);
    TapeVolume(t, started, tape);
    TapeLast(t, started, tape, 0);
    forall i
      ensures LastOf(tape, Priced, i) ==>
                var w := RecordedAll(Fresh(t, started), tape);
                Some((w.token.curveSol, w.token.curveTokens)) == tape[i].curve
      ensures LastOf(tape, Capped, i) ==> Some(RecordedAll(Fresh(t, started), tape).token.capSol) == tape[i].cap
    {
      TapeLast(t, started, tape, i);
    }
  }

  lemma WatchEarned(cfg: Config, trace: seq<Event>, c: nat, m: string, w: Stats, i: nat)
    requires WatchedSince(trace, c, m, w) && i + 1 == |trace| && trace[i].Message?
    requires Due(cfg, w, trace[i].clock(m)) && Survives(cfg, w, trace[i].clock(m))
    ensures Earned(cfg, trace, c, i, Measure(w, trace[i].clock(m)))
  {
    assert trace[c + 1..] == trace[c + 1..i + 1];
    SurvivorEarned(cfg, trace[c].frame.token, trace[c].frame.started, Tape(trace[c + 1..], m), trace[i].clock(m));
  }

  /** The emissions of one more event. */
  lemma StepEarned(cfg: Config, s: State, trace: seq<Event>, e: Event, k: nat) returns (c: nat)
    requires Tidy(cfg, s) && Faithful(trace, s.watching)
    requires k < |Step(cfg, s, e).1| && Step(cfg, s, e).1[k].FromWatch?
    ensures Earned(cfg, trace + [e], c, |trace|, Step(cfg, s, e).1[k].measured)
  {
    RoutedTidy(cfg, s, e);
    RoutedFaithful(cfg, s, trace, e);
    var routed, emission := Routed(cfg, s, e).0, Step(cfg, s, e).1[k];
    ReadyMembers(cfg, routed, routed.order, e.clock);
    var m := MintOf(emission);
    assert Emits(cfg, routed, emission, e.clock);
    c :| WatchedSince(trace + [e], c, m, routed.watching[m]);
    WatchEarned(cfg, trace + [e], c, m, routed.watching[m], |trace|);
  }

  lemma EarnedLonger(cfg: Config, trace: seq<Event>, e: Event, c: nat, i: nat, q: Measured)
    requires Earned(cfg, trace, c, i, q)
    ensures Earned(cfg, trace + [e], c, i, q)
  {
    assert (trace + [e])[c + 1..i + 1] == trace[c + 1..i + 1];
    assert forall k :: 0 <= k < |trace| ==> (trace + [e])[k] == trace[k];
  }

  lemma RunSplits(cfg: Config, trace: seq<Event>, e: Event, k: nat)
    requires k < |Run(cfg, trace + [e]).1|
    ensures var (s, out) := Run(cfg, trace);
            if k < |out| then Run(cfg, trace + [e]).1[k] == out[k]
            else k - |out| < |Step(cfg, s, e).1| && Run(cfg, trace + [e]).1[k] == Step(cfg, s, e).1[k - |out|]
  {
    assert (trace + [e])[..|trace|] == trace;
  }

  lemma LaterEarned(cfg: Config, trace: seq<Event>, e: Event, j: nat, q: Measured) returns (c: nat)
    requires j < |Step(cfg, Run(cfg, trace).0, e).1| && Step(cfg, Run(cfg, trace).0, e).1[j] == FromWatch(q)
    ensures Earned(cfg, trace + [e], c, |trace|, q)
  {
    RunTidy(cfg, trace);
    RunFaithful(cfg, trace);
    c := StepEarned(cfg, Run(cfg, trace).0, trace, e, j);
  }

  /** Every token emitted from a watch had its window run out with no sell by its creator, at least the
      required number of trades, and the filter's approval, all read off the tape of the stream between
      its launch and the harvest; every routed trade is counted once. */
  lemma {:induction false} EmissionEarned(cfg: Config, trace: seq<Event>, k: nat) returns (c: nat, i: nat)
    requires k < |Run(cfg, trace).1| && Run(cfg, trace).1[k].FromWatch?
    ensures Earned(cfg, trace, c, i, Run(cfg, trace).1[k].measured)
  {
    var init, e := trace[..|trace| - 1], trace[|trace| - 1];
    assert trace == init + [e];
    RunSplits(cfg, init, e, k);
    if k < |Run(cfg, init).1| {
      c, i := EmissionEarned(cfg, init, k);
      EarnedLonger(cfg, init, e, c, i, Run(cfg, init).1[k].measured);
    } else {
      c := LaterEarned(cfg, init, e, k - |Run(cfg, init).1|, Run(cfg, trace).1[k].measured);
      i := |init|;
    }
  }

  /** The mints a harvest drops. */
  ghost function Gone(cfg: Config, watching: map<string, Stats>, order: seq<string>, clock: Clock): set<string> {
    if order == [] then {}
    else
      var m, init := order[|order| - 1], Gone(cfg, watching, order[..|order| - 1], clock);
      if m in watching && Due(cfg, watching[m], clock(m)) then init + {m} else init
  }

  lemma {:induction false} GoneMembers(cfg: Config, watching: map<string, Stats>, order: seq<string>, clock: Clock)
    ensures forall m :: m in Gone(cfg, watching, order, clock) <==>
                        m in order && m in watching && Due(cfg, watching[m], clock(m))
  {
    if order != [] {
      GoneMembers(cfg, watching, order[..|order| - 1], clock);
      assert order == order[..|order| - 1] + [order[|order| - 1]];
    }
  }

  lemma HarvestAppends(cfg: Config, watching: map<string, Stats>, order: seq<string>, m: string, clock: Clock)
    requires m in watching && m !in order
    ensures m !in Gone(cfg, watching, order, clock)
    ensures Ready(cfg, watching, order + [m], clock)
              == Ready(cfg, watching, order, clock) + Passed(cfg, watching[m], clock(m))
    ensures Due(cfg, watching[m], clock(m)) ==>
              && Staying(cfg, watching, order + [m], clock) == Staying(cfg, watching, order, clock)
              && Gone(cfg, watching, order + [m], clock) == Gone(cfg, watching, order, clock) + {m}
    ensures !Due(cfg, watching[m], clock(m)) ==>
              && Staying(cfg, watching, order + [m], clock) == Staying(cfg, watching, order, clock) + [m]
              && Gone(cfg, watching, order + [m], clock) == Gone(cfg, watching, order, clock)
  {
    GoneMembers(cfg, watching, order, clock);
    assert (order + [m])[..|order|] == order;
  }

  lemma KeptIsRest(cfg: Config, watching: map<string, Stats>, order: seq<string>, clock: Clock)
    requires forall m :: m in watching ==> m in order
    ensures Kept(cfg, watching, clock) == watching - Gone(cfg, watching, order, clock)
  {
    GoneMembers(cfg, watching, order, clock);
  }

  lemma NextOf(order: seq<string>, i: nat)
    requires Distinct(order) && i < |order|
    ensures order[..i + 1] == order[..i] + [order[i]] && order[i] in order && order[i] !in order[..i]
  {
  }

  lemma MinusOne(watching: map<string, Watch>, gone: set<string>, m: string)
    ensures watching - (gone + {m}) == watching - gone - {m}
  {
  }

  lemma {:induction false} ReadyHas(cfg: Config, watching: map<string, Stats>, order: seq<string>, clock: Clock,
      m: string)
    requires m in order && m in watching && Passed(cfg, watching[m], clock(m)) != []
    ensures FromWatch(Measure(watching[m], clock(m))) in Ready(cfg, watching, order, clock)
  {
    if m != order[|order| - 1] {
      assert order == order[..|order| - 1] + [order[|order| - 1]];
      ReadyHas(cfg, watching, order[..|order| - 1], clock, m);
    }
  }

  /** Nothing is lost. After the frame is routed, a watch that is not over stays as it is, one that is
      over goes, and of those exactly the survivors are emitted. */
  lemma HarvestComplete(cfg: Config, s: State, e: Event, m: string)
    requires Tidy(cfg, s) && e.Message? && Routed(cfg, s, e).1.None? && m in Routed(cfg, s, e).0.watching
    ensures var w, now := Routed(cfg, s, e).0.watching[m], e.clock(m);
            var (t, out) := Step(cfg, s, e);
            var over := now.asked - w.startedAt >= cfg.window || w.devSold;
            var passes := over && !w.devSold && w.buys + w.sells >= cfg.minTrades && cfg.accept(Measure(w, now));
            && (!over <==> m in t.watching)
            && (m in t.watching ==> t.watching[m] == w)
            && (passes <==> exists k :: 0 <= k < |out| && MintOf(out[k]) == m)
            && (passes ==> FromWatch(Measure(w, now)) in out)
  {
    RoutedTidy(cfg, s, e);
    var routed := Routed(cfg, s, e).0;
    ReadyMembers(cfg, routed, routed.order, e.clock);
    if Due(cfg, routed.watching[m], e.clock(m)) && Survives(cfg, routed.watching[m], e.clock(m)) {
      ReadyHas(cfg, routed.watching, routed.order, e.clock, m);
    }
  }

  // -- what earns an emission is emitted --------------------------------------------------------------------

  /** A launch the scout takes up: not seen before, past the launch filter, with room to watch it. */
  ghost predicate Taken(cfg: Config, s: State, e: Event) {
    && e.Message? && e.frame.Created? && cfg.watchEnabled
    && e.frame.token.mint != "" && e.frame.token.mint !in s.seen
    && cfg.launchOk(e.frame.token) && |s.order| < cfg.maxConcurrent
  }

  /** The whole tape of the launch at `c`, event `j` included. */
  function WatchAt(trace: seq<Event>, c: nat, j: nat): Stats
    requires c <= j < |trace| && trace[c].Message? && trace[c].frame.Created?
  {
    var t := trace[c].frame.token;
    RecordedAll(Fresh(t, trace[c].frame.started), Tape(trace[c + 1..j + 1], t.mint))
  }

  /** The connection held from `c` on, and no harvest before `i` found the watch over. */
  ghost predicate Pending(cfg: Config, trace: seq<Event>, c: nat, i: nat)
    requires c <= i <= |trace| && (c < |trace| ==> trace[c].Message? && trace[c].frame.Created?)
  {
    forall j :: c <= j < i ==>
      !trace[j].Dropped?
      && (trace[j].Message? ==> !Due(cfg, WatchAt(trace, c, j), trace[j].clock(trace[c].frame.token.mint)))
  }

  lemma WatchAtNext(trace: seq<Event>, e: Event, c: nat)
    requires c < |trace| && trace[c].Message? && trace[c].frame.Created?
    ensures var m, w, longer := trace[c].frame.token.mint, WatchAt(trace, c, |trace| - 1), trace + [e];
            && (forall j :: c <= j < |trace| ==> WatchAt(longer, c, j) == WatchAt(trace, c, j))
            && WatchAt(longer, c, |trace|) ==
                 (if e.Message? && e.frame.Traded? && e.frame.trade.mint == m then Recorded(w, e.frame.trade) else w)
  {
    var longer := trace + [e];
    forall j | c <= j < |trace| ensures WatchAt(longer, c, j) == WatchAt(trace, c, j) {
      assert longer[c + 1..j + 1] == trace[c + 1..j + 1];
    }
    var tape := trace[c + 1..|trace|];
    assert longer[c + 1..|trace| + 1] == tape + [e] && (tape + [e])[..|tape|] == tape;
    var trades := Tape(tape, trace[c].frame.token.mint);
    if e.Message? && e.frame.Traded? {
      assert (trades + [e.frame.trade])[..|trades|] == trades;
    }
  }

  /** A launch taken up is watched, with all its trades, for as long as it is pending. */
  lemma {:induction false} WatchGoesOn(cfg: Config, trace: seq<Event>, c: nat)
    requires c < |trace| && Taken(cfg, Run(cfg, trace[..c]).0, trace[c]) && Pending(cfg, trace, c, |trace|)
    ensures var m := trace[c].frame.token.mint;
            m in Run(cfg, trace).0.watching && Run(cfg, trace).0.watching[m] == WatchAt(trace, c, |trace| - 1)
    decreases |trace|, 1
  {
    hide Tape, RecordedAll, Due, Tidy, Routed;
    var init, e, m := trace[..|trace| - 1], trace[|trace| - 1], trace[c].frame.token.mint;
    assert trace == init + [e] && trace[..c] == init[..c];
    RunTidy(cfg, init);
    RunAppends(cfg, init, e);
    WatchStill(cfg, init, e, c);
    if e.Message? {
      HarvestComplete(cfg, Run(cfg, init).0, e, m);
    }
  }

  lemma WatchAtPrefix(trace: seq<Event>, n: nat, c: nat, j: nat)
    requires c <= j < n <= |trace| && trace[c].Message? && trace[c].frame.Created?
    ensures WatchAt(trace[..n], c, j) == WatchAt(trace, c, j)
  {
    assert trace[..n][c + 1..j + 1] == trace[c + 1..j + 1];
  }

  lemma PendingPrefix(cfg: Config, trace: seq<Event>, n: nat, c: nat, i: nat)
    requires c < n <= |trace| && c <= i <= n && trace[c].Message? && trace[c].frame.Created?
    ensures Pending(cfg, trace[..n], c, i) <==> Pending(cfg, trace, c, i)
  {
    forall j | c <= j < n ensures WatchAt(trace[..n], c, j) == WatchAt(trace, c, j) && trace[..n][j] == trace[j] {
      WatchAtPrefix(trace, n, c, j);
    }
  }

  lemma RoutedStays(cfg: Config, s: State, e: Event, m: string)
    requires Tidy(cfg, s) && e.Message? && m in s.watching
    ensures m in Routed(cfg, s, e).0.watching
    ensures Routed(cfg, s, e).0.watching[m] ==
              (if e.frame.Traded? && e.frame.trade.mint == m then Recorded(s.watching[m], e.frame.trade)
                  else s.watching[m])
    ensures cfg.watchEnabled ==> Routed(cfg, s, e).1.None?
  {
  }

  /** After one more frame is routed, and before the harvest, the watch has the whole tape. */
  lemma {:induction false} WatchStill(cfg: Config, trace: seq<Event>, e: Event, c: nat)
    requires c <= |trace| && !e.Dropped?
    requires Taken(cfg, Run(cfg, trace[..c]).0, (trace + [e])[c]) && Pending(cfg, trace + [e], c, |trace|)
    ensures var longer := trace + [e];
            var s, m := Run(cfg, trace).0, longer[c].frame.token.mint;
            && (!e.Message? ==> m in s.watching && s.watching[m] == WatchAt(longer, c, |trace|))
            && (e.Message? ==>
                  && Routed(cfg, s, e).1.None? && m in Routed(cfg, s, e).0.watching
                  && Routed(cfg, s, e).0.watching[m] == WatchAt(longer, c, |trace|))
    decreases |trace|, 2
  {
    var longer := trace + [e];
    RunTidy(cfg, trace);
    if c == |trace| {
      assert trace[..c] == trace && longer[c + 1..c + 1] == [];
      LaunchWatched(cfg, Run(cfg, trace).0, e);
    } else {
      assert longer[..|trace|] == trace;
      PendingPrefix(cfg, longer, |trace|, c, |trace|);
      WatchGoesOn(cfg, trace, c);
      WatchAtNext(trace, e, c);
      var m := trace[c].frame.token.mint;
      if e.Message? {
        RoutedStays(cfg, Run(cfg, trace).0, e, m);
      }
    }
  }

  lemma {:induction false} EmissionsLast(cfg: Config, trace: seq<Event>, n: nat, x: Emission)
    requires n <= |trace| && x in Run(cfg, trace[..n]).1
    ensures x in Run(cfg, trace).1
  {
    if n == |trace| {
      assert trace[..n] == trace;
    } else {
      var init := trace[..|trace| - 1];
      assert init[..n] == trace[..n];
      EmissionsLast(cfg, init, n, x);
    }
  }

  /** A launch taken up at `c`, on a connection that holds, is over at `i` for the first time a harvest
      asks, and survives: no creator sell, enough trades, and the filter accepts. */
  ghost predicate Earns(cfg: Config, trace: seq<Event>, c: nat, i: nat) {
    && c <= i < |trace| && Taken(cfg, Run(cfg, trace[..c]).0, trace[c])
    && Pending(cfg, trace, c, i) && trace[i].Message?
    && Due(cfg, WatchAt(trace, c, i), trace[i].clock(trace[c].frame.token.mint))
    && Survives(cfg, WatchAt(trace, c, i), trace[i].clock(trace[c].frame.token.mint))
  }

  function Outcome(trace: seq<Event>, c: nat, i: nat): Emission
    requires c <= i < |trace| && trace[c].Message? && trace[c].frame.Created? && trace[i].Message?
  {
    FromWatch(Measure(WatchAt(trace, c, i), trace[i].clock(trace[c].frame.token.mint)))
  }

  lemma EarnsPrefix(cfg: Config, trace: seq<Event>, c: nat, i: nat)
    requires Earns(cfg, trace, c, i)
    ensures Earns(cfg, trace[..i + 1], c, i) && Outcome(trace[..i + 1], c, i) == Outcome(trace, c, i)
  {
    assert trace[..i + 1][..c] == trace[..c];
    PendingPrefix(cfg, trace, i + 1, c, i);
    WatchAtPrefix(trace, i + 1, c, i);
  }

  lemma EmissionNow(cfg: Config, trace: seq<Event>, e: Event, c: nat)
    requires Earns(cfg, trace + [e], c, |trace|)
    ensures Outcome(trace + [e], c, |trace|) in Run(cfg, trace + [e]).1
  {
    assert (trace + [e])[..c] == trace[..c];
    WatchStill(cfg, trace, e, c);
    RunTidy(cfg, trace);
    HarvestComplete(cfg, Run(cfg, trace).0, e, (trace + [e])[c].frame.token.mint);
    RunAppends(cfg, trace, e);
  }

  /** The converse of `EmissionEarned`: a launch that earns its emission is emitted, as measured. */
  lemma EmissionComplete(cfg: Config, trace: seq<Event>, c: nat, i: nat)
    requires Earns(cfg, trace, c, i)
    ensures Outcome(trace, c, i) in Run(cfg, trace).1
  {
    hide Run, Pending, Due, Survives, WatchAt, Measure;
    EarnsPrefix(cfg, trace, c, i);
    assert trace[..i + 1] == trace[..i] + [trace[i]];
    EmissionNow(cfg, trace[..i], trace[i], c);
    EmissionsLast(cfg, trace, i + 1, Outcome(trace, c, i));
  }

  // -- the objects ------------------------------------------------------------------------------------------

  class Watch {
    const startedAt: real
    const launched: Token
    var token: Token
    var traders: set<string>
    var buys: nat
    var sells: nat
    var volumeSol: real
    var devSold: bool

    function Now(): Stats
      reads this
    {
      Stats(token, startedAt, traders, buys, sells, volumeSol, launched, devSold)
    }

    constructor (t: Token, now: real)
      ensures Now() == Fresh(t, now)
    {
      startedAt, launched, token := now, t, t;
      traders, buys, sells, volumeSol, devSold := {}, 0, 0, 0.0, false;
    }

    /** Fold one buy or sell event into the running stats. */
    method Record(t: Trade)
      modifies this
      ensures Now() == Recorded(old(Now()), t)
    {
      if t.buy {
        buys := buys + 1;
      } else {
        sells := sells + 1;
        if t.trader != "" && t.trader == token.creator {
          devSold := true;
        }
      }
      if t.trader != "" {
        traders := traders + {t.trader};
      }
      volumeSol := volumeSol + Abs(t.sol);
      if t.curve.Some? && t.curve.value.0 != 0.0 && t.curve.value.1 != 0.0 {
        token := token.(curveSol := t.curve.value.0, curveTokens := t.curve.value.1);
      }
      if t.cap.Some? && t.cap.value != 0.0 {
        token := token.(capSol := t.cap.value);
      }
    }
  }

  class Scout {
    const cfg: Config
    var seen: set<string>
    var watching: map<string, Watch>
    var order: seq<string>
    ghost var subscribed: set<string>

    ghost function Watches(): map<string, Stats>
      reads this`watching, watching.Values
    {
      map m | m in watching :: watching[m].Now()
    }

    ghost function Now(): State
      reads this, watching.Values
    {
      State(seen, Watches(), order, subscribed)
    }

    /** Every watch is its own object, and the list is in good order. */
    ghost predicate Valid()
      reads this, watching.Values
    {
      Tidy(cfg, Now()) && Separate()
    }

    ghost predicate Separate()
      reads this`watching
    {
      forall m, n :: m in watching && n in watching && m != n ==> watching[m] != watching[n]
    }

    constructor (cfg: Config)
      ensures this.cfg == cfg && Valid() && Now() == EMPTY
    {
      this.cfg := cfg;
      seen, watching, order, subscribed := {}, map[], [], {};
    }

    method HandleCreate(t: Token) returns (admitted: Option<Token>)
      modifies this`seen
      ensures (Now(), admitted) == Admit(cfg, old(Now()), t)
    {
      if t.mint == "" || t.mint in seen {
        return None;
      }
      seen := seen + {t.mint};
      if !cfg.launchOk(t) {
        return None;
      }
      if |order| >= cfg.maxConcurrent {
        return None;
      }
      return Some(t);
    }

    method HandleTrade(t: Trade)
      requires Valid()
      modifies watching.Values
      ensures Now() == Traced(old(Now()), t) && Valid()
    {
      TracedTidy(cfg, Now(), t);
      if t.mint in watching {
        watching[t.mint].Record(t);
      }
    }

    method Open(t: Token, started: real)
      requires Separate() && t.mint !in watching
      modifies this`watching, this`order
      ensures Watches() == old(Watches())[t.mint := Fresh(t, started)] && order == old(order) + [t.mint]
      ensures Separate() && fresh(watching.Values - old(watching.Values))
    {
      var watch := new Watch(t, started);
      assert forall m :: m in watching ==> watching[m] in watching.Values;
      watching := watching[t.mint := watch];
      order := order + [t.mint];
    }

    /** Ask one watch whether it is over; pop it if so, and pass it on if it survives. */
    method MatureOne(mint: string, now: Reading) returns (stays: bool, ready: seq<Emission>)
      requires mint in watching
      modifies this`watching
      ensures var w := old(watching[mint].Now());
              && (stays <==> !Due(cfg, w, now))
              && watching == (if stays then old(watching) else old(watching) - {mint})
              && ready == Passed(cfg, w, now)
    {
      var watch := watching[mint];
      if now.asked - watch.startedAt < cfg.window && !watch.devSold {
        return true, [];
      }
      watching := watching - {mint};
      if watch.devSold {
        return false, [];
      }
      var measured := Measure(watch.Now(), now);
      if measured.buys + measured.sells < cfg.minTrades || !cfg.accept(measured) {
        return false, [];
      }
      return false, [FromWatch(measured)];
    }

    /** Go through the watchlist in order. */
    method Mature(clock: Clock) returns (ready: seq<Emission>)
      requires Distinct(order) && forall i :: 0 <= i < |order| ==> order[i] in watching
      modifies this`watching, this`order
      ensures ready == Ready(cfg, old(Watches()), old(order), clock)
      ensures order == Staying(cfg, old(Watches()), old(order), clock)
      ensures watching == old(watching) - Gone(cfg, old(Watches()), old(order), clock)
    {
      ghost var stats := Watches();
      var all, before, rest := order, watching, [];
      ready := [];
      for i := 0 to |all|
        invariant forall m :: m in before ==> before[m].Now() == stats[m]
        invariant ready == Ready(cfg, stats, all[..i], clock)
        invariant rest == Staying(cfg, stats, all[..i], clock)
        invariant watching == before - Gone(cfg, stats, all[..i], clock)
      {
        var mint := all[i];
        NextOf(all, i);
        HarvestAppends(cfg, stats, all[..i], mint, clock);
        MinusOne(before, Gone(cfg, stats, all[..i], clock), mint);
        var stays, emitted := MatureOne(mint, clock(mint));
        ready := ready + emitted;
        if stays {
          rest := rest + [mint];
        }
      }
      assert all[..|all|] == all;
      order := rest;
    }

    method MatureAll(clock: Clock) returns (ready: seq<Emission>)
      requires Distinct(order) && forall i :: 0 <= i < |order| ==> order[i] in watching
      requires Kept(cfg, Watches(), clock) == Watches() - Gone(cfg, Watches(), order, clock)
      modifies this`watching, this`order
      ensures Now() == Harvested(cfg, old(Now()), clock, false)
      ensures ready == Ready(cfg, old(Watches()), old(order), clock)
      ensures watching == old(watching) - Gone(cfg, old(Watches()), old(order), clock)
    {
      ghost var gone, stats := Gone(cfg, Watches(), order, clock), Watches();
      ready := Mature(clock);
      assert Watches() == stats - gone;
    }

    /** The harvest, and the unsubscribe message for what it popped. */
    method Harvest(clock: Clock, ghost sent: bool) returns (ready: seq<Emission>)
      requires Valid()
      modifies this`watching, this`order, this`subscribed
      ensures Now() == Harvested(cfg, old(Now()), clock, sent) && Separate()
      ensures ready == Ready(cfg, old(Watches()), old(order), clock)
    {
      KeptIsRest(cfg, Watches(), order, clock);
      ghost var before := watching.Keys;
      assert before == Watches().Keys;
      ready := MatureAll(clock);
      assert watching.Keys == Watches().Keys;
      if sent {
        subscribed := subscribed - (before - watching.Keys);
      }
    }

    /** A create frame: watch the token, or hand it back when watching is switched off. */
    method Launch(t: Token, started: real, ghost sent: bool) returns (direct: Option<Token>)
      requires Valid()
      modifies this
      ensures (Now(), direct) == Launched(cfg, old(Now()), t, started, sent)
      ensures Separate() && fresh(watching.Values - old(watching.Values))
    {
      var admitted := HandleCreate(t);
      if admitted.None? || !cfg.watchEnabled {
        return admitted;
      }
      Open(t, started);
      if sent {
        subscribed := subscribed + {t.mint};
      }
      return None;
    }

    /** Route one frame, then harvest anything whose window just closed. */
    method OnMessage(e: Event) returns (out: seq<Emission>)
      requires Valid() && !e.Dropped?
      modifies this, watching.Values
      ensures (Now(), out) == Step(cfg, old(Now()), e) && Valid()
    {
      StepTidy(cfg, Now(), e);
      if e.Garbled? {
        return [];
      }
      RoutedTidy(cfg, Now(), e);
      if e.frame.Created? {
        var direct := Launch(e.frame.token, e.frame.started, e.subscribeSent);
        if direct.Some? {
          return [Unwatched(direct.value)];
        }
      } else if e.frame.Traded? {
        HandleTrade(e.frame.trade);
      }
      assert Now() == Routed(cfg, old(Now()), e).0;
      out := Harvest(e.clock, e.unsubscribeSent);
    }

    /** The connection is gone; the next one starts with nothing subscribed. */
    method Disconnect()
      modifies this
      ensures Now() == Step(cfg, old(Now()), Dropped).0 && Valid()
    {
      watching, order, subscribed := map[], [], {};
      assert Watches() == map[];
    }
  }
}
