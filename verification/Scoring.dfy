/** The crypto scoring matrix and the checker gate (src/crypto/crypto_scoring.py). Pure code: no model
    moves its weights, and its vetoes come before any score. */
module Scoring {
  import opened Models

  /** What the watch window measured. */
  datatype Tape = Tape(uniqueTraders: nat, holders: nat, buys: nat, sells: nat, top10: real, devHolding: real,
      liquidityUsd: real)

  datatype Audit = Audit(
    coordinatedBuys: bool, washTrading: bool, bundledLaunch: bool, sniperPct: real, insiderPct: real,
    safety: real, redFlags: seq<string>, unavailable: bool)

  datatype Narrative = Narrative(meme: real, virality: real, originality: real, community: real, derivative: bool)

  datatype Pulse = Pulse(goSignal: real)

  datatype Check = Check(approve: bool, hardReject: bool, killReasons: seq<string>, adjusted: real)

  /** What each bot answers when it has no reply. */
  const AUDIT_FALLBACK := Audit(true, true, true, 1.0, 1.0, 0.0, ["audit_unavailable"], true)
  const NARRATIVE_FALLBACK := Narrative(0.0, 0.0, 0.0, 0.0, true)
  const PULSE_FALLBACK := Pulse(0.0)
  const CHECK_FALLBACK := Check(false, false, ["checker_unavailable"], 0.0)

  /** `round` is Python's round(x, 4) and `lower` its case map, both left open. */
  datatype Config = Config(
    audit: real, narrative: real, momentum: real, pulse: real, minScore: real, minGo: real,
    round: real -> real, lower: string -> string)

  /** All that is assumed of a rounding to four digits: it is monotone and leaves 0 and 1 alone. */
  ghost predicate IsRounding(round: real -> real) {
    round(0.0) == 0.0 && round(1.0) == 1.0 && forall x, y :: x <= y ==> round(x) <= round(y)
  }

  /** All that is assumed of `lower`: text that is lower case already stays as it is. */
  ghost predicate KeepsLower(lower: string -> string) {
    lower("checker_unavailable") == "checker_unavailable"
  }

  // -- manipulation -----------------------------------------------------------------------------------

  function TraderCount(t: Tape): nat {
    if t.uniqueTraders != 0 then t.uniqueTraders else t.holders
  }

  /** Unique traders per buy, when there is enough tape to judge. */
  function Diversity(cfg: Config, t: Tape): Option<real> {
    if t.buys < 8 || TraderCount(t) == 0 then None else Some((cfg.round)(TraderCount(t) as real / t.buys as real))
  }

  predicate StructuralRing(cfg: Config, t: Tape) {
    var d := Diversity(cfg, t);
    d.Some? && d.value <= 0.4 && TraderCount(t) <= 8
  }

  predicate Concentrated(t: Tape) {
    t.top10 >= 0.7 || t.devHolding >= 0.25
  }

  datatype Strength = Strong | Weak | NoEvidence

  function Evidence(cfg: Config, t: Tape, a: Audit): Strength {
    if StructuralRing(cfg, t) || (a.coordinatedBuys && Concentrated(t)) then Strong
    else if a.coordinatedBuys then Weak
    else NoEvidence
  }

  // -- veto and score -----------------------------------------------------------------------------------

  predicate AuditUnavailable(a: Audit) {
    a.unavailable || "audit_unavailable" in a.redFlags
  }

  function HardVeto(cfg: Config, t: Tape, a: Audit, p: Pulse): Option<string> {
    if AuditUnavailable(a) then Some("veto_audit_unavailable")
    else if a.washTrading then Some("veto_wash_trading")
    else if Evidence(cfg, t, a) == Strong then Some("veto_coordinated_buys")
    else if p.goSignal < cfg.minGo then Some("veto_market_paused")
    else None
  }

  function BuySellRatio(t: Tape): real {
    if t.sells == 0 then t.buys as real else t.buys as real / t.sells as real
  }

  function MomentumScore(cfg: Config, t: Tape): real {
    var ratio := if BuySellRatio(t) > 0.0 then Min(BuySellRatio(t) / 3.0, 1.0) else 0.0;
    (cfg.round)(0.5 * ratio + 0.3 * Min(t.holders as real / 300.0, 1.0) + 0.2 * Min(t.liquidityUsd / 100000.0, 1.0))
  }

  /** The story's raw score; a copy of a running meme is worth less than the original. */
  function Story(n: Narrative): real {
    var score := 0.4 * n.meme + 0.3 * n.virality + 0.15 * n.originality + 0.15 * n.community;
    if n.derivative then score * 0.7 else score
  }

  function NarrativeScore(cfg: Config, n: Narrative): real {
    (cfg.round)(Clamp01(Story(n)))
  }

  function Penalty(a: Audit, suspicion: bool): real {
    0.5 * a.sniperPct + 0.5 * a.insiderPct + (if a.bundledLaunch then 0.3 else 0.0) + (if suspicion then 0.2 else 0.0)
  }

  function AuditScore(cfg: Config, a: Audit, suspicion: bool): real {
    (cfg.round)(Clamp01(a.safety - Penalty(a, suspicion)))
  }

  datatype Verdict = Verdict(score: real, buy: bool, reason: string, vetoed: bool)

  datatype Components = Components(audit: real, narrative: real, momentum: real, pulse: real)

  function ComponentsOf(cfg: Config, t: Tape, a: Audit, n: Narrative, p: Pulse): Components {
    Components(AuditScore(cfg, a, Evidence(cfg, t, a) == Weak), NarrativeScore(cfg, n), MomentumScore(cfg, t),
        p.goSignal)
  }

  function TotalWeight(cfg: Config): real {
    cfg.audit + cfg.narrative + cfg.momentum + cfg.pulse
  }

  function Part(component: real, weight: real): real {
    component * weight
  }

  function Weighted(cfg: Config, c: Components): real {
    Part(c.audit, cfg.audit) + Part(c.narrative, cfg.narrative)
    + Part(c.momentum, cfg.momentum) + Part(c.pulse, cfg.pulse)
  }

  function Score(cfg: Config, c: Components): real {
    (cfg.round)(Weighted(cfg, c) / (if TotalWeight(cfg) == 0.0 then 1.0 else TotalWeight(cfg)))
  }

  function ScoreToken(cfg: Config, t: Tape, a: Audit, n: Narrative, p: Pulse): Verdict {
    var veto := HardVeto(cfg, t, a, p);
    if veto.Some? then Verdict(0.0, false, veto.value, true)
    else
      var score := Score(cfg, ComponentsOf(cfg, t, a, n, p));
      var buy := score >= cfg.minScore;
      Verdict(score, buy, if buy then "above_threshold" else "below_threshold", false)
  }

  // -- the checker gate ---------------------------------------------------------------------------------

  predicate FoundAt(text: string, needle: string, i: nat) {
    i + |needle| <= |text| && text[i..i + |needle|] == needle
  }

  predicate Contains(text: string, needle: string) {
    exists i: nat :: i <= |text| && FoundAt(text, needle, i)
  }

  predicate CheckerUnavailable(cfg: Config, k: Check) {
    exists i :: 0 <= i < |k.killReasons| && Contains((cfg.lower)(k.killReasons[i]), "checker_unavailable")
  }

  const NEEDLES := ["honeypot", "rug pull", "rugpull", "rug-pull", "wash trading", "wash_trading", "mint authority",
      "freeze authority"]

  function Joined(cfg: Config, reasons: seq<string>): string {
    if reasons == [] then ""
    else if |reasons| == 1 then (cfg.lower)(reasons[0])
    else Joined(cfg, reasons[..|reasons| - 1]) + " " + (cfg.lower)(reasons[|reasons| - 1])
  }

  predicate HardRejected(cfg: Config, k: Check) {
    !CheckerUnavailable(cfg, k)
    && (k.hardReject || exists i :: 0 <= i < |NEEDLES| && Contains(Joined(cfg, k.killReasons), NEEDLES[i]))
  }

  datatype Gate = Gate(allow: bool, reason: string, score: real, advisory: bool, unavailable: bool)

  /** The score behind the gate's, before rounding. */
  function GateScore(cfg: Config, k: Check, paper: bool, matrix: real): real {
    if paper && CheckerUnavailable(cfg, k) then Max(0.0, matrix - 0.15)
    else if paper && !k.approve then Min(matrix, if k.adjusted > 0.0 then k.adjusted else Max(0.0, matrix - 0.1))
    else if k.adjusted > 0.0 then k.adjusted
    else matrix
  }

  function ApplyChecker(cfg: Config, k: Check, paper: bool, matrix: real): Gate {
    var unavailable, score := CheckerUnavailable(cfg, k), (cfg.round)(GateScore(cfg, k, paper, matrix));
    if paper then
      if HardRejected(cfg, k) then Gate(false, "checker_rejected", 0.0, false, unavailable)
      else if unavailable then Gate(true, "checker_unavailable_advisory", score, true, true)
      else if !k.approve then Gate(true, "checker_soft_reject_advisory", score, true, false)
      else Gate(true, "checker_approved", score, false, false)
    else if !k.approve then Gate(false, "checker_rejected", 0.0, false, unavailable)
    else Gate(true, "checker_approved", score, false, false)
  }

  /** Paper is the laxer mode except in one case: an approval that still carries evidence of a scam
      passes live and is blocked on paper. */
  lemma LiveButNotPaper(cfg: Config, k: Check, matrix: real)
    ensures ApplyChecker(cfg, k, false, matrix).allow && !ApplyChecker(cfg, k, true, matrix).allow
            <==> k.approve && HardRejected(cfg, k)
  {
  }

  /** The two modes give one answer exactly when the checker is clear: it approves and shows no evidence of a
      scam, or it does not and shows some. A pass is advice on paper alone, when the checker is silent or
      objects without evidence. */
  lemma ModesAgreeIff(cfg: Config, k: Check, matrix: real)
    ensures ApplyChecker(cfg, k, true, matrix) == ApplyChecker(cfg, k, false, matrix)
            <==> if k.approve then !HardRejected(cfg, k) && !CheckerUnavailable(cfg, k) else HardRejected(cfg, k)
    ensures ApplyChecker(cfg, k, true, matrix).advisory
            <==> !HardRejected(cfg, k) && (CheckerUnavailable(cfg, k) || !k.approve)
    ensures !ApplyChecker(cfg, k, false, matrix).advisory
  {
  }

  /** Advice without approval never raises the score a position is sized by; unless the checker names a score of
      its own, silence costs 0.15 and an objection 0.1, down to zero. */
  lemma AdviceNeverRaises(cfg: Config, k: Check, matrix: real)
    requires IsRounding(cfg.round) && matrix >= 0.0 && ApplyChecker(cfg, k, true, matrix).advisory
    ensures ApplyChecker(cfg, k, true, matrix).score <= (cfg.round)(matrix)
    ensures ApplyChecker(cfg, k, true, matrix).allow && !HardRejected(cfg, k)
    ensures CheckerUnavailable(cfg, k) || k.adjusted <= 0.0 ==>
              ApplyChecker(cfg, k, true, matrix).score ==
              (cfg.round)(Max(0.0, matrix - (if CheckerUnavailable(cfg, k) then 0.15 else 0.1)))
  {
    RoundsBelow(cfg.round, GateScore(cfg, k, true, matrix), matrix);
  }

  lemma RoundsBelow(round: real -> real, x: real, y: real)
    requires IsRounding(round) && x <= y
    ensures round(x) <= round(y)
  {
  }

  // -- what the matrix guarantees -------------------------------------------------------------------------

  ghost predicate Weighs(cfg: Config) {
    && cfg.audit >= 0.0 && cfg.narrative >= 0.0 && cfg.momentum >= 0.0 && cfg.pulse >= 0.0
    && TotalWeight(cfg) > 0.0 && IsRounding(cfg.round)
  }

  lemma PartMonotone(c: real, d: real, w: real)
    requires c <= d && w >= 0.0
    ensures Part(c, w) <= Part(d, w)
  {
  }

  lemma DividesMonotone(x: real, y: real, d: real)
    requires x <= y && d > 0.0
    ensures x / d <= y / d
  {
    assert y / d - x / d == (y - x) / d;
    DivNonNegative(y - x, d);
  }

  lemma WeightedMonotone(cfg: Config, c: Components, d: Components)
    requires Weighs(cfg)
    requires c.audit <= d.audit && c.narrative <= d.narrative && c.momentum <= d.momentum && c.pulse <= d.pulse
    ensures Weighted(cfg, c) <= Weighted(cfg, d)
  {
    PartMonotone(c.audit, d.audit, cfg.audit);
    PartMonotone(c.narrative, d.narrative, cfg.narrative);
    PartMonotone(c.momentum, d.momentum, cfg.momentum);
    PartMonotone(c.pulse, d.pulse, cfg.pulse);
  }

  /** Each component is weighed by its own weight. */
  lemma WeightsTheirOwn(cfg: Config, c: Components, d: real)
    ensures Weighted(cfg, c.(audit := c.audit + d)) == Weighted(cfg, c) + d * cfg.audit
    ensures Weighted(cfg, c.(narrative := c.narrative + d)) == Weighted(cfg, c) + d * cfg.narrative
    ensures Weighted(cfg, c.(momentum := c.momentum + d)) == Weighted(cfg, c) + d * cfg.momentum
    ensures Weighted(cfg, c.(pulse := c.pulse + d)) == Weighted(cfg, c) + d * cfg.pulse
  {
    hide Part;
    PartAdds(c.audit, d, cfg.audit);
    PartAdds(c.narrative, d, cfg.narrative);
    PartAdds(c.momentum, d, cfg.momentum);
    PartAdds(c.pulse, d, cfg.pulse);
  }

  lemma PartAdds(c: real, d: real, w: real)
    ensures Part(c + d, w) == Part(c, w) + d * w
  {
  }

  /** What a story and an audit are made of: each part moves the whole by its own share, and a copy of a running
      meme is worth seven tenths of the original. */
  lemma StoryAndPenaltyParts(n: Narrative, a: Audit, suspicion: bool, d: real)
    ensures var original := n.(derivative := false);
            && Story(original.(meme := n.meme + d)) == Story(original) + 0.4 * d
            && Story(original.(virality := n.virality + d)) == Story(original) + 0.3 * d
            && Story(original.(originality := n.originality + d)) == Story(original) + 0.15 * d
            && Story(original.(community := n.community + d)) == Story(original) + 0.15 * d
            && Story(n.(derivative := true)) == 0.7 * Story(original)
    ensures && Penalty(a.(sniperPct := a.sniperPct + d), suspicion) == Penalty(a, suspicion) + 0.5 * d
            && Penalty(a.(insiderPct := a.insiderPct + d), suspicion) == Penalty(a, suspicion) + 0.5 * d
            && Penalty(a.(bundledLaunch := true), suspicion) == Penalty(a.(bundledLaunch := false), suspicion) + 0.3
            && Penalty(a, true) == Penalty(a, false) + 0.2
  {
  }

  /** What momentum is made of, each part alone: a sixth for every buy to a sell up to a half, a thousandth for
      every holder up to three tenths, and two millionths a dollar of liquidity up to two tenths. */
  lemma MomentumParts(cfg: Config, t: Tape)
    requires t.liquidityUsd >= 0.0
    ensures t.sells > 0 && t.holders == 0 && t.liquidityUsd == 0.0 ==>
              MomentumScore(cfg, t) ==
              (cfg.round)(if t.buys >= 3 * t.sells then 0.5 else t.buys as real / t.sells as real / 6.0)
    ensures t.sells == 0 && t.holders == 0 && t.liquidityUsd == 0.0 ==>
              MomentumScore(cfg, t) == (cfg.round)(if t.buys >= 3 then 0.5 else t.buys as real / 6.0)
    ensures t.buys == 0 && t.liquidityUsd == 0.0 ==>
              MomentumScore(cfg, t) == (cfg.round)(if t.holders >= 300 then 0.3 else t.holders as real / 1000.0)
    ensures t.buys == 0 && t.holders == 0 ==>
              MomentumScore(cfg, t) ==
              (cfg.round)(if t.liquidityUsd >= 100000.0 then 0.2 else t.liquidityUsd / 500000.0)
  {
    if t.sells > 0 {
      RatioAtLeast(t);
    }
  }

  lemma RatioAtLeast(t: Tape)
    requires t.sells > 0
    ensures t.buys >= 3 * t.sells <==> BuySellRatio(t) >= 3.0
    ensures BuySellRatio(t) >= 0.0 && (BuySellRatio(t) > 0.0 <==> t.buys > 0)
  {
    QuotientTimes(t.buys as real, t.sells as real);
    DividesMonotone(0.0, t.buys as real, t.sells as real);
    if t.buys >= 3 * t.sells {
      DividesMonotone(3.0 * t.sells as real, t.buys as real, t.sells as real);
      ProductOver(3.0, t.sells as real);
    }
  }

  /** The score is monotone: no component can lower it by being better. */
  lemma ScoreMonotone(cfg: Config, c: Components, d: Components)
    requires Weighs(cfg)
    requires c.audit <= d.audit && c.narrative <= d.narrative && c.momentum <= d.momentum && c.pulse <= d.pulse
    ensures Score(cfg, c) <= Score(cfg, d)
  {
    WeightedMonotone(cfg, c, d);
    DividesMonotone(Weighted(cfg, c), Weighted(cfg, d), TotalWeight(cfg));
  }

  /** Components between two levels give a score between them, rounded: with all weights positive the
      matrix is an average, whatever the weights. */
  lemma ScoreBetween(cfg: Config, c: Components, lo: real, hi: real)
    requires Weighs(cfg)
    requires lo <= c.audit <= hi && lo <= c.narrative <= hi && lo <= c.momentum <= hi && lo <= c.pulse <= hi
    ensures (cfg.round)(lo) <= Score(cfg, c) <= (cfg.round)(hi)
  {
    ScoreMonotone(cfg, Components(lo, lo, lo, lo), c);
    ScoreMonotone(cfg, c, Components(hi, hi, hi, hi));
    ScoreFlat(cfg, lo);
    ScoreFlat(cfg, hi);
  }

  /** Every component but the pulse lands in the unit interval by construction, so with a pulse that
      does, the score does. */
  lemma ScoreInUnit(cfg: Config, t: Tape, a: Audit, n: Narrative, p: Pulse)
    requires Weighs(cfg) && 0.0 <= p.goSignal <= 1.0 && t.liquidityUsd >= 0.0
    ensures 0.0 <= Score(cfg, ComponentsOf(cfg, t, a, n, p)) <= 1.0
  {
    MomentumInUnit(cfg, t);
    var c := ComponentsOf(cfg, t, a, n, p);
    AuditInUnit(cfg, a, Evidence(cfg, t, a) == Weak);
    NarrativeInUnit(cfg, n);
    ScoreBetween(cfg, c, 0.0, 1.0);
  }

  lemma AuditInUnit(cfg: Config, a: Audit, suspicion: bool)
    requires IsRounding(cfg.round)
    ensures 0.0 <= AuditScore(cfg, a, suspicion) <= 1.0
    ensures AuditScore(cfg, a, true) <= AuditScore(cfg, a, false)
  {
    UnitRounds(cfg.round, a.safety - Penalty(a, suspicion));
    RoundsBelow(cfg.round, Clamp01(a.safety - Penalty(a, true)), Clamp01(a.safety - Penalty(a, false)));
  }

  lemma UnitRounds(round: real -> real, x: real)
    requires IsRounding(round)
    ensures 0.0 <= round(Clamp01(x)) <= 1.0
  {
    RoundsBelow(round, 0.0, Clamp01(x));
    RoundsBelow(round, Clamp01(x), 1.0);
  }

  lemma NarrativeInUnit(cfg: Config, n: Narrative)
    requires IsRounding(cfg.round)
    ensures 0.0 <= NarrativeScore(cfg, n) <= 1.0
  {
    UnitRounds(cfg.round, Story(n));
  }

  lemma MomentumInUnit(cfg: Config, t: Tape)
    requires IsRounding(cfg.round) && t.liquidityUsd >= 0.0
    ensures 0.0 <= MomentumScore(cfg, t) <= 1.0
  {
    var ratio := if BuySellRatio(t) > 0.0 then Min(BuySellRatio(t) / 3.0, 1.0) else 0.0;
    var x := 0.5 * ratio + 0.3 * Min(t.holders as real / 300.0, 1.0) + 0.2 * Min(t.liquidityUsd / 100000.0, 1.0);
    assert 0.0 <= ratio <= 1.0;
    assert 0.0 <= x <= 1.0;
    RoundsBelow(cfg.round, 0.0, x);
    RoundsBelow(cfg.round, x, 1.0);
  }

  lemma ScoreFlat(cfg: Config, x: real)
    requires Weighs(cfg)
    ensures Score(cfg, Components(x, x, x, x)) == (cfg.round)(x)
  {
    WeightedFlat(cfg, x);
    ProductOver(x, TotalWeight(cfg));
  }

  lemma WeightedFlat(cfg: Config, x: real)
    ensures Weighted(cfg, Components(x, x, x, x)) == x * TotalWeight(cfg)
  {
  }

  lemma ProductOver(x: real, d: real)
    requires d != 0.0
    ensures x * d / d == x
  {
  }

  // -- better reports ---------------------------------------------------------------------------------------

  /** No worse on any count the matrix looks at. */
  predicate NoWorseAudit(a: Audit, b: Audit) {
    && a.safety <= b.safety && a.sniperPct >= b.sniperPct && a.insiderPct >= b.insiderPct
    && (b.coordinatedBuys ==> a.coordinatedBuys) && (b.washTrading ==> a.washTrading)
    && (b.bundledLaunch ==> a.bundledLaunch) && (AuditUnavailable(b) ==> AuditUnavailable(a))
  }

  predicate NoWorseNarrative(a: Narrative, b: Narrative) {
    && a.meme <= b.meme && a.virality <= b.virality && a.originality <= b.originality && a.community <= b.community
    && (b.derivative ==> a.derivative)
  }

  /** A check that approves if the other does and has no more evidence. Reasons and adjusted score are
      alike: a score raised from zero, which stands for none, to less than the matrix's can lower the size. */
  predicate NoWorseCheck(a: Check, b: Check) {
    && (a.approve ==> b.approve) && (b.hardReject ==> a.hardReject)
    && a.killReasons == b.killReasons && a.adjusted == b.adjusted
  }

  lemma BetterAudit(cfg: Config, a: Audit, b: Audit, suspicionA: bool, suspicionB: bool)
    requires IsRounding(cfg.round) && NoWorseAudit(a, b) && (suspicionB ==> suspicionA)
    ensures AuditScore(cfg, a, suspicionA) <= AuditScore(cfg, b, suspicionB)
  {
    RoundsBelow(cfg.round, Clamp01(a.safety - Penalty(a, suspicionA)), Clamp01(b.safety - Penalty(b, suspicionB)));
  }

  lemma BetterNarrative(cfg: Config, a: Narrative, b: Narrative)
    requires IsRounding(cfg.round) && NoWorseNarrative(a, b)
    ensures NarrativeScore(cfg, a) <= NarrativeScore(cfg, b)
  {
    RoundsBelow(cfg.round, Clamp01(Story(a)), Clamp01(Story(b)));
  }

  /** A token whose reports are no worse is vetoed no more and scores no lower. */
  lemma BetterReports(cfg: Config, t: Tape, a: Audit, b: Audit, n: Narrative, o: Narrative, p: Pulse, q: Pulse)
    requires Weighs(cfg) && NoWorseAudit(a, b) && NoWorseNarrative(n, o) && p.goSignal <= q.goSignal
    requires !ScoreToken(cfg, t, a, n, p).vetoed
    ensures !ScoreToken(cfg, t, b, o, q).vetoed
    ensures ScoreToken(cfg, t, a, n, p).score <= ScoreToken(cfg, t, b, o, q).score
  {
    BetterAudit(cfg, a, b, Evidence(cfg, t, a) == Weak, Evidence(cfg, t, b) == Weak);
    BetterNarrative(cfg, n, o);
    ScoreMonotone(cfg, ComponentsOf(cfg, t, a, n, p), ComponentsOf(cfg, t, b, o, q));
  }

  /** The gate passes a no worse check wherever it passed the other, with a size no smaller. */
  lemma BetterCheck(cfg: Config, k: Check, l: Check, paper: bool, low: real, high: real)
    requires IsRounding(cfg.round) && NoWorseCheck(k, l) && low <= high && ApplyChecker(cfg, k, paper, low).allow
    ensures ApplyChecker(cfg, l, paper, high).allow
    ensures ApplyChecker(cfg, k, paper, low).score <= ApplyChecker(cfg, l, paper, high).score
  {
    RoundsBelow(cfg.round, GateScore(cfg, k, paper, low), GateScore(cfg, l, paper, high));
  }

  // -- rings on the tape ----------------------------------------------------------------------------------

  /** Rounding to four digits, as closely as the next lemma needs it. */
  ghost predicate IsFourDigits(round: real -> real) {
    IsRounding(round) && round(0.4) == 0.4 && forall x :: -0.00005 <= round(x) - x <= 0.00005
  }

  /** A ring in whole numbers: at least eight buys from at most eight wallets, five wallets to no fewer than two
      buys in each five. The rounding of the ratio decides no case. */
  lemma RingInIntegers(cfg: Config, t: Tape)
    requires IsFourDigits(cfg.round)
    ensures var wallets := if t.uniqueTraders > 0 then t.uniqueTraders else t.holders;
            StructuralRing(cfg, t) <==> t.buys >= 8 && 1 <= wallets <= 8 && 5 * wallets <= 2 * t.buys
  {
    if t.buys >= 8 && 1 <= TraderCount(t) <= 8 {
      var n, b := TraderCount(t) as real, t.buys as real;
      QuotientTimes(n, b);
      if 5 * TraderCount(t) <= 2 * t.buys {
        AtMostTwoFifths(n, b);
        RoundsBelow(cfg.round, n / b, 0.4);
      } else {
        assert t.buys <= 19;
        AboveTwoFifths(n, b);
      }
    }
  }

  /** When an audit that can be read and shows no wash trading is vetoed for coordinated buys: on a ring, flagged or
      not, and on a flag with most of the supply in ten wallets or a quarter of it with the deployer. */
  lemma CoordinatedVetoIff(cfg: Config, t: Tape, a: Audit, p: Pulse)
    requires IsFourDigits(cfg.round) && !AuditUnavailable(a) && !a.washTrading
    ensures var wallets := if t.uniqueTraders > 0 then t.uniqueTraders else t.holders;
            HardVeto(cfg, t, a, p) == Some("veto_coordinated_buys") <==>
              || (t.buys >= 8 && 1 <= wallets <= 8 && 5 * wallets <= 2 * t.buys)
              || (a.coordinatedBuys && (t.top10 >= 0.7 || t.devHolding >= 0.25))
  {
    RingInIntegers(cfg, t);
  }

  lemma AtMostTwoFifths(n: real, b: real)
    requires b > 0.0 && 5.0 * n <= 2.0 * b
    ensures n / b <= 0.4
  {
    DividesMonotone(n, 0.4 * b, b);
    ProductOver(0.4, b);
  }

  lemma AboveTwoFifths(n: real, b: real)
    requires 0.0 < b <= 19.0 && 5.0 * n >= 2.0 * b + 1.0
    ensures n / b >= 0.41
  {
    DividesMonotone(0.41 * b, n, b);
    ProductOver(0.41, b);
  }

  // -- fail closed ----------------------------------------------------------------------------------------

  /** An isolated flag is not a veto: without a ring on the tape or measured concentration, flagging
      coordinated buys changes no veto, and takes 0.2 off the audit component, down to zero. */
  lemma IsolatedFlag(cfg: Config, t: Tape, a: Audit, p: Pulse)
    requires IsRounding(cfg.round) && !StructuralRing(cfg, t) && !Concentrated(t)
    ensures var flagged, clean := a.(coordinatedBuys := true), a.(coordinatedBuys := false);
            && HardVeto(cfg, t, flagged, p) == HardVeto(cfg, t, clean, p)
            && AuditScore(cfg, flagged, Evidence(cfg, t, flagged) == Weak)
                 <= AuditScore(cfg, clean, Evidence(cfg, t, clean) == Weak)
            && AuditScore(cfg, clean, Evidence(cfg, t, clean) == Weak)
                 == (cfg.round)(Clamp01(a.safety - Penalty(a, false)))
            && AuditScore(cfg, flagged, Evidence(cfg, t, flagged) == Weak)
                 == (cfg.round)(Clamp01(a.safety - Penalty(a, false) - 0.2))
  {
    AuditInUnit(cfg, a, true);
    var flagged, clean := a.(coordinatedBuys := true), a.(coordinatedBuys := false);
    assert a.safety - Penalty(flagged, true) == a.safety - Penalty(a, false) - 0.2;
    assert Penalty(clean, false) == Penalty(a, false);
  }

  predicate StartsWith(text: string, s: string) {
    |s| <= |text| && text[..|s|] == s
  }

  predicate EndsWith(text: string, s: string) {
    |s| <= |text| && text[|text| - |s|..] == s
  }

  /** The needle lies across the space between `x` and `y`, with its own space `k` on it. */
  predicate Crosses(x: string, y: string, needle: string, k: nat) {
    k < |needle| && needle[k] == ' ' && EndsWith(x, needle[..k]) && StartsWith(y, needle[k + 1..])
  }

  ghost predicate Meet(x: string, y: string, needle: string) {
    exists k: nat :: Crosses(x, y, needle, k)
  }

  lemma FoundInside(before: string, text: string, after: string, needle: string)
    requires Contains(text, needle)
    ensures Contains(before + text + after, needle)
  {
    var i: nat :| i <= |text| && FoundAt(text, needle, i);
    var all := before + text + after;
    assert all[|before| + i..|before| + i + |needle|] == text[i..i + |needle|];
    assert FoundAt(all, needle, |before| + i);
  }

  lemma FoundWhere(x: string, y: string, needle: string, i: nat)
    requires needle != "" && FoundAt(x + " " + y, needle, i)
    ensures Contains(x, needle) || Contains(y, needle) || Meet(x, y, needle)
  {
    var text, j := x + " " + y, i + |needle|;
    if j <= |x| {
      assert x[i..j] == text[i..j];
      assert FoundAt(x, needle, i);
    } else if i > |x| {
      assert y[i - |x| - 1..j - |x| - 1] == text[i..j];
      assert FoundAt(y, needle, i - |x| - 1);
    } else {
      var k := |x| - i;
      assert needle[k] == text[i..j][k] == ' ';
      assert needle[..k] == text[i..j][..k] == x[i..];
      assert needle[k + 1..] == text[i..j][k + 1..] == y[..j - |x| - 1];
      assert Crosses(x, y, needle, k);
    }
  }

  lemma CrossingIsFound(x: string, y: string, needle: string, k: nat)
    requires Crosses(x, y, needle, k)
    ensures Contains(x + " " + y, needle)
  {
    var text, i, l := x + " " + y, |x| - k, |needle| - k - 1;
    assert needle == needle[..k] + " " + needle[k + 1..];
    assert text[i..i + |needle|] == x[i..] + " " + y[..l];
    assert FoundAt(text, needle, i);
  }

  /** Text joined by a space holds a needle in one of its parts, or across the space. */
  lemma FoundInJoin(x: string, y: string, needle: string)
    requires needle != ""
    ensures Contains(x + " " + y, needle) <==>
              Contains(x, needle) || Contains(y, needle) || Meet(x, y, needle)
  {
    if i: nat :| i <= |x + " " + y| && FoundAt(x + " " + y, needle, i) {
      FoundWhere(x, y, needle, i);
    }
    if Contains(x, needle) {
      FoundInside("", x, " " + y, needle);
      assert "" + x + (" " + y) == x + " " + y;
    }
    if Contains(y, needle) {
      FoundInside(x + " ", y, "", needle);
      assert x + " " + y + "" == x + " " + y;
    }
    if k: nat :| Crosses(x, y, needle, k) {
      CrossingIsFound(x, y, needle, k);
    }
  }

  /** What ends a joined text, if it has no space, ends the last part. */
  lemma EndsLast(x: string, y: string, s: string)
    requires ' ' !in s
    ensures EndsWith(x + " " + y, s) <==> EndsWith(y, s)
  {
    var text := x + " " + y;
    if |s| <= |y| {
      assert text[|text| - |s|..] == y[|y| - |s|..];
    } else if EndsWith(text, s) {
      SpaceReached(x, y, s);
      assert false;
    }
  }

  lemma SpaceReached(x: string, y: string, s: string)
    requires |s| > |y| && EndsWith(x + " " + y, s)
    ensures ' ' in s
  {
    var text := x + " " + y;
    assert s[|s| - |y| - 1] == text[|text| - |s|..][|s| - |y| - 1] == ' ';
  }

  /** At most one space, as every needle has. */
  ghost predicate OneSpace(s: string) {
    s != "" && forall i, j :: 0 <= i < j < |s| ==> s[i] != ' ' || s[j] != ' '
  }

  lemma NeedlesHaveOneSpace(needle: string)
    requires needle in NEEDLES
    ensures OneSpace(needle)
  {
  }

  function Lowered(cfg: Config, reasons: seq<string>, i: nat): string
    requires i < |reasons|
  {
    (cfg.lower)(reasons[i])
  }

  ghost predicate InReason(cfg: Config, reasons: seq<string>, needle: string, i: nat) {
    i < |reasons| && Contains(Lowered(cfg, reasons, i), needle)
  }

  ghost predicate Straddles(cfg: Config, reasons: seq<string>, needle: string, i: nat) {
    0 < i < |reasons| && Meet(Lowered(cfg, reasons, i - 1), Lowered(cfg, reasons, i), needle)
  }

  /** Some reason, or two neighbours between them, hold the needle. */
  ghost predicate HoldNeedle(cfg: Config, reasons: seq<string>, needle: string) {
    exists i: nat :: InReason(cfg, reasons, needle, i) || Straddles(cfg, reasons, needle, i)
  }

  lemma MeetLast(cfg: Config, init: seq<string>, y: string, needle: string)
    requires init != [] && OneSpace(needle)
    ensures Meet(Joined(cfg, init), y, needle) <==> Meet(Lowered(cfg, init, |init| - 1), y, needle)
  {
    var x, z := Joined(cfg, init), Lowered(cfg, init, |init| - 1);
    forall k: nat ensures Crosses(x, y, needle, k) <==> Crosses(z, y, needle, k) {
      if |init| > 1 && k < |needle| && needle[k] == ' ' {
        EndsLast(Joined(cfg, init[..|init| - 1]), z, needle[..k]);
      }
    }
    if k: nat :| Crosses(x, y, needle, k) {
      assert Crosses(z, y, needle, k);
    }
    if k: nat :| Crosses(z, y, needle, k) {
      assert Crosses(x, y, needle, k);
    }
  }

  lemma HoldLonger(cfg: Config, reasons: seq<string>, needle: string)
    requires |reasons| > 1
    ensures var n := |reasons| - 1;
            HoldNeedle(cfg, reasons, needle) <==>
              || HoldNeedle(cfg, reasons[..n], needle)
              || Contains(Lowered(cfg, reasons, n), needle)
              || Meet(Lowered(cfg, reasons, n - 1), Lowered(cfg, reasons, n), needle)
  {
    hide Contains, Meet;
    var n, init := |reasons| - 1, reasons[..|reasons| - 1];
    forall i: nat | i < n
      ensures InReason(cfg, reasons, needle, i) <==> InReason(cfg, init, needle, i)
      ensures Straddles(cfg, reasons, needle, i) <==> Straddles(cfg, init, needle, i)
    {
    }
    assert InReason(cfg, reasons, needle, n) <==> Contains(Lowered(cfg, reasons, n), needle);
    assert Straddles(cfg, reasons, needle, n)
           <==> Meet(Lowered(cfg, reasons, n - 1), Lowered(cfg, reasons, n), needle);
    if i: nat :| InReason(cfg, init, needle, i) || Straddles(cfg, init, needle, i) {
      assert InReason(cfg, reasons, needle, i) || Straddles(cfg, reasons, needle, i);
    }
    if i: nat :| InReason(cfg, reasons, needle, i) || Straddles(cfg, reasons, needle, i) {
      assert i < n ==> InReason(cfg, init, needle, i) || Straddles(cfg, init, needle, i);
      assert i <= n;
    }
  }

  /** The joined reasons hold a needle exactly when one of them does, or two neighbours do between them. */
  lemma {:induction false} JoinedHolds(cfg: Config, reasons: seq<string>, needle: string)
    requires reasons != [] && OneSpace(needle)
    ensures Contains(Joined(cfg, reasons), needle) <==> HoldNeedle(cfg, reasons, needle)
  {
    var n := |reasons| - 1;
    if n == 0 {
      assert InReason(cfg, reasons, needle, 0) <==> Contains(Joined(cfg, reasons), needle);
      assert forall i: nat :: !Straddles(cfg, reasons, needle, i);
    } else {
      hide Contains, Meet, HoldNeedle, OneSpace;
      var init, last := reasons[..n], Lowered(cfg, reasons, n);
      JoinedHolds(cfg, init, needle);
      SomeChar(needle);
      FoundInJoin(Joined(cfg, init), last, needle);
      MeetLast(cfg, init, last, needle);
      HoldLonger(cfg, reasons, needle);
    }
  }

  lemma SomeChar(needle: string)
    requires OneSpace(needle)
    ensures needle != ""
  {
  }

  /** When a checker that answered is taken to have evidence: when it says so itself, when a reason names one of the
      scams the code looks for, and, since the reasons are searched as one text, when the end of one reason and
      the start of the next name one between them. */
  lemma EvidenceIff(cfg: Config, k: Check)
    requires !CheckerUnavailable(cfg, k)
    ensures HardRejected(cfg, k) <==>
              k.hardReject || exists needle :: needle in NEEDLES && HoldNeedle(cfg, k.killReasons, needle)
  {
    hide OneSpace;
    forall needle | needle in NEEDLES
      ensures Contains(Joined(cfg, k.killReasons), needle) <==> HoldNeedle(cfg, k.killReasons, needle)
    {
      NeedlesHaveOneSpace(needle);
      if k.killReasons != [] {
        JoinedHolds(cfg, k.killReasons, needle);
      } else {
        SomeChar(needle);
      }
    }
    forall i | 0 <= i < |NEEDLES| ensures NEEDLES[i] in NEEDLES {
    }
  }

  lemma TooLongToFind(text: string, needle: string)
    requires |needle| > |text|
    ensures !Contains(text, needle)
  {
  }

  lemma NeedlesAreLong(n: string)
    requires n in NEEDLES
    ensures |n| > 4
  {
  }

  /** It can be found where no reason has it: the reasons are searched as one text, and "rug pull" lies across the
      end of one and the start of the next. */
  lemma EvidenceAcrossReasons(cfg: Config, k: Check)
    requires k.killReasons == ["rug", "pull"] && (cfg.lower)("rug") == "rug" && (cfg.lower)("pull") == "pull"
    ensures HardRejected(cfg, k)
    ensures forall i, n :: 0 <= i < 2 && n in NEEDLES ==> !Contains((cfg.lower)(k.killReasons[i]), n)
  {
    var reasons := k.killReasons;
    forall i, n | 0 <= i < 2 && n in NEEDLES ensures !Contains((cfg.lower)(reasons[i]), n) {
      NeedlesAreLong(n);
      TooLongToFind((cfg.lower)(reasons[i]), n);
    }
    forall i | 0 <= i < 2 ensures !Contains((cfg.lower)(reasons[i]), "checker_unavailable") {
      TooLongToFind((cfg.lower)(reasons[i]), "checker_unavailable");
    }
    assert reasons[..1] == ["rug"];
    assert Joined(cfg, reasons) == "rug pull";
    assert FoundAt("rug pull", NEEDLES[1], 0);
    assert Contains(Joined(cfg, reasons), NEEDLES[1]);
  }

  lemma FallbackIsUnavailable(cfg: Config)
    requires KeepsLower(cfg.lower)
    ensures CheckerUnavailable(cfg, CHECK_FALLBACK) && !HardRejected(cfg, CHECK_FALLBACK)
  {
    var text := "checker_unavailable";
    assert FoundAt(text, text, 0);
    assert Contains((cfg.lower)(CHECK_FALLBACK.killReasons[0]), text);
  }
}
