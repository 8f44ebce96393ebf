/** From replies to an order (`evaluate_token`, src/desk.py): three bots in parallel, the matrix, the
    adversarial checker, and only then the executor. */
module Evaluation {
  import opened Models
  import opened Agent
  import opened Scoring

  /** What the bots come to when each has answered or fallen back. */
  datatype Reports = Reports(audit: Audit, narrative: Narrative, pulse: Pulse, check: Check)

  /** The score the open is sized by, or nothing when no open is attempted. */
  function Decide(cfg: Config, paper: bool, t: Tape, r: Reports): Option<real> {
    var verdict := ScoreToken(cfg, t, r.audit, r.narrative, r.pulse);
    if !verdict.buy then None
    else
      var gate := ApplyChecker(cfg, r.check, paper, verdict.score);
      if gate.allow then Some(gate.score) else None
  }

  /** An open is attempted exactly when the audit is readable and clean, no ring is corroborated, the
      market is on, the score clears the threshold, and the checker approves or, on paper, at least
      shows no evidence of a scam. */
  lemma OpensExactlyWhen(cfg: Config, paper: bool, t: Tape, r: Reports)
    ensures Decide(cfg, paper, t, r).Some? <==>
              && !AuditUnavailable(r.audit) && !r.audit.washTrading
              && !StructuralRing(cfg, t) && !(r.audit.coordinatedBuys && Concentrated(t))
              && r.pulse.goSignal >= cfg.minGo
              && Score(cfg, ComponentsOf(cfg, t, r.audit, r.narrative, r.pulse)) >= cfg.minScore
              && (if paper then !HardRejected(cfg, r.check) else r.check.approve)
  {
  }

  /** Fail closed. Whatever the other bots say, in paper and live alike, nothing opens when the audit
      fell back, or when the pulse fell back under a positive minimum; live, the same holds of the checker. */
  lemma FailClosed(cfg: Config, paper: bool, t: Tape, r: Reports)
    ensures r.audit.unavailable || "audit_unavailable" in r.audit.redFlags ==> Decide(cfg, paper, t, r).None?
    ensures r.audit == AUDIT_FALLBACK ==> Decide(cfg, paper, t, r).None?
    ensures r.pulse == PULSE_FALLBACK && cfg.minGo > 0.0 ==> Decide(cfg, paper, t, r).None?
    ensures r.check == CHECK_FALLBACK && !paper ==> Decide(cfg, paper, t, r).None?
  {
    OpensExactlyWhen(cfg, paper, t, r);
  }

  /** Better reports never cost an open. Whatever the tape, the mode and the weights, if one set of reports
      opens a token, a set no worse on any count opens it too, with a score to size by that is no lower. */
  lemma DecideMonotone(cfg: Config, paper: bool, t: Tape, r: Reports, s: Reports)
    requires Weighs(cfg)
    requires NoWorseAudit(r.audit, s.audit) && NoWorseNarrative(r.narrative, s.narrative)
    requires r.pulse.goSignal <= s.pulse.goSignal && NoWorseCheck(r.check, s.check)
    requires Decide(cfg, paper, t, r).Some?
    ensures Decide(cfg, paper, t, s).Some? && Decide(cfg, paper, t, r).value <= Decide(cfg, paper, t, s).value
  {
    BetterReports(cfg, t, r.audit, s.audit, r.narrative, s.narrative, r.pulse, s.pulse);
    var low := ScoreToken(cfg, t, r.audit, r.narrative, r.pulse).score;
    var high := ScoreToken(cfg, t, s.audit, s.narrative, s.pulse).score;
    BetterCheck(cfg, r.check, s.check, paper, low, high);
  }

  /** On paper a checker that fell back decides nothing but the size: the matrix alone opens, at 0.15 less. */
  lemma PaperIgnoresSilence(cfg: Config, t: Tape, r: Reports)
    requires KeepsLower(cfg.lower) && r.check == CHECK_FALLBACK
    ensures Decide(cfg, true, t, r).Some? <==> ScoreToken(cfg, t, r.audit, r.narrative, r.pulse).buy
    ensures Decide(cfg, true, t, r).Some? ==>
              Decide(cfg, true, t, r).value ==
              (cfg.round)(Max(0.0, ScoreToken(cfg, t, r.audit, r.narrative, r.pulse).score - 0.15))
  {
    FallbackIsUnavailable(cfg);
  }

  /** An approval sizes the open itself wherever it names a score, in both modes alike; it never opens what the
      matrix did not. */
  lemma ApprovalSizes(cfg: Config, paper: bool, t: Tape, r: Reports)
    requires r.check.approve && r.check.adjusted > 0.0
    requires !HardRejected(cfg, r.check) && !CheckerUnavailable(cfg, r.check)
    ensures Decide(cfg, paper, t, r) ==
            if ScoreToken(cfg, t, r.audit, r.narrative, r.pulse).buy then Some((cfg.round)(r.check.adjusted)) else None
  {
  }

  /** The pulse keeps its last answer, fallbacks included, for a while. */
  class CryptoPulse {
    const agent: GrokAgent<Pulse>
    const cacheSeconds: real
    var cache: Option<Pulse>
    var cacheTime: real

    constructor (agent: GrokAgent<Pulse>, cacheSeconds: real)
      ensures this.agent == agent && this.cacheSeconds == cacheSeconds && cache.None?
    {
      this.agent, this.cacheSeconds := agent, cacheSeconds;
      cache, cacheTime := None, 0.0;
    }

    predicate IsFresh(now: real)
      reads this
    {
      cache.Some? && now - cacheTime < cacheSeconds
    }

    ghost function Reply(now: real, attempts: nat -> Attempt<Pulse>): Pulse
      reads this
    {
      if IsFresh(now) then cache.value else agent.Reply(attempts)
    }

    /** `later` is the clock read once the answer is in. */
    method Run(now: real, attempts: nat -> Attempt<Pulse>, later: real) returns (p: Pulse)
      modifies this, agent
      ensures p == old(Reply(now, attempts)) && cache == Some(p)
      ensures old(IsFresh(now)) <==> old(cache).Some? && now - old(cacheTime) < cacheSeconds
      ensures cacheTime == if old(IsFresh(now)) then old(cacheTime) else later
      ensures old(IsFresh(now)) ==>
                agent.failedCalls == old(agent.failedCalls) && agent.fallbacks == old(agent.fallbacks)
    {
      if IsFresh(now) {
        return cache.value;
      }
      var reply, _ := agent.Run(attempts);
      cache, cacheTime := Some(reply), later;
      return reply;
    }
  }

  /** The posts of one evaluation, bot by bot, whatever comes back. */
  datatype Posts = Posts(audit: nat -> Attempt<Audit>, narrative: nat -> Attempt<Narrative>,
      pulse: nat -> Attempt<Pulse>, check: nat -> Attempt<Check>)

  class CryptoDesk {
    const cfg: Config
    const paper: bool
    const auditor: GrokAgent<Audit>
    const narrative: GrokAgent<Narrative>
    const pulse: CryptoPulse
    const checker: GrokAgent<Check>

    /** The bots as they are set up: each falls back on its own pessimistic answer. */
    ghost predicate Valid()
    {
      auditor.fallback == AUDIT_FALLBACK && narrative.fallback == NARRATIVE_FALLBACK
      && pulse.agent.fallback == PULSE_FALLBACK && checker.fallback == CHECK_FALLBACK
    }

    constructor (cfg: Config, paper: bool, auditor: GrokAgent<Audit>, narrative: GrokAgent<Narrative>,
                 pulse: CryptoPulse, checker: GrokAgent<Check>)
      requires auditor.fallback == AUDIT_FALLBACK && narrative.fallback == NARRATIVE_FALLBACK
      requires pulse.agent.fallback == PULSE_FALLBACK && checker.fallback == CHECK_FALLBACK
      ensures Valid() && this.cfg == cfg && this.paper == paper
    {
      this.cfg, this.paper := cfg, paper;
      this.auditor, this.narrative, this.pulse, this.checker := auditor, narrative, pulse, checker;
    }

    ghost function ReportsOf(now: real, posts: Posts): Reports
      reads pulse
    {
      Reports(auditor.Reply(posts.audit), narrative.Reply(posts.narrative), pulse.Reply(now, posts.pulse),
          checker.Reply(posts.check))
    }

    /** The score to open with, or nothing. Whatever the network does: no open without an audit, none
        without a pulse under a positive minimum, and live, none without a checker. */
    method EvaluateToken(t: Tape, now: real, later: real, posts: Posts) returns (size: Option<real>)
      requires Valid()
      modifies auditor, narrative, pulse, pulse.agent, checker
      ensures size == Decide(cfg, paper, t, old(ReportsOf(now, posts)))
      ensures Answer(posts.audit, 0, auditor.maxRetries).None? ==> size.None?
      ensures cfg.minGo > 0.0 && old(pulse.Reply(now, posts.pulse)) == PULSE_FALLBACK ==> size.None?
      ensures cfg.minGo > 0.0 && !old(pulse.IsFresh(now)) && Answer(posts.pulse, 0, pulse.agent.maxRetries).None? ==>
          size.None?
      ensures !paper && Answer(posts.check, 0, checker.maxRetries).None? ==> size.None?
    {
      FailClosed(cfg, paper, t, ReportsOf(now, posts));
      var p := pulse.Run(now, posts.pulse, later);
      var a, _ := auditor.Run(posts.audit);
      var n, _ := narrative.Run(posts.narrative);
      var verdict := ScoreToken(cfg, t, a, n, p);
      if !verdict.buy {
        return None;
      }
      var k, _ := checker.Run(posts.check);
      var gate := ApplyChecker(cfg, k, paper, verdict.score);
      if !gate.allow {
        return None;
      }
      return Some(gate.score);
    }
  }
}
