/** The model client every bot is built on (src/base_agent.py): bounded retries, and a pessimistic
    fallback instead of an exception. */
module Agent {
  import opened Models

  /** How one post ends: a reply that parses, or an exception, with the HTTP status if it carries one. */
  datatype Attempt<R> = Replied(reply: R) | Failed(status: Option<int>)

  const RETRYABLE_STATUS := {408, 409, 425, 429, 500, 502, 503, 504}

  predicate ShouldRetry(status: Option<int>) {
    status.None? || status.value in RETRYABLE_STATUS
  }

  /** Another post may follow this one. */
  predicate Invites<R>(a: Attempt<R>) {
    a.Failed? && ShouldRetry(a.status)
  }

  /** What the posts from number `k` on come to, when at most `limit` are made in all. */
  function Answer<R>(attempts: nat -> Attempt<R>, k: nat, limit: int): Option<R>
    decreases limit - k
  {
    if k >= limit then None
    else
      match attempts(k)
      case Replied(reply) => Some(reply)
      case Failed(status) => if ShouldRetry(status) then Answer(attempts, k + 1, limit) else None
  }

  /** Post `k` is the first to end the run, and it answers. */
  ghost predicate AnsweredAt<R>(attempts: nat -> Attempt<R>, k: nat, limit: int) {
    k < limit && attempts(k).Replied? && forall j: nat :: j < k ==> Invites(attempts(j))
  }

  /** A run is answered exactly when some post within the limit replies and every earlier one failed in
      a way worth retrying; the answer is then that reply. */
  lemma AnswerIsFirst<R>(attempts: nat -> Attempt<R>, limit: int)
    ensures Answer(attempts, 0, limit).Some? <==> exists k: nat :: AnsweredAt(attempts, k, limit)
    ensures forall k: nat :: AnsweredAt(attempts, k, limit) ==> Answer(attempts, 0, limit) == Some(attempts(k).reply)
  {
    if Answer(attempts, 0, limit).Some? {
      var _ := AnswerHasPost(attempts, 0, limit);
    }
    forall k: nat | AnsweredAt(attempts, k, limit) ensures Answer(attempts, 0, limit) == Some(attempts(k).reply) {
      PostGivesAnswer(attempts, 0, k, limit);
    }
  }

  lemma {:induction false} AnswerHasPost<R>(attempts: nat -> Attempt<R>, n: nat, limit: int) returns (k: nat)
    requires Answer(attempts, n, limit).Some? && forall j: nat :: j < n ==> Invites(attempts(j))
    ensures AnsweredAt(attempts, k, limit)
    decreases limit - n
  {
    if attempts(n).Replied? {
      k := n;
    } else {
      k := AnswerHasPost(attempts, n + 1, limit);
    }
  }

  lemma {:induction false} PostGivesAnswer<R>(attempts: nat -> Attempt<R>, n: nat, k: nat, limit: int)
    requires AnsweredAt(attempts, k, limit) && n <= k
    ensures Answer(attempts, n, limit) == Some(attempts(k).reply)
    decreases k - n
  {
    if n < k {
      assert Invites(attempts(n));
      PostGivesAnswer(attempts, n + 1, k, limit);
    }
  }

  /** What the status of a failure means for the run. A timeout, a conflict, a rate limit or a server at fault
      leaves the answer to the posts that follow; so does a failure without a status. Any other status, a client
      error above all, ends the run unanswered, whatever would have followed. */
  lemma OnlyTransientFailuresRetry<R>(attempts: nat -> Attempt<R>, limit: int, status: Option<int>)
    requires attempts(0) == Failed(status) && limit > 0
    ensures status.None? || status.value in {408, 409, 425, 429, 500, 502, 503, 504} ==>
              Answer(attempts, 0, limit) == Answer(attempts, 1, limit)
    ensures status.Some? && status.value !in {408, 409, 425, 429, 500, 502, 503, 504} ==>
              Answer(attempts, 0, limit).None?
  {
  }

  /** One bot, with its share of the cost counters. */
  class GrokAgent<R> {
    const maxRetries: int
    const fallback: R
    var failedCalls: nat
    var fallbacks: nat

    constructor (maxRetries: int, fallback: R)
      ensures this.maxRetries == maxRetries && this.fallback == fallback && failedCalls == 0 && fallbacks == 0
    {
      this.maxRetries, this.fallback := maxRetries, fallback;
      failedCalls, fallbacks := 0, 0;
    }

    ghost function Reply(attempts: nat -> Attempt<R>): R {
      var answer := Answer(attempts, 0, maxRetries);
      if answer.Some? then answer.value else fallback
    }

    /** At most `maxRetries` posts, none after a reply or an error not worth retrying, and a reply or the
        fallback in every case. */
    method Run(attempts: nat -> Attempt<R>) returns (r: R, posts: nat)
      modifies this
      ensures r == Reply(attempts)
      ensures posts <= MaxInt(0, maxRetries)
      ensures forall j: nat :: j + 1 < posts ==> Invites(attempts(j))
      ensures posts < maxRetries ==> posts > 0 && !Invites(attempts(posts - 1))
      ensures Answer(attempts, 0, maxRetries).Some? <==> posts > 0 && attempts(posts - 1).Replied?
      ensures failedCalls == old(failedCalls) + posts - (if Answer(attempts, 0, maxRetries).Some? then 1 else 0)
      ensures fallbacks == old(fallbacks) + (if Answer(attempts, 0, maxRetries).Some? then 0 else 1)
    {
      posts := 0;
      while posts < maxRetries
        invariant posts <= MaxInt(0, maxRetries)
        invariant forall j: nat :: j < posts ==> Invites(attempts(j))
        invariant Answer(attempts, 0, maxRetries) == Answer(attempts, posts, maxRetries)
        invariant failedCalls == old(failedCalls) + posts && fallbacks == old(fallbacks)
      {
        var attempt := attempts(posts);
        posts := posts + 1;
        if attempt.Replied? {
          return attempt.reply, posts;
        }
        failedCalls := failedCalls + 1;
        if !ShouldRetry(attempt.status) {
          break;
        }
      }
      fallbacks := fallbacks + 1;
      return fallback, posts;
    }
  }
}
