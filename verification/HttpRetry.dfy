/** The provider client's request loop: which failures are retried, how often, how long it sleeps, and
    how it ends. */
module HttpRetry {
  import opened Wrappers
  import Basics

  /** What one request meets: a transport failure, or a response. */
  datatype Reply =
    | TransportFailure
    | Response(status: int, decodes: bool, retryAfter: Option<real>)

  datatype Error =
    | AuthError | EntitlementError | RateLimited(retryAfter: Option<real>)
    | Unavailable | ResponseError

  datatype Outcome =
    | Body(status: int)
    | Raised(error: Error)
    | AssertionTripped                    // the trailing assertion of the loop

  /** A provider's hook may narrow a classification. */
  type Refinement = (int, Error) -> Error

  predicate IsSuccess(status: int) {
    200 <= status <= 299
  }

  predicate RetryableStatus(status: int) {
    status == 408 || status == 425 || status == 429 || status == 500 || 502 <= status <= 504
  }

  function ClassifyByStatus(status: int, retryAfter: Option<real>): Error {
    if status == 401 || status == 403 then AuthError
    else if status == 402 then EntitlementError
    else if status == 429 then RateLimited(retryAfter)
    else if RetryableStatus(status) || status >= 500 then Unavailable
    else ResponseError
  }

  /** The error a reply stands for, if it is not a success. */
  function Failure(r: Reply, refine: Refinement): Error
    requires r.Response? ==> !IsSuccess(r.status)
  {
    match r
    case TransportFailure => Unavailable
    case Response(status, _, retryAfter) => refine(status, ClassifyByStatus(status, retryAfter))
  }

  predicate Retryable(e: Error) {
    e.RateLimited? || e.Unavailable?
  }

  /** A reply after which the loop may go on. */
  predicate GoesOn(r: Reply, refine: Refinement) {
    r.TransportFailure? || (!IsSuccess(r.status) && Retryable(Failure(r, refine)))
  }

  /** How a call ends on the reply that ended it. A success whose body does not decode is an error. */
  function Conclusion(r: Reply, refine: Refinement): Outcome {
    if r.TransportFailure? then Raised(Unavailable)
    else if IsSuccess(r.status) then (if r.decodes then Body(r.status) else Raised(ResponseError))
    else Raised(Failure(r, refine))
  }

  function Power2(n: nat): nat {
    if n == 0 then 1 else 2 * Power2(n - 1)
  }

  datatype Backoff = Backoff(base: real, max: real)

  function Min(a: real, b: real): real {
    if a < b then a else b
  }

  /** The longest sleep after failed attempt `attempt`; a server's hint replaces the exponential. */
  function Delay(b: Backoff, attempt: nat, hint: Option<real>): real
    requires attempt >= 1
  {
    if hint.Some? then Min(hint.value, b.max) else Min(b.base * Power2(attempt - 1) as real, b.max)
  }

  function Hint(r: Reply, refine: Refinement): Option<real> {
    if r.TransportFailure? || IsSuccess(r.status) then None
    else match Failure(r, refine) case RateLimited(h) => h case _ => None
  }

  /** What that many sleeps can take. */
  function Budget(sleeps: nat, max: real): real {
    sleeps as real * max
  }

  /** The longest the sleeps after the first `n` attempts can take together. */
  function Longest(replies: nat -> Reply, refine: Refinement, b: Backoff, n: nat): real {
    if n == 0 then 0.0
    else
      Longest(replies, refine, b, n - 1) + Slept(1.0, Delay(b, n, Hint(replies(n), refine)))
  }

  /** What is slept after the first `n` attempts. */
  function SleptAfter(replies: nat -> Reply, refine: Refinement, jitter: nat -> real, b: Backoff, n: nat): real {
    if n == 0 then 0.0
    else SleptAfter(replies, refine, jitter, b, n - 1) + Slept(jitter(n), Delay(b, n, Hint(replies(n), refine)))
  }

  /** Full jitter: a fraction of the delay. A negative delay is no sleep at all. */
  function Slept(fraction: real, delay: real): real {
    if delay > 0.0 then fraction * delay else 0.0
  }

  /** No sleep is longer than the maximum, so the total is at most that many times it; and full jitter
      sleeps the whole of it. */
  lemma {:induction false} SleepsWithinBudget(replies: nat -> Reply, refine: Refinement, jitter: nat -> real, b: Backoff, n: nat)
    requires 0.0 <= b.max && forall k :: 0.0 <= jitter(k) <= 1.0
    ensures 0.0 <= SleptAfter(replies, refine, jitter, b, n) <= Longest(replies, refine, b, n) <= Budget(n, b.max)
    ensures (forall k :: jitter(k) == 1.0) ==> SleptAfter(replies, refine, jitter, b, n) == Longest(replies, refine, b, n)
  {
    if n > 0 {
      SleepsWithinBudget(replies, refine, jitter, b, n - 1);
      JitterShortens(jitter(n), Delay(b, n, Hint(replies(n), refine)));
      OneMore(n, b.max);
    }
  }

  /** Without a hint from the server the delay starts at the base and doubles until it reaches the
      maximum; a hint is never overslept. */
  lemma DelaysDouble(b: Backoff, attempt: nat, hint: real)
    requires attempt >= 1 && 0.0 <= b.base && 0.0 <= b.max
    ensures Delay(b, 1, None) == Min(b.base, b.max)
    ensures Delay(b, attempt + 1, None) == Min(2.0 * Delay(b, attempt, None), b.max)
    ensures Delay(b, attempt, Some(hint)) <= hint && Delay(b, attempt, Some(hint)) <= b.max
    ensures Delay(b, attempt, Some(hint)) == hint || Delay(b, attempt, Some(hint)) == b.max
  {
    var power := Power2(attempt - 1);
    assert Power2(attempt) as real == 2.0 * power as real;
    Basics.Product(b.base, power as real);
    Regroup(b.base, power as real);
  }

  lemma Regroup(x: real, y: real)
    ensures x * (2.0 * y) == 2.0 * (x * y)
  {
  }

  /** The client's own limit of attempts is at least one; a caller's override is taken as it is. A
      request not marked safe to repeat is tried once whatever either says. */
  function Attempts(configured: int, override: Option<int>, retrySafe: bool): int {
    if !retrySafe then 1
    else if override.Some? then override.value
    else if configured < 1 then 1 else configured
  }

  /** Which attempt ends the call: the first whose reply is conclusive, or else the last allowed. */
  ghost predicate EndsAt(replies: nat -> Reply, refine: Refinement, attempts: int, n: nat) {
    && 1 <= n <= attempts
    && (forall k :: 1 <= k < n ==> GoesOn(replies(k), refine))
    && (n < attempts ==> !GoesOn(replies(n), refine))
  }

  /** One call. `replies` is what the world would answer to each request in turn, `jitter` the fraction
      of each delay that is slept. It sends requests until the first conclusive reply or the last
      attempt, answers with what that reply means, and sleeps at most the maximum between requests.
      The trailing assertion is reached exactly when a caller allows no attempt at all. */
  method RequestJson(replies: nat -> Reply, refine: Refinement, jitter: nat -> real, backoff: Backoff,
                     configured: int, override: Option<int>, retrySafe: bool)
    returns (outcome: Outcome, requests: nat, slept: real)
    requires 0.0 <= backoff.max && forall k :: 0.0 <= jitter(k) <= 1.0
    ensures Attempts(configured, override, retrySafe) >= 1 ==>
              EndsAt(replies, refine, Attempts(configured, override, retrySafe), requests)
              && outcome == Conclusion(replies(requests), refine)
    ensures outcome.AssertionTripped? <==> Attempts(configured, override, retrySafe) < 1
    ensures outcome.AssertionTripped? ==> requests == 0
    ensures !retrySafe ==> requests == 1 && slept == 0.0
    ensures slept == SleptAfter(replies, refine, jitter, backoff, if requests == 0 then 0 else requests - 1)
  {
    hide Slept, Delay, Failure;
    var attempts := Attempts(configured, override, retrySafe);
    requests, slept := 0, 0.0;
    var attempt := 1;
    while attempt <= attempts
      invariant requests == attempt - 1 && (if attempts >= 1 then 1 <= attempt <= attempts else attempt == 1)
      invariant forall k :: 1 <= k < attempt ==> GoesOn(replies(k), refine)
      invariant slept == SleptAfter(replies, refine, jitter, backoff, requests)
      invariant requests == 0 ==> slept == 0.0
      decreases attempts - attempt
    {
      requests := requests + 1;
      var r := replies(attempt);
      if r.TransportFailure? {
        if attempt >= attempts { return Raised(Unavailable), requests, slept; }
      } else if IsSuccess(r.status) {
        return (if r.decodes then Body(r.status) else Raised(ResponseError)), requests, slept;
      } else {
        var error := Failure(r, refine);
        if !(Retryable(error) && attempt < attempts) { return Raised(error), requests, slept; }
      }
      var delay := Delay(backoff, attempt, Hint(r, refine));
      slept := slept + Slept(jitter(attempt), delay);
      attempt := attempt + 1;
    }
    outcome := AssertionTripped;
  }

  lemma JitterShortens(fraction: real, delay: real)
    requires 0.0 <= fraction <= 1.0
    ensures 0.0 <= Slept(fraction, delay) <= Slept(1.0, delay)
  {
    if delay > 0.0 {
      Basics.Product(fraction, delay);
      Basics.Product(1.0 - fraction, delay);
    }
  }

  lemma OneMore(n: nat, max: real)
    requires n >= 1
    ensures Budget(n - 1, max) + max == Budget(n, max)
  {
  }

  /** Every failing status has exactly one class. */
  lemma ClassifiedExactly(status: int, retryAfter: Option<real>)
    ensures var e := ClassifyByStatus(status, retryAfter);
            && (e == AuthError <==> status == 401 || status == 403)
            && (e == EntitlementError <==> status == 402)
            && (e == RateLimited(retryAfter) <==> status == 429) && (e.RateLimited? ==> e == RateLimited(retryAfter))
            && (e == Unavailable <==> status == 408 || status == 425 || status >= 500)
  {
  }

  /** A reply as a caller without a hook meets it: retried exactly when the transport failed or the server was
      busy or broken, a body exactly when a success decoded, an error otherwise; and the server's own
      hint is followed exactly on 429. */
  lemma PlainReply(r: Reply)
    ensures var plain: Refinement := (status, e) => e;
            && (GoesOn(r, plain) <==>
                  r.TransportFailure? || r.status == 408 || r.status == 425 || r.status == 429 || r.status >= 500)
            && (Conclusion(r, plain).Body? <==> r.Response? && 200 <= r.status <= 299 && r.decodes)
            && (Conclusion(r, plain).Body? ==> Conclusion(r, plain) == Body(r.status))
            && (Conclusion(r, plain) == Raised(ResponseError) <==>
                  r.Response? && (if 200 <= r.status <= 299 then !r.decodes
                                  else r.status < 500 && r.status != 401 && r.status != 402 && r.status != 403
                                       && r.status != 408 && r.status != 425 && r.status != 429))
            && (Conclusion(r, plain) == Raised(Unavailable) <==>
                  r.TransportFailure? || r.status == 408 || r.status == 425 || r.status >= 500)
            && Hint(r, plain) == (if r.Response? && r.status == 429 then r.retryAfter else None)
  {
  }

  /** A hook decides both what a failure is and, through that, whether it is retried. */
  lemma HookDecides(r: Reply, refine: Refinement)
    requires r.Response? && !(200 <= r.status <= 299)
    ensures var e := refine(r.status, ClassifyByStatus(r.status, r.retryAfter));
            && Conclusion(r, refine) == Raised(e)
            && (GoesOn(r, refine) <==> e.RateLimited? || e.Unavailable?)
            && Hint(r, refine) == (if e.RateLimited? then e.retryAfter else None)
  {
  }

  /** How many requests a call may make. When every reply may be retried, it makes them all. */
  lemma AttemptsExactly(configured: int, override: Option<int>, retrySafe: bool)
    ensures var n := Attempts(configured, override, retrySafe);
            && (!retrySafe ==> n == 1)
            && (retrySafe && override.Some? ==> n == override.value)
            && (retrySafe && override.None? && configured >= 1 ==> n == configured)
            && (retrySafe && override.None? && configured < 1 ==> n == 1)
            && (n < 1 <==> retrySafe && override.Some? && override.value < 1)
  {
  }

  lemma EveryAttemptUsed(replies: nat -> Reply, refine: Refinement, attempts: int, n: nat)
    requires EndsAt(replies, refine, attempts, n) && forall k :: GoesOn(replies(k), refine)
    ensures n == attempts
  {
  }
}
