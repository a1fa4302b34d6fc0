/** The retry loop of pkg/provider/resilience/resilience.go, for one caller at a
    time. Complete and Stream run the same loop around different calls. */
module Retry {
  import opened Wrappers
  import opened Backoff
  import opened Circuit

  datatype Policy = Policy(maxAttempts: int64, backoffBase: int64, backoffMax: int64, retryAfterMax: int64)

  /** What the outside world does to one attempt: the clock when the breaker is
      asked and when a failure is recorded, the call's outcome with the Retry-After
      of a 429 (not positive when absent), the random jitter, the time left on the
      context's deadline, and whether the context ends during the sleep. */
  datatype Attempt = Attempt(askedAt: int, outcome: Outcome, retryAfter: int64, failedAt: int,
                             jitter: int64, remaining: Option<int>, interrupted: bool)

  datatype Reply = Response | CircuitOpen | ProviderError(attempt: nat) | ContextEnded

  function Max(a: int, b: int): int {
    if a > b then a else b
  }

  /** The failures recorded since the last recorded success. */
  function FailuresSinceSuccess(history: seq<bool>): nat {
    if history == [] || history[|history| - 1] then 0 else 1 + FailuresSinceSuccess(history[..|history| - 1])
  }

  /** How long to wait after attempt n: the Retry-After of a 429, capped, or the backoff. */
  function Wait(policy: Policy, n: int64, a: Attempt): int {
    if a.outcome == RateLimited && a.retryAfter > 0 then Min(a.retryAfter, policy.retryAfterMax)
    else ComputeBackoff(n, policy.backoffBase, policy.backoffMax, a.jitter)
  }

  /** In the range in which the backoff is exact, that is the promised wait. */
  lemma {:induction false} WaitIsPromised(policy: Policy, n: int64, a: Attempt)
    requires n >= 1 && 0 < policy.backoffBase <= policy.backoffMax && policy.backoffBase * policy.backoffMax <= TWO63
    requires 0 <= a.jitter < policy.backoffBase
    ensures a.outcome == RateLimited && a.retryAfter > policy.retryAfterMax > 0 ==> Wait(policy, n, a) == policy.retryAfterMax
    ensures a.outcome == RateLimited && 0 < a.retryAfter <= policy.retryAfterMax ==> Wait(policy, n, a) == a.retryAfter
    ensures a.outcome != RateLimited || a.retryAfter <= 0 ==>
      Wait(policy, n, a) == Min(policy.backoffBase * Pow2(n - 1) + a.jitter, policy.backoffMax)
  {
    BackoffIsExact(n, policy.backoffBase, policy.backoffMax, a.jitter);
  }

  /** The time spent in the first k waits. */
  function Slept(policy: Policy, attempts: seq<Attempt>, k: nat): int
    requires k <= |attempts| < TWO63
  {
    if k == 0 then 0 else Slept(policy, attempts, k - 1) + Max(Wait(policy, k, attempts[k - 1]), 0)
  }

  /** The attempt fails, and another may follow: the error can be retried, its wait ends
      within the deadline, and the context does not end during it. */
  predicate Retries(policy: Policy, n: int64, a: Attempt) {
    && (a.outcome == Retryable || a.outcome == RateLimited)
    && !(a.outcome == RateLimited && a.remaining.Some? && Wait(policy, n, a) > a.remaining.value)
    && !(Wait(policy, n, a) > 0 && a.interrupted)
  }

  /** The breaker after one attempt that it lets through. */
  function Attempted(settings: Settings, b: Breaker, a: Attempt): Breaker {
    var asked := b.AfterAllow(settings, a.askedAt);
    match a.outcome
    case Success => asked.AfterSuccess()
    case Retryable => asked.AfterFailure(settings, a.failedAt)
    case _ => if asked.state == HalfOpen then asked.AfterSuccess() else asked
  }

  /** The breaker as the first k attempts leave it. */
  function BreakerAfter(settings: Settings, b: Breaker, attempts: seq<Attempt>, k: nat): Breaker
    requires k <= |attempts|
  {
    if k == 0 then b else Attempted(settings, BreakerAfter(settings, b, attempts, k - 1), attempts[k - 1])
  }

  lemma {:induction false} OneMoreAttempt(settings: Settings, b: Breaker, policy: Policy, attempts: seq<Attempt>, k: nat)
    requires k < |attempts| < TWO63
    ensures BreakerAfter(settings, b, attempts, k + 1) == Attempted(settings, BreakerAfter(settings, b, attempts, k), attempts[k])
    ensures Slept(policy, attempts, k + 1) == Slept(policy, attempts, k) + Max(Wait(policy, k + 1, attempts[k]), 0)
  {
  }

  lemma {:induction false} NoAttempt(settings: Settings, b: Breaker, policy: Policy, attempts: seq<Attempt>)
    requires |attempts| < TWO63
    ensures BreakerAfter(settings, b, attempts, 0) == b && Slept(policy, attempts, 0) == 0
  {
  }

  /** The first k attempts were made, and failed so that another followed. */
  ghost predicate Tried(settings: Settings, policy: Policy, b: Breaker, attempts: seq<Attempt>, k: nat)
    requires k <= |attempts| < TWO63
  {
    && (forall i: int64 | 0 <= i < k :: Retries(policy, i + 1, attempts[i]))
    && (forall i: nat | i < k :: BreakerAfter(settings, b, attempts, i).Allows(settings, attempts[i].askedAt))
  }

  class ResilientProvider {
    const cb: CircuitBreaker
    const policy: Policy
    /** What has been recorded on the breaker: true for a success. */
    ghost var history: seq<bool>

    constructor (settings: Settings, policy: Policy)
      requires settings.threshold > 0 && policy.maxAttempts >= 1 && policy.backoffMax > 0 && policy.retryAfterMax > 0
      ensures Valid() && cb.state == Closed && fresh(cb)
    {
      cb := new CircuitBreaker(settings);
      this.policy := policy;
      history := [];
    }

    ghost predicate Configured() {
      cb.settings.threshold > 0 && policy.maxAttempts >= 1 && policy.backoffMax > 0 && policy.retryAfterMax > 0
    }

    /** A closed breaker counts the failures since the last success, short of the
        threshold. */
    ghost predicate Counting()
      reads this, cb
    {
      cb.state == Closed ==> cb.failures == FailuresSinceSuccess(history) < cb.settings.threshold
    }

    ghost predicate Valid()
      reads this, cb
    {
      Configured() && Counting() && cb.state != HalfOpen
    }

    /** No single wait is longer. */
    function LongestWait(): int {
      Max(policy.backoffMax, policy.retryAfterMax)
    }

    /** The longest total wait of n sleeps. */
    ghost function Waits(n: nat): int {
      if n == 0 then 0 else Waits(n - 1) + LongestWait()
    }

    lemma {:induction false} WaitsProduct(n: nat)
      ensures Waits(n) == n * LongestWait()
    {
      if n > 0 {
        WaitsProduct(n - 1);
      }
    }

    lemma {:induction false} WaitsGrow(m: nat, n: nat)
      requires Configured() && m <= n
      ensures Waits(m) <= Waits(n)
    {
      if m < n {
        WaitsGrow(m, n - 1);
      }
    }

    method RetryAfterWait(a: Attempt, attempt: int64) returns (wait: int64)
      ensures wait <= LongestWait()
      ensures a.retryAfter > 0 ==> wait == Min(a.retryAfter, policy.retryAfterMax)
      ensures a.retryAfter <= 0 ==> wait == ComputeBackoff(attempt, policy.backoffBase, policy.backoffMax, a.jitter)
    {
      if a.retryAfter > 0 {
        wait := a.retryAfter;
        if wait > policy.retryAfterMax {
          wait := policy.retryAfterMax;
        }
        return;
      }
      wait := ComputeBackoff(attempt, policy.backoffBase, policy.backoffMax, a.jitter);
    }

    method RecordSuccess()
      modifies this, cb
      ensures cb.Value() == old(cb.Value()).AfterSuccess()
      ensures history == old(history) + [true]
      ensures old(Configured() && Counting()) ==> Valid()
    {
      cb.RecordSuccess();
      history := history + [true];
    }

    method RecordFailure(now: int)
      modifies this, cb
      ensures cb.Value() == old(cb.Value()).AfterFailure(cb.settings, now)
      ensures history == old(history) + [false]
      ensures old(Configured() && Counting()) ==> Valid()
    {
      cb.RecordFailure(now);
      history := history + [false];
      assert history[..|history| - 1] == old(history);
    }

    /** A failed call: `stop` is the reply that ends the loop, if it ends. */
    method HandleError(attempt: int64, a: Attempt) returns (stop: Option<Reply>, slept: int)
      requires Configured() && Counting() && attempt >= 1 && a.outcome != Success
      modifies this, cb
      ensures Valid()
      ensures stop == Some(ProviderError(attempt)) <==>
                || a.outcome == NonRetryable || attempt >= policy.maxAttempts
                || (a.outcome == RateLimited && a.remaining.Some? && Wait(policy, attempt, a) > a.remaining.value)
      ensures stop == Some(ContextEnded) <==>
                stop != Some(ProviderError(attempt)) && Wait(policy, attempt, a) > 0 && a.interrupted
      ensures stop.None? <==> attempt < policy.maxAttempts && Retries(policy, attempt, a)
      ensures slept == if stop == Some(ProviderError(attempt)) then 0 else Max(Wait(policy, attempt, a), 0)
      ensures slept <= LongestWait()
      ensures a.outcome == Retryable ==>
                cb.Value() == old(cb.Value()).AfterFailure(cb.settings, a.failedAt) && history == old(history) + [false]
      ensures a.outcome != Retryable && old(cb.state) == HalfOpen ==>
                cb.Value() == old(cb.Value()).AfterSuccess() && history == old(history) + [true]
      ensures a.outcome != Retryable && old(cb.state) != HalfOpen ==>
                cb.Value() == old(cb.Value()) && history == old(history)
    {
      slept := 0;
      match a.outcome {
        case RateLimited =>
          if cb.state == HalfOpen {
            RecordSuccess();
          }
          if attempt >= policy.maxAttempts {
            return Some(ProviderError(attempt)), slept;
          }
          var wait := RetryAfterWait(a, attempt);
          if a.remaining.Some? && wait > a.remaining.value {
            return Some(ProviderError(attempt)), slept;
          }
          stop, slept := SleepWithContext(wait, a.interrupted);
        case Retryable =>
          RecordFailure(a.failedAt);
          if attempt >= policy.maxAttempts {
            return Some(ProviderError(attempt)), slept;
          }
          var wait := ComputeBackoff(attempt, policy.backoffBase, policy.backoffMax, a.jitter);
          stop, slept := SleepWithContext(wait, a.interrupted);
        case NonRetryable =>
          if cb.state == HalfOpen {
            RecordSuccess();
          }
          return Some(ProviderError(attempt)), slept;
      }
    }

    method SleepWithContext(d: int64, interrupted: bool) returns (stop: Option<Reply>, slept: int)
      ensures stop == if d > 0 && interrupted then Some(ContextEnded) else None
      ensures slept == if d > 0 then d else 0
    {
      if d <= 0 {
        return None, 0;
      }
      return if interrupted then Some(ContextEnded) else None, d;
    }

    /** One attempt: the breaker is asked, and if it agrees the call is made. */
    method Try(n: int64, a: Attempt) returns (allowed: bool, stop: Option<Reply>, slept: int)
      requires Valid() && n >= 1
      modifies this, cb
      ensures Valid()
      ensures allowed == old(cb.Value()).Allows(cb.settings, a.askedAt)
      ensures !allowed ==> cb.Value() == old(cb.Value()) && cb.state == Open && slept == 0
      ensures allowed ==> cb.Value() == Attempted(cb.settings, old(cb.Value()), a)
      ensures allowed && a.outcome == Success ==> stop == Some(Response) && slept == 0 && cb.state == Closed && cb.failures == 0
      ensures allowed && a.outcome != Success ==>
                && (stop == Some(ProviderError(n)) <==>
                      || a.outcome == NonRetryable || n >= policy.maxAttempts
                      || (a.outcome == RateLimited && a.remaining.Some? && Wait(policy, n, a) > a.remaining.value))
                && (stop == Some(ContextEnded) <==> stop != Some(ProviderError(n)) && Wait(policy, n, a) > 0 && a.interrupted)
                && (stop.None? <==> n < policy.maxAttempts && Retries(policy, n, a))
                && slept == if stop == Some(ProviderError(n)) then 0 else Max(Wait(policy, n, a), 0)
      ensures 0 <= slept <= LongestWait()
      ensures old(cb.state) == Closed && (a.outcome == RateLimited || a.outcome == NonRetryable) ==>
                cb.Value() == old(cb.Value()) && history == old(history)
    {
      stop, slept := None, 0;
      allowed := cb.Allow(a.askedAt);
      if !allowed {
        return;
      }
      if a.outcome == Success {
        RecordSuccess();
        stop := Some(Response);
      } else {
        stop, slept := HandleError(n, a);
      }
    }

    /** `calls` counts the inner calls, and `slept` adds up the waits. The loop ends with a
        response, or when the breaker refuses, an error must not be retried, the attempts
        are used up, the deadline is too near, or the context ends; and not before. */
    method Complete(attempts: seq<Attempt>) returns (reply: Reply, calls: nat, slept: int)
      requires Valid() && |attempts| == policy.maxAttempts
      modifies this, cb
      ensures Valid()
      ensures (if reply == CircuitOpen then 0 else 1) <= calls <= policy.maxAttempts
      ensures Tried(cb.settings, policy, old(cb.Value()), attempts, if reply == CircuitOpen then calls else calls - 1)
      ensures cb.Value() == BreakerAfter(cb.settings, old(cb.Value()), attempts, calls)
      ensures reply == Response ==> calls > 0 && attempts[calls - 1].outcome == Success && cb.state == Closed && cb.failures == 0
      ensures reply.ProviderError? ==>
                && reply.attempt == calls > 0 && attempts[calls - 1].outcome != Success
                && var a := attempts[calls - 1];
                   || calls == policy.maxAttempts || a.outcome == NonRetryable
                   || (a.outcome == RateLimited && a.remaining.Some? && Wait(policy, calls, a) > a.remaining.value)
      ensures reply == ContextEnded ==>
                && 0 < calls < policy.maxAttempts
                && var a := attempts[calls - 1];
                   (a.outcome == Retryable || a.outcome == RateLimited) && a.interrupted && Wait(policy, calls, a) > 0
                   && !(a.outcome == RateLimited && a.remaining.Some? && Wait(policy, calls, a) > a.remaining.value)
      ensures reply == CircuitOpen ==>
                calls < policy.maxAttempts && cb.state == Open && !cb.Value().Allows(cb.settings, attempts[calls].askedAt)
      ensures reply != CircuitOpen ==>
                BreakerAfter(cb.settings, old(cb.Value()), attempts, calls - 1).Allows(cb.settings, attempts[calls - 1].askedAt)
      ensures slept == Slept(policy, attempts, if reply == CircuitOpen || reply == ContextEnded then calls else calls - 1)
      ensures 0 <= slept <= (policy.maxAttempts - 1) * LongestWait()
      ensures old(cb.state) == Closed
              && (forall i | 0 <= i < calls :: attempts[i].outcome == RateLimited || attempts[i].outcome == NonRetryable) ==>
                cb.Value() == old(cb.Value()) && history == old(history)
    {
      hide Wait, Attempted, BreakerAfter, Slept;
      WaitsProduct(policy.maxAttempts - 1);
      NoAttempt(cb.settings, cb.Value(), policy, attempts);
      var attempt := 1;
      reply, calls, slept := CircuitOpen, 0, 0;
      while attempt <= policy.maxAttempts
        invariant 1 <= attempt <= policy.maxAttempts && calls == attempt - 1
        invariant Valid()
        invariant 0 <= slept <= Waits(attempt - 1) && slept == Slept(policy, attempts, calls)
        invariant Tried(cb.settings, policy, old(cb.Value()), attempts, calls)
        invariant cb.Value() == BreakerAfter(cb.settings, old(cb.Value()), attempts, calls)
        invariant old(cb.state) == Closed && (forall i | 0 <= i < calls :: attempts[i].outcome == RateLimited) ==>
            cb.Value() == old(cb.Value()) && history == old(history)
      {
        WaitsGrow(attempt - 1, policy.maxAttempts - 1);
        if attempt < policy.maxAttempts {
          WaitsGrow(attempt, policy.maxAttempts - 1);
        }
        OneMoreAttempt(cb.settings, old(cb.Value()), policy, attempts, calls);
        var allowed, stop, nap := Try(attempt, attempts[attempt - 1]);
        if !allowed {
          return CircuitOpen, calls, slept;
        }
        calls := calls + 1;
        slept := slept + nap;
        if stop.Some? {
          return stop.value, calls, slept;
        }
        attempt := attempt + 1;
      }
      assert false;
    }
  }
}
