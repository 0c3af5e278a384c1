/**
 * The Gemini client's retry policy (internal/gemini/client.go). A request
 * is tried at most five times. Each failure is classified by its error
 * text: a daily (RPD) quota error or another quota error stops at once, a
 * per-minute rate limit waits a minute, an overloaded service waits five
 * minutes, another temporary server error waits twelve seconds per attempt
 * made (at most a minute), and any other error stops at once.
 *
 * The SDK call is the `attempts` oracle (what the k-th call returns); the
 * context is the `cancel` parameter, observed while waiting between calls.
 * Delays are in seconds.
 */
module GeminiClient {
  import opened Common
  import opened GoStrings

  const MaxRetries: nat := 5
  const BaseDelay: nat := 12
  const RateLimitDelay: nat := 60
  const ServiceUnavailableDelay: nat := 300
  const MaxBackoff: nat := 60

  /** What one call of the SDK gives back. */
  datatype Attempt =
    | Generated(text: string)       // a response whose text could be read
    | TextFailed(error: string)     // a response whose text could not be read
    | CallFailed(error: string)     // the call itself failed

  /** The error text, lower-cased, contains `needle`. */
  predicate Mentions(errText: string, needle: string)
  {
    Contains(Lower(errText), needle)
  }

  /** An error text mentions a needle that its letters spell, in any case, at some position. */
  lemma MentionsAt(errText: string, needle: string, i: nat)
    requires i + |needle| <= |errText|
    requires forall k :: 0 <= k < |needle| ==> LowerChar(errText[i + k]) == needle[k]
    ensures Mentions(errText, needle)
  {
    var l := Lower(errText);
    forall k | 0 <= k < |needle|
      ensures l[i + k] == needle[k]
    {
      LowerAt(errText, i + k);
    }
    assert OccursAt(l, needle, i);
    ContainsOccurs(l, needle);
  }

  /** The error text mentions one of `needles`. */
  predicate MentionsAny(errText: string, needles: seq<string>)
    decreases |needles|
  {
    needles != [] && (Mentions(errText, needles[0]) || MentionsAny(errText, needles[1..]))
  }

  predicate IsRpdQuotaError(e: string)
  {
    MentionsAny(e, ["429", "code: 429"])
    && MentionsAny(e, ["limit: 20", "generate_content_free_tier_requests"])
  }

  predicate IsRateLimitError(e: string)
  {
    !IsRpdQuotaError(e)
    && MentionsAny(e, ["rate limit", "429", "too many requests", "resource exhausted"])
  }

  predicate IsServiceUnavailableError(e: string)
  {
    MentionsAny(e, ["503", "service unavailable", "overloaded", "model overloaded"])
  }

  predicate IsTemporaryError(e: string)
  {
    MentionsAny(e, ["500", "502", "504", "internal server error", "bad gateway", "gateway timeout"])
  }

  predicate IsQuotaExceededError(e: string)
  {
    MentionsAny(e, ["quota", "quota exceeded", "daily limit", "403"])
  }

  datatype ErrorClass = RpdQuota | RateLimit | ServiceUnavailable | Temporary | QuotaExceeded | Fatal

  /** The checks of GenerateText, in the order it makes them. */
  function Classify(e: string): ErrorClass
  {
    if IsRpdQuotaError(e) then RpdQuota
    else if IsRateLimitError(e) then RateLimit
    else if IsServiceUnavailableError(e) then ServiceUnavailable
    else if IsTemporaryError(e) then Temporary
    else if IsQuotaExceededError(e) then QuotaExceeded
    else Fatal
  }

  predicate Retryable(c: ErrorClass)
  {
    c == RateLimit || c == ServiceUnavailable || c == Temporary
  }

  /** The pause before attempt `attempt` (counted from 0), after a failure of class `previous`. */
  function RetryDelay(attempt: nat, previous: ErrorClass): (d: nat)
    ensures previous == ServiceUnavailable ==> d == ServiceUnavailableDelay
    ensures previous == RateLimit ==> d == RateLimitDelay
    ensures previous != ServiceUnavailable && previous != RateLimit ==> d <= MaxBackoff && d <= BaseDelay * attempt
  {
    if previous == ServiceUnavailable then ServiceUnavailableDelay
    else if previous == RateLimit then RateLimitDelay
    else if BaseDelay * attempt > MaxBackoff then MaxBackoff
    else BaseDelay * attempt
  }

  /*
   * The retry loop does not depend on how error texts are classified, so it
   * is stated for any classifier `classify`; GenerateText runs it with
   * Classify.
   */

  /** The call failed in a way the loop retries. */
  predicate Retries(a: Attempt, classify: string -> ErrorClass)
  {
    a.CallFailed? && Retryable(classify(a.error))
  }

  /** What the loop returns once attempt `a` is the last one it makes without being cancelled. */
  function Final(a: Attempt, classify: string -> ErrorClass): Result<string>
  {
    match a
    case Generated(text) => Ok(text)
    case TextFailed(e) => Err("get text from result: " + e)
    case CallFailed(e) =>
      match classify(e)
      case RpdQuota => Err("gemini API RPD quota exceeded (daily limit reached): " + e)
      case QuotaExceeded => Err("gemini API quota exceeded: " + e)
      case Fatal => Err("generate content: " + e)
      case _ => Err("max retries exceeded: " + e)
  }

  /** The waits before attempts 1 .. n, after the failures of attempts 0 .. n - 1. */
  function Delays(attempts: nat -> Attempt, classify: string -> ErrorClass, n: nat): (d: seq<nat>)
    ensures |d| == n
  {
    if n == 0 then []
    else
      var failed := attempts(n - 1);
      Delays(attempts, classify, n - 1) + [RetryDelay(n, if failed.CallFailed? then classify(failed.error) else Fatal)]
  }

  /** What a call of GenerateText comes to: its result, the SDK calls made and the waits started. */
  datatype Outcome = Outcome(res: Result<string>, calls: nat, delays: seq<nat>)

  /**
   * The outcome from attempt `k` on, once the attempts before it have failed
   * in a retryable way and the waits between them ran out: an attempt that
   * may be retried leads to a wait and the next attempt, unless it was the
   * last one; a wait the context interrupts ends everything.
   */
  function Run(attempts: nat -> Attempt, classify: string -> ErrorClass, cancel: Cancel, k: nat): Outcome
    requires k < MaxRetries
    decreases MaxRetries - k
  {
    if Retries(attempts(k), classify) && k + 1 < MaxRetries then
      if Interrupts(cancel, k) then Outcome(Err(ContextCanceled), k + 1, Delays(attempts, classify, k + 1))
      else Run(attempts, classify, cancel, k + 1)
    else Outcome(Final(attempts(k), classify), k + 1, Delays(attempts, classify, k))
  }

  /**
   * The outcome as it stands at the head of the loop, before attempt `k`:
   * once every attempt has failed it is the last failure's error; otherwise
   * the wait before attempt `k` either is interrupted or leads to attempt `k`.
   */
  function Pending(attempts: nat -> Attempt, classify: string -> ErrorClass, cancel: Cancel, k: nat): Outcome
    requires k <= MaxRetries
  {
    if k == MaxRetries then Outcome(Final(attempts(k - 1), classify), k, Delays(attempts, classify, k - 1))
    else if k > 0 && Interrupts(cancel, k - 1) then Outcome(Err(ContextCanceled), k, Delays(attempts, classify, k))
    else Run(attempts, classify, cancel, k)
  }

  /**
   * Client.GenerateText. `calls` is how many SDK calls were made and
   * `delays` the waits started, in order; a wait the context interrupts is
   * the last one and ends the call with the context's error.
   */
  method GenerateText(attempts: nat -> Attempt, cancel: Cancel)
    returns (res: Result<string>, calls: nat, delays: seq<nat>)
    ensures Outcome(res, calls, delays) == Run(attempts, Classify, cancel, 0)
  {
    res, calls, delays := RetryLoop(attempts, cancel, Classify);
  }

  /** The loop of GenerateText, for the classifier `classify`. */
  method RetryLoop(attempts: nat -> Attempt, cancel: Cancel, classify: string -> ErrorClass)
    returns (res: Result<string>, calls: nat, delays: seq<nat>)
    ensures Outcome(res, calls, delays) == Run(attempts, classify, cancel, 0)
  {
    var lastErr := "";
    var isServiceUnavailable := false;
    var isRateLimit := false;
    delays := [];
    calls := 0;
    var attempt := 0;
    var stopped: Option<Result<string>> := None;
    while attempt < MaxRetries && stopped.None?
      invariant attempt <= MaxRetries
      invariant stopped.Some? ==> Outcome(stopped.value, calls, delays) == Run(attempts, classify, cancel, 0)
      invariant stopped.None? ==> calls == attempt
      invariant stopped.None? ==> delays == Delays(attempts, classify, if attempt == 0 then 0 else attempt - 1)
      invariant stopped.None? && 0 < attempt ==>
                  Retries(attempts(attempt - 1), classify) && lastErr == attempts(attempt - 1).error
                  && isServiceUnavailable == (classify(lastErr) == ServiceUnavailable)
                  && isRateLimit == (classify(lastErr) == RateLimit)
      invariant stopped.None? ==> Run(attempts, classify, cancel, 0) == Pending(attempts, classify, cancel, attempt)
      decreases MaxRetries - attempt, if stopped.None? then 1 else 0
    {
      var halt: Option<Result<string>> := None;
      if attempt > 0 {
        var delay := Backoff(attempt, isServiceUnavailable, isRateLimit, classify(lastErr));
        DelaysStep(attempts, classify, attempt);
        delays := delays + [delay];
        if Interrupts(cancel, attempt - 1) {
          halt := Some(Err(ContextCanceled));
        }
      }
      if halt.None? {
        var result := attempts(attempt);
        calls := attempt + 1;
        halt, isServiceUnavailable, isRateLimit := HandleResult(result, classify);
        PendingStep(attempts, classify, cancel, attempt);
        if halt.None? {
          lastErr := result.error;
          attempt := attempt + 1;
        }
      }
      stopped := halt;
    }
    res := if stopped.Some? then stopped.value else Err("max retries exceeded: " + lastErr);
  }

  /** The waits grow by the pause that follows a retryable failure. */
  lemma DelaysStep(attempts: nat -> Attempt, classify: string -> ErrorClass, k: nat)
    requires 0 < k && attempts(k - 1).CallFailed?
    ensures Delays(attempts, classify, k) == Delays(attempts, classify, k - 1) + [RetryDelay(k, classify(attempts(k - 1).error))]
  {
  }

  /**
   * At the head of the loop, when the wait before attempt `k` ran out: a
   * retryable failure of attempt `k` leaves the outcome to the next head of
   * the loop, any other result of it is final.
   */
  lemma PendingStep(attempts: nat -> Attempt, classify: string -> ErrorClass, cancel: Cancel, k: nat)
    requires k < MaxRetries && !(k > 0 && Interrupts(cancel, k - 1))
    ensures Retries(attempts(k), classify) ==> Pending(attempts, classify, cancel, k) == Pending(attempts, classify, cancel, k + 1)
    ensures !Retries(attempts(k), classify) ==>
              Pending(attempts, classify, cancel, k) == Outcome(Final(attempts(k), classify), k + 1, Delays(attempts, classify, k))
  {
  }

  /**
   * The pause before attempt `attempt`, chosen by the two flags the previous
   * failure (of class `previous`) left behind.
   */
  method Backoff(attempt: nat, isServiceUnavailable: bool, isRateLimit: bool, ghost previous: ErrorClass)
    returns (delay: nat)
    requires isServiceUnavailable == (previous == ServiceUnavailable)
    requires isRateLimit == (previous == RateLimit)
    ensures delay == RetryDelay(attempt, previous)
  {
    if isServiceUnavailable {
      delay := ServiceUnavailableDelay;
    } else if isRateLimit {
      delay := RateLimitDelay;
    } else {
      delay := BaseDelay * attempt;
      if delay > MaxBackoff {
        delay := MaxBackoff;
      }
    }
  }

  /**
   * What the loop does with the result of one call, checking the error's
   * class in GenerateText's order: `stop` is what it returns at once, if
   * anything; otherwise the call is retried and the two flags say which long
   * pause comes first.
   */
  method HandleResult(result: Attempt, classify: string -> ErrorClass)
    returns (stop: Option<Result<string>>, isServiceUnavailable: bool, isRateLimit: bool)
    ensures stop.None? <==> Retries(result, classify)
    ensures stop.Some? ==> stop.value == Final(result, classify)
    ensures stop.None? ==> isServiceUnavailable == (classify(result.error) == ServiceUnavailable)
                           && isRateLimit == (classify(result.error) == RateLimit)
  {
    isServiceUnavailable, isRateLimit := false, false;
    match result {
      case Generated(text) =>
        return Some(Ok(text)), false, false;
      case TextFailed(e) =>
        return Some(Err("get text from result: " + e)), false, false;
      case CallFailed(e) =>
        var kind := classify(e);
        if kind == RpdQuota {
          return Some(Err("gemini API RPD quota exceeded (daily limit reached): " + e)), false, false;
        }
        if kind == RateLimit {
          return None, false, true;
        }
        if kind == ServiceUnavailable {
          return None, true, false;
        }
        if kind == Temporary {
          return None, false, false;
        }
        if kind == QuotaExceeded {
          return Some(Err("gemini API quota exceeded: " + e)), false, false;
        }
        stop := Some(Err("generate content: " + e));
    }
  }

  // ------------------------------------------------------------ properties

  /** The i-th wait follows the failure of attempt i. */
  lemma {:induction false} DelaysAt(attempts: nat -> Attempt, classify: string -> ErrorClass, n: nat, i: nat)
    requires i < n && Retries(attempts(i), classify)
    ensures Delays(attempts, classify, n)[i] == RetryDelay(i + 1, classify(attempts(i).error))
  {
    if i < n - 1 {
      DelaysAt(attempts, classify, n - 1, i);
    }
  }

  /**
   * Every run from attempt `k` on makes between k + 1 and five calls and
   * starts one wait after each call but possibly the last.
   */
  lemma {:induction false} RunCounts(attempts: nat -> Attempt, classify: string -> ErrorClass, cancel: Cancel, k: nat)
    requires k < MaxRetries
    ensures var o := Run(attempts, classify, cancel, k);
            && k + 1 <= o.calls <= MaxRetries
            && (|o.delays| == o.calls || |o.delays| == o.calls - 1)
            && o.delays == Delays(attempts, classify, |o.delays|)
    decreases MaxRetries - k
  {
    if Retries(attempts(k), classify) && k + 1 < MaxRetries && !Interrupts(cancel, k) {
      RunCounts(attempts, classify, cancel, k + 1);
    }
  }

  /** Every call of a run but the last failed in a retryable way, and its wait ran out. */
  lemma {:induction false} RunRetried(attempts: nat -> Attempt, classify: string -> ErrorClass, cancel: Cancel, k: nat)
    requires k < MaxRetries
    ensures var o := Run(attempts, classify, cancel, k);
            forall j :: k <= j < o.calls - 1 ==> Retries(attempts(j), classify) && !Interrupts(cancel, j)
    decreases MaxRetries - k
  {
    if Retries(attempts(k), classify) && k + 1 < MaxRetries && !Interrupts(cancel, k) {
      RunRetried(attempts, classify, cancel, k + 1);
    }
  }

  /**
   * How a run ends: a wait after the last call was started exactly when that
   * call may be retried and was not the fifth, and then the context
   * interrupted it and its error is the result; otherwise the result is what
   * the last call decides.
   */
  lemma {:induction false} RunEnd(attempts: nat -> Attempt, classify: string -> ErrorClass, cancel: Cancel, k: nat)
    requires k < MaxRetries
    ensures var o := Run(attempts, classify, cancel, k);
            && 0 < o.calls
            && (|o.delays| == o.calls <==> o.calls < MaxRetries && Retries(attempts(o.calls - 1), classify))
            && (|o.delays| == o.calls ==> Interrupts(cancel, o.calls - 1) && o.res == Err(ContextCanceled))
            && (|o.delays| == o.calls - 1 ==> o.res == Final(attempts(o.calls - 1), classify))
    decreases MaxRetries - k
  {
    if Retries(attempts(k), classify) && k + 1 < MaxRetries && !Interrupts(cancel, k) {
      RunEnd(attempts, classify, cancel, k + 1);
    }
  }

  /** The "code: 429" test of the RPD check adds nothing to the "429" test. */
  lemma Code429Redundant(e: string)
    ensures Mentions(e, "code: 429") ==> Mentions(e, "429")
  {
    var l := Lower(e);
    ContainsOccurs(l, "code: 429");
    ContainsOccurs(l, "429");
    if Mentions(e, "code: 429") {
      var i :| 0 <= i <= |l| - 9 && OccursAt(l, "code: 429", i);
      assert l[i + 6..i + 9] == l[i..i + 9][6..];
      assert OccursAt(l, "429", i + 6);
    }
  }

  /**
   * Every error mentioning 429 is a quota problem: the daily quota, which is
   * never retried, or a per-minute rate limit, which waits a minute.
   */
  lemma Status429Classes(e: string)
    requires Mentions(e, "429")
    ensures Classify(e) == RpdQuota || Classify(e) == RateLimit
    ensures Classify(e) == RateLimit ==> RetryDelay(1, Classify(e)) == RateLimitDelay
  {
  }

  /** No wait is ever longer than five minutes, and at most four waits happen. */
  lemma RetryDelayBounds(attempt: nat, previous: ErrorClass)
    requires 1 <= attempt < MaxRetries
    ensures BaseDelay <= RetryDelay(attempt, previous) <= ServiceUnavailableDelay
  {
  }
}
