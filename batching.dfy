/**
 * How the categorizer and the summarizer cut their input into requests
 * (internal/gemini/categorizer.go and internal/gemini/summarizer.go share
 * the same scheme): a configured batch size with a per-component default,
 * shrunk to the whole input when that fits in one request, and consecutive
 * slices of that size, the last one possibly shorter.
 */
module Batching {
  import opened Common

  /** The configured batch size, or the component's default when it is not positive. */
  function ConfiguredBatchSize(configured: int, default: nat): (r: int)
    ensures configured > 0 ==> r == configured
    ensures configured <= 0 ==> r == default
  {
    if configured <= 0 then default else configured
  }

  /** All articles go in one request when they fit, else requests of the configured size. */
  function EffectiveBatchSize(n: nat, size: nat): (r: nat)
    ensures r <= size && r <= n
    ensures n > 0 && size > 0 ==> r > 0
  {
    if n <= size then n else size
  }

  /** Index one past the last article of the batch starting at `start`. */
  function BatchEnd(n: nat, eff: nat, start: nat): (r: nat)
    requires start <= n
    ensures start <= r <= n && r - start <= eff
    ensures start < n && eff > 0 ==> start < r
  {
    if start + eff > n then n else start + eff
  }

  /** The number of requests the batch loop makes. */
  function BatchCount(n: nat, eff: nat): nat
    requires eff > 0
  {
    (n + eff - 1) / eff
  }

  /** Batch `b` covers [b * eff, BatchEnd(n, eff, b * eff)). */
  function BatchStart(eff: nat, b: nat): nat
  {
    b * eff
  }

  /**
   * The batches the loop visits are exactly the first BatchCount(n, eff)
   * multiples of eff: batch `b` starts inside the input iff b < BatchCount.
   */
  lemma BatchCountExact(n: nat, eff: nat, b: nat)
    requires eff > 0
    ensures BatchStart(eff, b) < n <==> b < BatchCount(n, eff)
  {
    var m := n + eff - 1;
    DivMod(m, eff);
    var c := m / eff;
    if b < c {
      MulMono(b + 1, c, eff);
      assert (b + 1) * eff == b * eff + eff;
    } else {
      MulMono(c, b, eff);
    }
  }

  lemma DivMod(a: nat, d: nat)
    requires d > 0
    ensures (a / d) * d + a % d == a && 0 <= a % d < d
  {
  }

  lemma MulMono(x: nat, y: nat, k: nat)
    requires x <= y
    ensures x * k <= y * k
  {
  }

  /** Every article falls in exactly one batch, the one its index divided by eff names. */
  lemma BatchOf(n: nat, eff: nat, j: nat)
    requires eff > 0 && j < n
    ensures BatchStart(eff, j / eff) <= j < BatchEnd(n, eff, BatchStart(eff, j / eff))
    ensures j / eff < BatchCount(n, eff)
  {
    var b := j / eff;
    assert b * eff + j % eff == j;
    BatchCountExact(n, eff, b);
  }

  /** When everything fits in one request, exactly one request is made. */
  lemma SingleBatch(n: nat, size: nat)
    requires 0 < n <= size
    ensures EffectiveBatchSize(n, size) == n
    ensures BatchCount(n, EffectiveBatchSize(n, size)) == 1
    ensures BatchEnd(n, n, 0) == n
  {
    assert (n + n - 1) / n == 1 by {
      assert n + n - 1 == 1 * n + (n - 1);
    }
  }

  /** Prepends the results of the batches already done to the outcome of the remaining batches. */
  function After<T>(done: seq<T>, rest: Result<seq<T>>): Result<seq<T>>
  {
    match rest
    case Ok(more) => Ok(done + more)
    case Err(e) => Err(e)
  }

  lemma AfterNothing<T>(rest: Result<seq<T>>)
    ensures After([], rest) == rest
  {
    if rest.Ok? {
      assert [] + rest.value == rest.value;
    }
  }

  lemma AfterAfter<T>(done: seq<T>, more: seq<T>, rest: Result<seq<T>>)
    ensures After(done, After(more, rest)) == After(done + more, rest)
  {
    if rest.Ok? {
      assert done + (more + rest.value) == done + more + rest.value;
    }
  }
}
