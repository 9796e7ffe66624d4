/** The retry budget of one delivery and the time it waits between attempts. */
module Retry {
  const RETRY_BASE_SECONDS: real := 1.0
  const RETRY_JITTER_RATIO: real := 0.25

  function Doubled(n: nat): (r: real)
    ensures r >= 1.0
  {
    if n == 0 then 1.0 else 2.0 * Doubled(n - 1)
  }

  /** The delay after the given attempt, before jitter. */
  function Delay(attempt: nat): real
    requires attempt >= 1
  {
    RETRY_BASE_SECONDS * Doubled(attempt - 1)
  }

  /** `uniform(0, delay * ratio)` draws from this range. */
  predicate IsBackoff(attempt: nat, wait: real)
    requires attempt >= 1
  {
    Delay(attempt) <= wait <= Delay(attempt) + Delay(attempt) * RETRY_JITTER_RATIO
  }

  /** `_backoff_seconds`, with the random draw as a fraction of its range. */
  method BackoffSeconds(attempt: nat, draw: real) returns (wait: real)
    requires attempt >= 1 && 0.0 <= draw <= 1.0
    ensures IsBackoff(attempt, wait)
    ensures draw == 0.0 ==> wait == Delay(attempt)
    ensures draw == 1.0 ==> wait == Delay(attempt) * 1.25
  {
    var delay := Delay(attempt);
    var top := delay * RETRY_JITTER_RATIO;
    Scaled(draw, top);
    wait := delay + draw * top;
  }

  lemma Scaled(draw: real, top: real)
    requires 0.0 <= draw <= 1.0 && top >= 0.0
    ensures 0.0 <= draw * top <= top
    ensures draw == 1.0 ==> draw * top == top
  {
  }

  /** One delivery, from its first attempt to its last. */
  datatype Chain = Chain(runs: nat, waited: real, applied: bool)

  /**
    A delivery nobody kills: the handler runs, a failure waits and retries, and the attempt that
    reaches the budget is the last.  With `fails(a)` telling whether attempt `a` fails, the handler
    runs up to its first success but never beyond `max(1, maxAttempts)` times; and a chain that runs
    out has waited between `2^(M-1) - 1` and `1.25 * (2^(M-1) - 1)` seconds.
  */
  method Deliver(maxAttempts: int, fails: nat -> bool, draws: nat -> real) returns (chain: Chain)
    requires forall a :: 0.0 <= draws(a) <= 1.0
    ensures var budget := if maxAttempts < 1 then 1 else maxAttempts;
            && 1 <= chain.runs <= budget
            && (forall a :: 1 <= a < chain.runs ==> fails(a))
            && (chain.applied <==> !fails(chain.runs))
            && (!chain.applied ==> chain.runs == budget)
            && var pause := Doubled(chain.runs - 1) - 1.0;
               pause <= chain.waited <= pause + pause * RETRY_JITTER_RATIO
  {
    var attempt := 1;
    var waited := 0.0;
    while fails(attempt) && attempt < maxAttempts
      invariant 1 <= attempt <= (if maxAttempts < 1 then 1 else maxAttempts)
      invariant forall a :: 1 <= a < attempt ==> fails(a)
      invariant var pause := Doubled(attempt - 1) - 1.0;
                pause <= waited <= pause + pause * RETRY_JITTER_RATIO
      decreases maxAttempts - attempt
    {
      var wait := BackoffSeconds(attempt, draws(attempt));
      waited := waited + wait;
      attempt := attempt + 1;
    }
    chain := Chain(attempt, waited, !fails(attempt));
  }
}
