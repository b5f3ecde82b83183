/** `retryOperation`: run a fallible asynchronous operation up to
    `maxRetries` times, waiting `baseDelay * 2^attempt` ms after each failed
    attempt that is not the last, and rethrowing the last error.

    The operation is an oracle: `outcomes[i]` is how its i-th call settles.
    The waits are not taken; the method returns the delays it would have
    requested, in order, together with the number of calls it made. */
module Retry {
  import opened Base

  /** How one call of the operation settles. */
  datatype Attempt<T, E> = Resolved(value: T) | Rejected(error: E)

  /** How `retryOperation` settles: the value it returns, or what it throws.
      `Thrown(None)` is the `undefined` thrown when no attempt ever ran, so
      `lastError` was never assigned. */
  datatype Settled<T, E> = Returned(value: T) | Thrown(error: Option<E>)

  /** The zero-based index of the first resolved call among the first `n`,
      or `n` when all of them reject. */
  function FirstResolved<T, E>(outcomes: seq<Attempt<T, E>>, n: nat): (k: nat)
    requires n <= |outcomes|
    ensures k <= n
    ensures forall i :: 0 <= i < k ==> outcomes[i].Rejected?
    ensures k < n ==> outcomes[k].Resolved?
  {
    var resolved := seq(n, i requires 0 <= i < n && n <= |outcomes| => outcomes[i].Resolved?);
    assert forall i :: 0 <= i < n ==> resolved[i] == outcomes[i].Resolved?;
    FirstIndex(resolved)
  }

  /** The first `m` waits of the exponential backoff: `base * 2^i` after
      failed attempt `i`. */
  function Backoff(base: int, m: nat): (r: seq<int>)
    ensures |r| == m
    ensures forall i :: 0 <= i < m ==> r[i] == base * Pow2(i)
  {
    seq(m, i requires 0 <= i < m => base * Pow2(i))
  }

  function Sum(s: seq<int>): int
  {
    if s == [] then 0 else Sum(s[..|s| - 1]) + s[|s| - 1]
  }

  /** The waits of `m` backoff steps add up to `base * (2^m - 1)`. */
  lemma {:induction false} BackoffTotal(base: int, m: nat)
    ensures Sum(Backoff(base, m)) == base * (Pow2(m) - 1)
  {
    if m > 0 {
      var r := Backoff(base, m);
      assert r[..m - 1] == Backoff(base, m - 1);
      BackoffTotal(base, m - 1);
      assert Pow2(m) == 2 * Pow2(m - 1);
    }
  }

  /** With k the index of the first resolved call among the first
      `maxRetries` (`maxRetries` when none resolves):
      - the operation is called `min(k + 1, maxRetries)` times, never when
        `maxRetries <= 0`;
      - if some call resolves, its value is returned after the waits of the
        k failures before it;
      - otherwise the last call's error is thrown (`undefined` when there was
        no call), after a wait following every failure but the last, which
        add up to `baseDelay * (2^(maxRetries-1) - 1)`. */
  method RetryOperation<T, E>(outcomes: seq<Attempt<T, E>>, maxRetries: int := 3, baseDelay: int := 1000)
    returns (result: Settled<T, E>, calls: nat, delays: seq<int>)
    requires maxRetries <= |outcomes|
    ensures var n := Max(maxRetries, 0);
            var k := FirstResolved(outcomes, n);
            && calls == (if k < n then k + 1 else n)
            && (k < n ==> result == Returned(outcomes[k].value) && delays == Backoff(baseDelay, k))
            && (k == n ==> result == Thrown(if n > 0 then Some(outcomes[n - 1].error) else None)
                           && delays == Backoff(baseDelay, Max(n - 1, 0)))
    ensures maxRetries > 0 && result.Thrown? ==> Sum(delays) == baseDelay * (Pow2(maxRetries - 1) - 1)
  {
    ghost var n := Max(maxRetries, 0);
    ghost var k := FirstResolved(outcomes, n);
    var lastError: Option<E> := None;
    calls, delays := 0, [];
    var attempt := 0;
    while attempt < maxRetries
      invariant 0 <= attempt <= n && attempt <= k
      invariant calls == attempt
      invariant attempt == 0 ==> lastError == None
      invariant attempt > 0 ==> lastError == Some(outcomes[attempt - 1].error)
      invariant attempt < n ==> delays == Backoff(baseDelay, attempt)
      invariant attempt == n ==> delays == Backoff(baseDelay, Max(n - 1, 0))
    {
      calls := calls + 1;
      var outcome := outcomes[attempt];
      if outcome.Resolved? {
        result := Returned(outcome.value);
        return;
      }
      lastError := Some(outcome.error);
      if attempt < maxRetries - 1 {
        delays := delays + [baseDelay * Pow2(attempt)];
      }
      attempt := attempt + 1;
    }
    result := Thrown(lastError);
    if maxRetries > 0 {
      BackoffTotal(baseDelay, maxRetries - 1);
    }
  }
}
