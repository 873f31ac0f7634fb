/** The retry shape shared by `login`, `user_info`, `get_all_tasks` and
    `verify_task`: on an exception, call again with `retry + 1` while
    `retry < limit`, otherwise give up and return `None`. */
module Retry {
  import opened Optional

  /** `login`, `user_info` and `get_all_tasks` retry while `retry < 7`. */
  const DataRetries: nat := 7

  /** `verify_task` retries while `retry < 20`. */
  const VerifyRetries: nat := 20

  /** What the server does with the k-th attempt (counting from 0): `None` when the
      attempt raised, `Some(v)` when it returned `v`. */
  type Attempts<T> = nat -> Option<T>

  /** The recursion as the source writes it, started with `retry`: the value
      returned and the number of attempts made up to that point. */
  function Retrying<T>(attempt: Attempts<T>, limit: nat, retry: nat): (Option<T>, nat)
    decreases limit - retry
  {
    if attempt(retry).Some? then (attempt(retry), retry + 1)
    else if retry < limit then Retrying(attempt, limit, retry + 1)
    else (None, retry + 1)
  }

  /** The recursion unrolled into a loop with an attempt counter. At most
      `limit + 1` attempts are made; the result is that of the last attempt, every
      earlier one having failed; `None` comes back only once all `limit + 1` have
      failed, and it is returned rather than raised. */
  method Attempt<T>(attempt: Attempts<T>, limit: nat) returns (r: Option<T>, attempts: nat)
    ensures 1 <= attempts <= limit + 1
    ensures r == attempt(attempts - 1)
    ensures forall k :: 0 <= k < attempts - 1 ==> attempt(k).None?
    ensures r.None? ==> attempts == limit + 1
    ensures (r, attempts) == Retrying(attempt, limit, 0)
  {
    attempts := 0;
    r := None;
    while attempts <= limit
      invariant attempts <= limit + 1
      invariant attempts > 0 ==> r == attempt(attempts - 1)
      invariant forall k :: 0 <= k < attempts ==> attempt(k).None?
      invariant Retrying(attempt, limit, 0) == Retrying(attempt, limit, attempts) || attempts == limit + 1
      invariant attempts == limit + 1 ==> Retrying(attempt, limit, 0) == (None, limit + 1)
      decreases limit + 1 - attempts
    {
      r := attempt(attempts);
      attempts := attempts + 1;
      if r.Some? {
        return;
      }
    }
  }

  /** Success on any allowed attempt is never lost: if some attempt up to the
      limit succeeds, the first such attempt's value is returned. */
  lemma {:induction false} FirstSuccessWins<T>(attempt: Attempts<T>, limit: nat, retry: nat, k: nat)
    requires retry <= k <= limit && attempt(k).Some?
    requires forall j :: retry <= j < k ==> attempt(j).None?
    ensures Retrying(attempt, limit, retry) == (attempt(k), k + 1)
    decreases k - retry
  {
    if retry < k {
      FirstSuccessWins(attempt, limit, retry + 1, k);
    }
  }

  /** When every attempt fails the call returns `None` after exactly `limit + 1` attempts. */
  lemma {:induction false} AllFailuresGiveNone<T>(attempt: Attempts<T>, limit: nat, retry: nat)
    requires retry <= limit
    requires forall j :: retry <= j <= limit ==> attempt(j).None?
    ensures Retrying(attempt, limit, retry) == (None, limit + 1)
    decreases limit - retry
  {
    if retry < limit {
      AllFailuresGiveNone(attempt, limit, retry + 1);
    }
  }
}
