// Shared vocabulary: optional values, results, the service's error kinds and
// the clock units every component uses.

module Prelude {

  datatype Option<+T> = None | Some(value: T)

  /** The kinds of `AppError` a caller can tell apart; messages are dropped. */
  datatype AppError = NotFound | Conflict | InvalidToken | Validation | Forbidden | AccessDenied | Database | Internal

  datatype Result<+T> = Ok(value: T) | Err(error: AppError)

  /** The clock counts microseconds; token claims count whole seconds. */
  const SECOND: nat := 1_000_000
  const MINUTE: nat := 60 * SECOND
  const DAY: nat := 86400 * SECOND

  /** `(now + ttl).timestamp()`: the claim is truncated to whole seconds. */
  function ClaimSeconds(now: nat, ttlSeconds: nat): (seconds: nat)
    ensures seconds * SECOND <= now + ttlSeconds * SECOND < (seconds + 1) * SECOND
  {
    (now + ttlSeconds * SECOND) / SECOND
  }

  predicate OccursAt(s: string, word: string, i: nat) {
    i + |word| <= |s| && s[i..i + |word|] == word
  }

  predicate Contains(s: string, word: string) {
    exists i :: 0 <= i <= |s| && OccursAt(s, word, i)
  }
}
