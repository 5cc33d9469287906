/** Durations: Go's nanoseconds and redis' milliseconds. */
module Timing {

  const MS := 1_000_000
  const DEFAULT_CALL_TIMEOUT := 60_000 * MS

  /** Integer division of Go: towards zero. */
  function GoDiv(a: int, b: int): int
    requires b > 0
  {
    if a >= 0 then a / b else -((-a) / b)
  }

  /** The expiry in milliseconds that the broker asks for. */
  function ExpiryMillis(timeout: int): int {
    var to := GoDiv(timeout, MS);
    if to == 0 then GoDiv(DEFAULT_CALL_TIMEOUT, MS) else to
  }

  /** The expiry is refused exactly for timeouts of minus one millisecond or less. */
  lemma ExpiryPositive(timeout: int)
    ensures ExpiryMillis(timeout) > 0 <==> timeout > -MS
    ensures -MS < timeout < MS ==> ExpiryMillis(timeout) == 60_000
    ensures timeout >= MS ==> ExpiryMillis(timeout) * MS <= timeout < (ExpiryMillis(timeout) + 1) * MS
  {
  }

  /** Redis is asked for px milliseconds: the timeout rounded down, or a minute for one of less than a millisecond. */
  predicate Grants(timeout: int, px: int) {
    && (-MS < timeout < MS ==> px == 60_000)
    && (timeout >= MS ==> px == timeout / MS)
    && (timeout <= -MS ==> px < 0)
  }

  lemma ExpiryGranted(timeout: int)
    ensures Grants(timeout, ExpiryMillis(timeout))
  {
    ExpiryPositive(timeout);
  }

  /** The timeout a client puts in a CALL, from the call's own and the client's default. */
  function SentTimeout(own: int, client: int): int { if own <= 0 then client else own }

  /** How long that client then waits before it gives the call up. */
  function ClientWait(timeout: int): int { if timeout <= 0 then DEFAULT_CALL_TIMEOUT else timeout }

  /** The client waits for the timeout of the call, or else for its own, or else for a minute. */
  lemma ClientWaits(own: int, client: int)
    ensures var w := ClientWait(SentTimeout(own, client));
      && (own > 0 ==> w == own)
      && (own <= 0 && client > 0 ==> w == client)
      && (own <= 0 && client <= 0 ==> w == 60_000_000_000)
  {
  }

  /**
   The client and the broker give a call the same time, to the millisecond, exactly when
   its timeout is a millisecond or more, or is not set: below a millisecond the broker
   takes it for unset, and from minus one millisecond down the broker refuses it.
   */
  lemma TimeoutsAgree(own: int, client: int)
    ensures var t := SentTimeout(own, client);
      ExpiryMillis(t) * MS <= ClientWait(t) < (ExpiryMillis(t) + 1) * MS <==> t >= MS || -MS < t <= 0
  {
    ExpiryPositive(SentTimeout(own, client));
  }
}
