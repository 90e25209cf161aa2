/** How long Do waits between attempts (internal/msapi/msapi.go). Durations are 64-bit nanoseconds and wrap. */
module Backoff {

  datatype Header = Missing | Unparsable | Seconds(n: int) | Date(untilThen: int)

  const SECOND := 1_000_000_000
  const BASE := 500_000_000
  const MAX_WAIT := 30 * SECOND
  const MAX_ATTEMPTS := 4
  const WORD := 0x1_0000_0000_0000_0000

  /** A product as int64 arithmetic leaves it. */
  function Wrapped(n: int): (r: int)
    ensures -WORD / 2 <= r < WORD / 2 && (r - n) % WORD == 0
  {
    var m := n % WORD;
    if m < WORD / 2 then m else m - WORD
  }

  function Clamp(d: int): int {
    var low := if d < BASE then BASE else d;
    if low > MAX_WAIT then MAX_WAIT else low
  }

  function Doubled(d: int, times: nat): int {
    if times == 0 then d else 2 * Doubled(d, times - 1)
  }

  /** The wait after attempt `attempt`, when the reply says nothing. */
  function Wait(attempt: nat): int
    requires 1 <= attempt
  {
    var d := Doubled(BASE, attempt - 1);
    if d > MAX_WAIT then MAX_WAIT else d
  }

  function RetryAfter(h: Header, fallback: int): int {
    match h
    case Missing => fallback
    case Unparsable => fallback
    case Seconds(n) => if n < 0 then fallback else Clamp(Wrapped(n * SECOND))
    case Date(untilThen) => Clamp(untilThen)
  }

  lemma {:induction false} DoublingGrows(times: nat)
    ensures Doubled(BASE, times) >= BASE
  {
    if times > 0 {
      DoublingGrows(times - 1);
    }
  }

  /** Whatever the service sends - zero, a date long past, a number that overflows - every wait is between half a second
      and half a minute, so a job is neither hammered through its attempts nor parked. */
  lemma EveryWaitIsBounded(h: Header, attempt: nat)
    requires 1 <= attempt
    ensures BASE <= RetryAfter(h, Wait(attempt)) <= MAX_WAIT
  {
    DoublingGrows(attempt - 1);
  }

  /** A number of seconds is honoured up to the clamp exactly if its product is a duration at all, or wraps to one that is
      at least the longest wait anyway. */
  lemma SecondsAreHonouredExactly(n: nat, fallback: int)
    ensures RetryAfter(Seconds(n), fallback) == Clamp(n * SECOND) <==>
      n * SECOND < WORD / 2 || Wrapped(n * SECOND) >= MAX_WAIT
  {
  }

  /** And when it is not, it is always waited for less than was asked. */
  lemma WrappingOnlyShortens(n: nat, fallback: int)
    ensures RetryAfter(Seconds(n), fallback) <= Clamp(n * SECOND)
  {
  }

  /** There are such numbers: this one is turned into the shortest wait, where thirty gives the longest. */
  lemma LongerCanBeShorter(fallback: int)
    ensures RetryAfter(Seconds(30), fallback) == MAX_WAIT
    ensures RetryAfter(Seconds(9_223_372_037), fallback) == BASE
  {
    assert Wrapped(9_223_372_037 * SECOND) == 9_223_372_037 * SECOND - WORD;
  }
}
