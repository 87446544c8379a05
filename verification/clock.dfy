/** The wall-clock arithmetic of task creation: reading the system time as a duration since
    the Unix epoch, and turning that duration into a u64 count of milliseconds with Rust's
    checked u64 arithmetic. */
module Clock {
  import opened Panics

  const U64_MAX := 0xFFFF_FFFF_FFFF_FFFF
  type U64 = x: int | 0 <= x <= U64_MAX
  type I64 = x: int | -0x8000_0000_0000_0000 <= x < 0x8000_0000_0000_0000

  const NANOS_PER_SEC := 1_000_000_000
  const NANOS_PER_MILLI := 1_000_000
  const MILLIS_PER_SEC := 1000

  /** The sub-second part of a time value. */
  type Nanos = n: int | 0 <= n < NANOS_PER_SEC

  /** A reading of the system clock: the instant `secs + nanos / 10^9` seconds after the
      Unix epoch (`secs` is negative for an instant before it). */
  datatype SystemTime = SystemTime(secs: I64, nanos: Nanos)

  /** A non-negative span of time: whole seconds and the sub-second nanoseconds. */
  datatype Duration = Duration(secs: U64, nanos: Nanos)

  /** Message given to the `expect` on the epoch subtraction; `expect` panics with this
      message, ": ", and the debug rendering of the error. */
  const TimeWentBackwards := "Time went backwards"
  /** The panic `expect` raises: the message, then the error, whose duration is not rendered. */
  const BeforeEpochPanic := TimeWentBackwards + ": SystemTimeError"
  const MulOverflow := "attempt to multiply with overflow"
  const AddOverflow := "attempt to add with overflow"

  /** The clock reading in nanoseconds relative to the epoch. */
  function TotalNanos(t: SystemTime): int {
    t.secs * NANOS_PER_SEC + t.nanos
  }

  /** `now.duration_since(UNIX_EPOCH).expect(...)`: the span from the epoch to `now`, or a
      panic when `now` lies before the epoch. */
  function SinceEpoch(now: SystemTime): (r: Result<Duration>)
    ensures r.Ok? <==> TotalNanos(now) >= 0
    ensures r.Panic? ==> TimeWentBackwards + ": " <= r.message
    ensures r.Ok? ==> r.value.secs * NANOS_PER_SEC + r.value.nanos == TotalNanos(now)
  {
    if now.secs < 0 then Panic(BeforeEpochPanic)
    else Ok(Duration(now.secs, now.nanos))
  }

  /** The exact number of whole milliseconds in `d`, before any u64 range check. */
  function MathMillis(d: Duration): int {
    d.secs * MILLIS_PER_SEC + d.nanos / NANOS_PER_MILLI
  }

  /** `as_secs() * 1000 + subsec_nanos() as u64 / 1_000_000` in checked u64 arithmetic:
      the whole milliseconds in `d`, split back as seconds and the millisecond remainder,
      or an overflow panic when they do not fit in a u64. */
  function Millis(d: Duration): (r: Result<U64>)
    ensures r.Ok? <==> MathMillis(d) <= U64_MAX
    ensures r.Ok? ==> r.value / MILLIS_PER_SEC == d.secs
    ensures r.Ok? ==> r.value % MILLIS_PER_SEC == d.nanos / NANOS_PER_MILLI
    ensures r.Panic? ==> r.message in {MulOverflow, AddOverflow}
  {
    var sub := d.nanos / NANOS_PER_MILLI;
    if d.secs * MILLIS_PER_SEC > U64_MAX then Panic(MulOverflow)
    else if d.secs * MILLIS_PER_SEC + sub > U64_MAX then Panic(AddOverflow)
    else
      SplitMillis(d.secs, sub);
      Ok(d.secs * MILLIS_PER_SEC + sub)
  }

  /** Whole seconds times 1000 plus a millisecond remainder splits back into the two. */
  lemma SplitMillis(secs: nat, sub: int)
    requires 0 <= sub < MILLIS_PER_SEC
    ensures (secs * MILLIS_PER_SEC + sub) / MILLIS_PER_SEC == secs
    ensures (secs * MILLIS_PER_SEC + sub) % MILLIS_PER_SEC == sub
  {
    var n := secs * MILLIS_PER_SEC + sub;
    assert n == MILLIS_PER_SEC * secs + sub;
  }
}
