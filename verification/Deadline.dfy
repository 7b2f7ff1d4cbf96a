/** Deadlines: `set_timespec_nsec`, `cmp_timespec`, `diff_timespec`
    (MySQL Server 5.7/include/my_global.h:711-773) and `get_milliseconds`
    (MySQL Server 5.7/include/thr_cond.h:58-103), in the form with `struct timespec` and in
    the form with FILETIME. The clock reading, in units of 100 ns, is a parameter. */
module Deadline {
  import opened Bytes

  const U64: int := 0x1_0000_0000_0000_0000
  const I64: int := 0x8000_0000_0000_0000
  const INT_MAX32: int := 0x7FFF_FFFF
  const UINT_MAX: int := 0xFFFF_FFFF
  const INFINITE: int := 0xFFFF_FFFF
  const SECOND: int := 1_000_000_000

  type ulonglong = x: int | 0 <= x < U64 witness 0

  // ---------------------------------------------------------------- struct timespec

  datatype Timespec = Timespec(sec: int, nsec: int)

  /** The nanoseconds a timespec denotes. */
  function Nanos(t: Timespec): int {
    t.sec * SECOND + t.nsec
  }

  predicate Normal(t: Timespec) {
    0 <= t.nsec < SECOND
  }

  /** `narrow` says that `time_t` has fewer than eight bytes, in which case the seconds are capped. */
  method SetTimespecNsec(clock: ulonglong, nsec: ulonglong, narrow: bool) returns (t: Timespec)
    ensures Normal(t) && t.sec >= 0
    ensures Nanos(t) == 100 * clock + nsec <==> Representable(clock, nsec, narrow)
    ensures Nanos(t) <= 100 * clock + nsec
    ensures var total := 100 * clock + nsec - if clock + nsec / 100 < U64 then 0 else 100 * U64;
            t.nsec == total % SECOND && t.sec == if narrow then Min(total / SECOND, INT_MAX32) else total / SECOND
  {
    var now := (clock + nsec / 100) % U64;
    var sec := now / 10_000_000;
    if narrow && sec > INT_MAX32 {
      sec := INT_MAX32;
    }
    t := Timespec(sec, now % 10_000_000 * 100 + nsec % 100);
  }

  /** The deadline neither overflows 64 bits nor meets the cap. */
  predicate Representable(clock: ulonglong, nsec: ulonglong, narrow: bool) {
    && clock + nsec / 100 < U64
    && (narrow ==> (clock + nsec / 100) / 10_000_000 <= INT_MAX32)
  }

  /** `set_timespec` multiplies in 64 bits. */
  method SetTimespec(clock: ulonglong, sec: ulonglong, narrow: bool) returns (t: Timespec)
    ensures Normal(t) && t.sec >= 0
    ensures Nanos(t) == 100 * clock + sec * SECOND <==> sec * SECOND < U64 && Representable(clock, sec * SECOND, narrow)
  {
    t := SetTimespecNsec(clock, sec * SECOND % U64, narrow);
  }

  function CmpTimespec(a: Timespec, b: Timespec): int {
    if a.sec > b.sec || (a.sec == b.sec && a.nsec > b.nsec) then 1
    else if a.sec < b.sec || (a.sec == b.sec && a.nsec < b.nsec) then -1
    else 0
  }

  /** The comparison orders deadlines as the nanoseconds they denote. */
  lemma CmpIsOrder(a: Timespec, b: Timespec)
    requires Normal(a) && Normal(b)
    ensures CmpTimespec(a, b) == 1 <==> Nanos(a) > Nanos(b)
    ensures CmpTimespec(a, b) == -1 <==> Nanos(a) < Nanos(b)
    ensures CmpTimespec(a, b) == 0 <==> a == b
    ensures CmpTimespec(a, b) == -CmpTimespec(b, a)
  {
  }

  lemma CmpTransitive(a: Timespec, b: Timespec, c: Timespec)
    requires Normal(a) && Normal(b) && Normal(c)
    requires CmpTimespec(a, b) >= 0 && CmpTimespec(b, c) >= 0
    ensures CmpTimespec(a, c) >= 0
  {
    CmpIsOrder(a, b);
    CmpIsOrder(b, c);
    CmpIsOrder(a, c);
  }

  /** The difference is computed in unsigned arithmetic. */
  function DiffTimespec(a: Timespec, b: Timespec): ulonglong {
    ((a.sec - b.sec) * SECOND + a.nsec - b.nsec) % U64
  }

  /** It is the difference in nanoseconds exactly when that is not negative and fits, and always
      up to a multiple of 2 to the 64. */
  lemma DiffExact(a: Timespec, b: Timespec)
    ensures (DiffTimespec(a, b) - (Nanos(a) - Nanos(b))) % U64 == 0
    ensures DiffTimespec(a, b) == Nanos(a) - Nanos(b) <==> 0 <= Nanos(a) - Nanos(b) < U64
    ensures Normal(a) && Normal(b) && CmpTimespec(a, b) >= 0 && Nanos(a) - Nanos(b) < U64 ==>
              DiffTimespec(a, b) == Nanos(a) - Nanos(b)
  {
    assert (a.sec - b.sec) * SECOND + a.nsec - b.nsec == Nanos(a) - Nanos(b);
  }

  /** The timeout in the form with `struct timespec`. */
  method GetMilliseconds(t: Timespec, clock: ulonglong) returns (r: int)
    requires Normal(t) && t.sec >= 0
    ensures 0 <= r <= UINT_MAX
    ensures var left := Nanos(t) - 100 * clock;
            t.sec * 1000 + 999 < U64 && 0 <= left && left / 1_000_000 < UINT_MAX ==>
              -1_000_000 < r * 1_000_000 - left < 1_000_000
    ensures Nanos(t) - 100 * clock < -1_000_000 && t.sec * 1000 + 999 < U64 ==> r == 0
    ensures var ms := Nanos(t) / 1_000_000 - clock / 10_000;
            t.sec * 1000 + 999 < U64 ==> r == if ms < 0 then 0 else ms % 0x1_0000_0000
  {
    var future := (t.sec * 1000 + t.nsec / 1_000_000) % U64;
    var now := clock / 10_000;
    if future < now {
      return 0;
    }
    assert t.sec * 1000 + 999 < U64 ==> future == Nanos(t) / 1_000_000;
    assert now == 100 * clock / 1_000_000;
    r := (future - now) % 0x1_0000_0000;
  }

  // ---------------------------------------------------------------- FILETIME

  datatype FileDeadline = FileDeadline(tv: int, maxMsec: int)

  /** The clock of this form is a signed 64-bit count. */
  type filetime = x: int | 0 <= x < I64 witness 0

  /** Division of C: toward zero. */
  function Quotient(a: int, b: nat): int
    requires b > 0
  {
    if a >= 0 then a / b else -((-a) / b)
  }

  /** Two's complement wrap of a signed 64-bit sum. */
  function Wrap64(x: int): int {
    (x + I64) % U64 - I64
  }

  function SetFileDeadline(clock: filetime, nsec: ulonglong): FileDeadline {
    FileDeadline(Wrap64(clock + nsec / 100), Min(nsec / 1_000_000, INT_MAX32))
  }

  /** The timeout in the form with FILETIME; no deadline means to wait for ever. */
  method GetMillisecondsFile(deadline: Option<FileDeadline>, clock: filetime) returns (r: int)
    ensures deadline == None ==> r == INFINITE
    ensures deadline.Some? && deadline.value.maxMsec >= 0 ==> r == Timeout(deadline.value, clock)
  {
    if deadline == None {
      return INFINITE;
    }
    var d := deadline.value;
    var millis := Quotient(Wrap64(d.tv - clock), 10_000);
    if millis < 0 {
      return 0;
    }
    if millis > d.maxMsec {
      millis := d.maxMsec;
    }
    if millis > UINT_MAX {
      millis := UINT_MAX;
    }
    r := millis;
  }

  /** The remaining time in milliseconds between 0 and the bounds. */
  function Timeout(d: FileDeadline, clock: filetime): int {
    var left := Quotient(Wrap64(d.tv - clock), 10_000);
    if left < 0 then 0 else Min(Min(left, d.maxMsec), UINT_MAX)
  }

  /** Whatever the clock does after the deadline was set, forwards or backwards, the timeout
      stays between 0 and the one asked for (capped at INT_MAX32); it equals that one while
      the clock has not moved; the last clamp is never the one that acts; and a later clock
      never gives a longer timeout. */
  lemma TimeoutBounds(start: filetime, nsec: ulonglong, clock: filetime, later: filetime)
    requires start + nsec / 100 < I64 && clock <= later
    ensures var d, bound := SetFileDeadline(start, nsec), Min(nsec / 1_000_000, INT_MAX32);
            && d.maxMsec == bound
            && 0 <= Timeout(d, clock) <= bound < UINT_MAX
            && Timeout(d, start) == bound
            && Timeout(d, later) <= Timeout(d, clock)
  {
    var d := SetFileDeadline(start, nsec);
    assert d.tv == start + nsec / 100;
    assert Wrap64(d.tv - clock) == d.tv - clock && Wrap64(d.tv - later) == d.tv - later;
    assert Wrap64(d.tv - start) == nsec / 100;
    assert nsec / 100 / 10_000 == nsec / 1_000_000;
  }

  /** The timeout counts down: until the deadline it is the time left in whole milliseconds, no
      more than the request and INT_MAX32; at the deadline and after it, it is 0. */
  lemma TimeoutExact(start: filetime, nsec: ulonglong, clock: filetime)
    requires start + nsec / 100 < I64
    ensures var t, left := Timeout(SetFileDeadline(start, nsec), clock), start + nsec / 100 - clock;
            && (left <= 0 ==> t == 0)
            && (left > 0 ==> t == Min(left / 10_000, Min(nsec / 1_000_000, INT_MAX32)))
            && (left > 0 && clock >= start && left / 10_000 <= INT_MAX32 ==> 10_000 * t <= left < 10_000 * (t + 1))
  {
    var d := SetFileDeadline(start, nsec);
    assert d.tv == start + nsec / 100;
    assert Wrap64(d.tv - clock) == d.tv - clock;
    assert nsec / 100 / 10_000 == nsec / 1_000_000;
  }

  /** The bounds hold even if the deadline itself wrapped. */
  lemma TimeoutNeverExceedsRequest(start: filetime, nsec: ulonglong, clock: filetime)
    ensures 0 <= Timeout(SetFileDeadline(start, nsec), clock) <= Min(nsec / 1_000_000, INT_MAX32) < UINT_MAX
  {
  }
}
