/** The deadline arithmetic of posix/threadpool.cpp, in C's truncating division.  Seconds and
    milliseconds are unbounded; the width of `long` matters only where a cast wraps. */
module Deadlines {

  const MILLI: int := 1_000_000
  const SECOND: int := 1_000_000_000

  function Div(a: int, b: int): int
    requires b > 0
  {
    if a >= 0 then a / b else -(-a / b)
  }

  function Rem(a: int, b: int): int
    requires b > 0
  {
    a - b * Div(a, b)
  }

  /** The conversion of an unsigned 64-bit number to time_t. */
  function Signed(n: nat): int
    requires n < 0x1_0000_0000_0000_0000
  {
    if n < 0x8000_0000_0000_0000 then n else n - 0x1_0000_0000_0000_0000
  }

  datatype Timespec = Timespec(sec: int, nsec: int)

  function Nanos(t: Timespec): int { t.sec * SECOND + t.nsec }

  /** What pthread_cond_timedwait and pthread_mutex_timedlock accept; others are EINVAL. */
  predicate Normalised(t: Timespec) { 0 <= t.nsec < SECOND }

  /** Synchronized::wait(long): the deadline is off by less than the millisecond that the
      clock reading is cut to, for every timeout.  It is valid exactly if the milliseconds
      of the reading make up for those of a negative timeout; otherwise the wait throws. */
  method WaitDeadline(now: Timespec, timeout: int) returns (ts: Timespec)
    requires Normalised(now)
    ensures Nanos(now) + timeout * MILLI - MILLI < Nanos(ts) <= Nanos(now) + timeout * MILLI
    ensures Normalised(ts) <==> now.nsec / MILLI + Rem(timeout, 1000) >= 0
    ensures timeout >= 0 ==> Normalised(ts)
  {
    ts := now;
    ts := ts.(sec := ts.sec + Div(timeout, 1000));
    var millis := Div(ts.nsec, MILLI) + Rem(timeout, 1000);
    assert -1000 < millis < 2000;
    if millis >= 1000 {
      ts := ts.(sec := ts.sec + 1);
    }
    ts := ts.(nsec := Rem(millis, 1000) * MILLI);
  }

  /** Synchronized::lock(unsigned long) divides the timeout after converting it to time_t:
      always valid, the one meant exactly if the timeout fits that type, and otherwise less
      than a second ahead. */
  method LockDeadline(now: Timespec, timeout: nat) returns (ts: Timespec)
    requires Normalised(now) && timeout < 0x1_0000_0000_0000_0000
    ensures Normalised(ts)
    ensures Nanos(now) + timeout * MILLI - MILLI < Nanos(ts) <= Nanos(now) + timeout * MILLI
            <==> timeout < 0x8000_0000_0000_0000
    ensures timeout >= 0x8000_0000_0000_0000 ==> Nanos(ts) < Nanos(now) + SECOND
  {
    ts := now;
    ts := ts.(sec := ts.sec + Div(Signed(timeout), 1000));
    var millis := Div(ts.nsec, MILLI) + timeout % 1000;
    if millis >= 1000 {
      ts := ts.(sec := ts.sec + 1);
    }
    ts := ts.(nsec := Rem(millis, 1000) * MILLI);
  }


  /** Thread::nsleep: `interrupts` are the times after which signals cut the successive
      nanosleep calls short.  Whatever they are, the thread sleeps as long as asked, or, if
      the interval is not valid, not at all. */
  method NSleep(secs: int, nanos: int, interrupts: seq<nat>) returns (interval: Timespec, slept: nat)
    ensures Nanos(interval) == secs * SECOND + nanos
    ensures Normalised(interval) <==> Rem(nanos, SECOND) >= 0
    ensures slept == if Normalised(interval) && Nanos(interval) >= 0 then Nanos(interval) else 0
  {
    interval := Timespec(secs + Div(nanos, SECOND), Rem(nanos, SECOND));
    slept := 0;
    if !Normalised(interval) || interval.sec < 0 {
      return;
    }
    var left, i := Nanos(interval), 0;
    while i < |interrupts| && interrupts[i] < left
      invariant 0 <= left && slept + left == Nanos(interval) && i <= |interrupts|
    {
      slept, left, i := slept + interrupts[i], left - interrupts[i], i + 1;
    }
    slept := slept + left;
  }

  /** Thread::sleep(millis, nanos): exact for all non-negative arguments, and for others
      exactly if what nsleep makes of them is a valid interval. */
  method Sleep(millis: int, nanos: int, interrupts: seq<nat>) returns (slept: nat)
    ensures slept == millis * MILLI + nanos
            <==> millis * MILLI + nanos == 0
                 || (millis * MILLI + nanos > 0 && Rem(Rem(millis, 1000) * MILLI + nanos, SECOND) >= 0)
    ensures millis >= 0 && nanos >= 0 ==> slept == millis * MILLI + nanos
  {
    var interval;
    interval, slept := NSleep(Div(millis, 1000), Rem(millis, 1000) * MILLI + nanos, interrupts);
    assert Nanos(interval) == millis * MILLI + nanos;
  }
}
