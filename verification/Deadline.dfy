/**
  The absolute deadline of a timed take, baseif.cpp:108-113.  The integer types are those of the
  C code, so each intermediate value is proved to fit; nanoseconds before the final remainder even
  stay below 2 * 10^9.
*/
module Deadline {
  newtype int32 = x: int | -0x8000_0000 <= x < 0x8000_0000
  newtype long = x: int | -0x8000_0000_0000_0000 <= x < 0x8000_0000_0000_0000
  newtype nanos = x: int | 0 <= x < 2_000_000_000

  /** Room for the largest `ms` above the current time in a time_t. */
  const MAX_NOW: int := 0x8000_0000_0000_0000 - 2_147_485

  /** (sec, nsec) is a normalised timespec exactly `ms` milliseconds after the time of day. */
  predicate IsDeadline(tvSec: int, tvUsec: int, ms: int, sec: int, nsec: int)
  {
    && 0 <= nsec < 1_000_000_000
    && sec * 1_000_000_000 + nsec == tvSec * 1_000_000_000 + tvUsec * 1000 + ms * 1_000_000
  }

  method Compute(tvSec: long, tvUsec: long, ms: int32) returns (sec: long, nsec: nanos)
    requires 0 <= tvSec as int < MAX_NOW && 0 <= tvUsec < 1_000_000 && ms >= 0
    ensures IsDeadline(tvSec as int, tvUsec as int, ms as int, sec as int, nsec as int)
  {
    nsec := (tvUsec * 1000) as nanos + ((ms % 1000) * 1_000_000) as nanos;
    sec := tvSec + (ms / 1000) as long + (nsec / 1_000_000_000) as long;
    nsec := nsec % 1_000_000_000;
  }

  /** The only deadline there is: all nanoseconds, cut into seconds and a rest. */
  function Cut(tvSec: int, tvUsec: int, ms: int): (int, int) {
    var total := tvSec * 1_000_000_000 + tvUsec * 1000 + ms * 1_000_000;
    (total / 1_000_000_000, total % 1_000_000_000)
  }

  lemma {:induction false} OneDeadline(tvSec: int, tvUsec: int, ms: int, sec: int, nsec: int)
    ensures IsDeadline(tvSec, tvUsec, ms, sec, nsec) <==> (sec, nsec) == Cut(tvSec, tvUsec, ms)
  {
    OneCut(tvSec * 1_000_000_000 + tvUsec * 1000 + ms * 1_000_000, sec, nsec);
  }

  lemma {:induction false} OneCut(total: int, sec: int, nsec: int)
    ensures 0 <= nsec < 1_000_000_000 && sec * 1_000_000_000 + nsec == total
      <==> sec == total / 1_000_000_000 && nsec == total % 1_000_000_000
  {
    var q, r := total / 1_000_000_000, total % 1_000_000_000;
    assert q * 1_000_000_000 + r == total && 0 <= r < 1_000_000_000;
    if 0 <= nsec < 1_000_000_000 && sec * 1_000_000_000 + nsec == total {
      assert (sec - q) * 1_000_000_000 == r - nsec;
    }
  }

  /** A longer wait has a later deadline, and the other way round. */
  lemma {:induction false} Monotone(tvSec: int, tvUsec: int, ms: int, ms': int)
    ensures var d, d' := Cut(tvSec, tvUsec, ms), Cut(tvSec, tvUsec, ms');
      ms < ms' <==> d.0 < d'.0 || (d.0 == d'.0 && d.1 < d'.1)
  {
    var d, d' := Cut(tvSec, tvUsec, ms), Cut(tvSec, tvUsec, ms');
    assert (d'.0 - d.0) * 1_000_000_000 + d'.1 - d.1 == (ms' - ms) * 1_000_000;
  }
}
