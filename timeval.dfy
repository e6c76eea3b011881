/**
 * timeval_diff: the difference of two struct timeval values, both as a
 * struct (seconds and microseconds) and as a count of microseconds. The
 * struct is normalised by borrowing whole seconds while the microsecond
 * field is negative. Both fields are C longs; the model uses unbounded
 * integers, which is exact for any pair of times a clock can produce.
 */
module Timeval {

  const MICROS_PER_SEC := 1000000

  datatype Timeval = Timeval(sec: int, usec: int)

  /** The instant a timeval denotes, in microseconds: 1000000LL * tv_sec + tv_usec. */
  function Micros(t: Timeval): int {
    MICROS_PER_SEC * t.sec + t.usec
  }

  /** A timeval as gettimeofday produces it: 0 <= tv_usec < 1000000. */
  predicate Normal(t: Timeval) {
    0 <= t.usec < MICROS_PER_SEC
  }

  /**
   * timeval_diff(difference, end_time, start_time): field-wise subtraction,
   * then the borrow loop. The loop keeps the denoted instant and stops
   * with a non-negative microsecond field; it runs only when the
   * subtraction left that field negative, and then it leaves it below one
   * second. The returned count is end minus start in microseconds, and for
   * two normal times the difference is the normal form of that count.
   */
  method TimevalDiff(endTime: Timeval, startTime: Timeval) returns (difference: Timeval, total: int)
    ensures total == Micros(endTime) - Micros(startTime)
    ensures Micros(difference) == total
    ensures difference.usec >= 0
    ensures endTime.usec < startTime.usec ==> difference.usec < MICROS_PER_SEC
    ensures endTime.usec >= startTime.usec ==>
              difference == Timeval(endTime.sec - startTime.sec, endTime.usec - startTime.usec)
    ensures Normal(endTime) && Normal(startTime) ==>
              Normal(difference) && difference == Timeval(total / MICROS_PER_SEC, total % MICROS_PER_SEC)
  {
    difference := Timeval(endTime.sec - startTime.sec, endTime.usec - startTime.usec);
    while difference.usec < 0
      invariant Micros(difference) == Micros(endTime) - Micros(startTime)
      invariant endTime.usec < startTime.usec ==> difference.usec < MICROS_PER_SEC
      invariant endTime.usec >= startTime.usec ==>
                  difference == Timeval(endTime.sec - startTime.sec, endTime.usec - startTime.usec)
      decreases -difference.usec
    {
      difference := difference.(usec := difference.usec + MICROS_PER_SEC);
      difference := difference.(sec := difference.sec - 1);
    }
    total := MICROS_PER_SEC * difference.sec + difference.usec;
  }
}
