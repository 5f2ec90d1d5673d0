/** Time arithmetic: when a delayed job becomes due. Instants are nanoseconds since the epoch. */
module Clock {

  const NANOS := 1_000_000_000
  const TWO63 := 0x8000_0000_0000_0000
  const TWO64 := 0x1_0000_0000_0000_0000

  /** 64-bit two's complement wrap-around. */
  function Wrap64(x: int): (r: int)
    ensures -TWO63 <= r < TWO63
    ensures -TWO63 <= x < TWO63 ==> r == x
  {
    (x + TWO63) % TWO64 - TWO63
  }

  /** Seconds since the epoch, rounded down. */
  function Unix(t: int): int {
    t / NANOS
  }

  /** epochAfterSeconds on the real clock: the duration is a 64-bit count of nanoseconds, and a
      fraction of a second is rounded up. */
  function EpochAfter(clock: int, seconds: int): int {
    var t := clock + Wrap64(seconds * NANOS);
    Unix(if t % NANOS > 0 then t + NANOS else t)
  }

  /** The requested instant. */
  function Requested(clock: int, seconds: int): int {
    clock + seconds * NANOS
  }

  /** The delay fits a 64-bit duration. */
  predicate Fits(seconds: int) {
    -TWO63 <= seconds * NANOS < TWO63
  }

  /** A score is on time for an instant: no clock reading before the instant makes it due, and
      it is due less than a second after the instant. */
  ghost predicate OnTime(score: int, instant: int) {
    && (forall reading: int :: Unix(reading) >= score ==> reading >= instant)
    && (forall reading: int :: reading >= instant + NANOS - 1 ==> Unix(reading) >= score)
  }

  /** The instant from which a score is due. */
  lemma DueFrom(score: int, reading: int)
    ensures Unix(reading) >= score <==> reading >= score * NANOS
  {
  }

  lemma RoundsUp(t: int)
    ensures var score := Unix(if t % NANOS > 0 then t + NANOS else t);
            t <= score * NANOS < t + NANOS
  {
  }

  /** Scheduling with a delay is on time exactly when the delay fits a 64-bit duration. */
  lemma NeverEarly(clock: int, seconds: int)
    ensures OnTime(EpochAfter(clock, seconds), Requested(clock, seconds)) <==> Fits(seconds)
  {
    var score, instant := EpochAfter(clock, seconds), Requested(clock, seconds);
    var t := clock + Wrap64(seconds * NANOS);
    RoundsUp(t);
    if Fits(seconds) {
      forall reading: int ensures Unix(reading) >= score ==> reading >= instant
                          ensures reading >= instant + NANOS - 1 ==> Unix(reading) >= score {
        DueFrom(score, reading);
      }
    } else {
      DueFrom(score, score * NANOS);
      DueFrom(score, instant + NANOS);
      WrapShifts(seconds * NANOS);
      assert Unix(score * NANOS) >= score;
    }
  }

  lemma WrapShifts(x: int)
    requires !(-TWO63 <= x < TWO63)
    ensures Wrap64(x) <= x - TWO64 || Wrap64(x) >= x + TWO64
  {
    var k := (x + TWO63) / TWO64;
    assert Wrap64(x) == x - k * TWO64;
  }
}
