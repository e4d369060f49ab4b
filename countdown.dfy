/** The mm:ss countdown display and the one-second decrement that the first
    work timer and the break timer both apply to it on every tick. */
module Countdown {

  /** Minutes and seconds as shown on screen ("%02d:%02d"). */
  datatype Display = Display(minutes: int, seconds: int)

  /** The number of seconds a display stands for. */
  function Total(d: Display): int
  {
    d.minutes * 60 + d.seconds
  }

  /** A display in normal form: seconds in 0..59 and minutes not negative. */
  predicate WellFormed(d: Display)
  {
    d.minutes >= 0 && 0 <= d.seconds < 60
  }

  /** The display of a whole number of seconds, as the wall-clock work timer
      derives it from the remaining time. */
  function FromSeconds(n: nat): (d: Display)
    ensures WellFormed(d) && Total(d) == n
  {
    Display(n / 60, n % 60)
  }

  /** Deriving the display from its own total gives it back, so a well-formed
      display is determined by its total. */
  lemma FromSecondsRoundTrip(d: Display)
    requires WellFormed(d)
    ensures FromSeconds(Total(d)) == d
  {
  }

  /** One tick on a display that is not 00:00: a zero seconds field borrows a
      minute and becomes 59, otherwise seconds go down by one. The tick takes
      exactly one second off the total and keeps the display in normal form. */
  function Decrement(d: Display): (r: Display)
    requires WellFormed(d) && Total(d) > 0
    ensures WellFormed(r) && Total(r) == Total(d) - 1
  {
    if d.seconds == 0 then Display(d.minutes - 1, 59)
    else Display(d.minutes, d.seconds - 1)
  }

  /** The display after `k` ticks, none of which has found 00:00. */
  function After(d: Display, k: nat): (r: Display)
    requires WellFormed(d) && k <= Total(d)
    ensures WellFormed(r) && Total(r) == Total(d) - k
    decreases k
  {
    if k == 0 then d else After(Decrement(d), k - 1)
  }

  /** Counting down from `d`, the display first reads 00:00 after exactly
      Total(d) ticks; the tick after that is the one that finds 00:00 and
      finishes the countdown, the (Total(d) + 1)-th. */
  lemma ZeroAfterExactly(d: Display, k: nat)
    requires WellFormed(d) && k <= Total(d)
    ensures After(d, k) == Display(0, 0) <==> k == Total(d)
  {
  }

  /** A countdown started at M:00 reads 00:00 after exactly M*60 ticks. */
  lemma {:induction false} SessionTicks(minutes: nat)
    ensures Total(Display(minutes, 0)) == minutes * 60
    ensures After(Display(minutes, 0), minutes * 60) == Display(0, 0)
    ensures forall k: nat :: k < minutes * 60 ==> After(Display(minutes, 0), k) != Display(0, 0)
  {
    var d := Display(minutes, 0);
    var n := minutes * 60;
    assert Total(d) == n;
    ZeroAfterExactly(d, n);
    forall k: nat | k < n
      ensures After(d, k) != Display(0, 0)
    {
      ZeroAfterExactly(d, k);
    }
  }
}
