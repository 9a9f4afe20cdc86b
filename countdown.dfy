/** The countdown shown on an active subscription: the time between now and the end date,
    broken into whole days, hours, minutes and seconds. Times are milliseconds since the
    epoch, as `Date.prototype.getTime` returns them. */
module Countdown {
  import opened Js

  const MsPerSecond := 1000
  const MsPerMinute := 1000 * 60
  const MsPerHour := 1000 * 60 * 60
  const MsPerDay := 1000 * 60 * 60 * 24

  datatype TimeLeft = TimeLeft(days: int, hours: int, minutes: int, seconds: int, isExpired: bool)

  /** The value the countdown holds before its first calculation. */
  function InitialTimeLeft(): (r: TimeLeft)
    ensures r.days == 0 && r.hours == 0 && r.minutes == 0 && r.seconds == 0
    ensures !r.isExpired
  {
    TimeLeft(0, 0, 0, 0, false)
  }

  /** `calculateTimeLeft`. `target` is `None` when the end date does not parse: its time is
      NaN, `NaN > 0` is false, and the countdown reads as expired. In the positive branch all
      operands are positive, where JavaScript's `%` and `Math.floor(a / b)` agree with
      Dafny's `%` and `/`. */
  function CalculateTimeLeft(target: Option<int>, now: int): (r: TimeLeft)
    ensures r.isExpired <==> target.None? || target.value - now <= 0
    ensures r.isExpired ==> r.days == 0 && r.hours == 0 && r.minutes == 0 && r.seconds == 0
    ensures !r.isExpired ==> 0 <= r.days && 0 <= r.hours < 24 && 0 <= r.minutes < 60 && 0 <= r.seconds < 60
  {
    if target.Some? && target.value - now > 0 then
      var difference := target.value - now;
      TimeLeft(
        difference / MsPerDay,
        (difference % MsPerDay) / MsPerHour,
        (difference % MsPerHour) / MsPerMinute,
        (difference % MsPerMinute) / MsPerSecond,
        false)
    else
      TimeLeft(0, 0, 0, 0, true)
  }

  /** The milliseconds the four fields stand for. */
  function Total(t: TimeLeft): int {
    t.days * MsPerDay + t.hours * MsPerHour + t.minutes * MsPerMinute + t.seconds * MsPerSecond
  }

  /** Nothing is lost but the milliseconds below a second: the fields add up to the
      difference rounded down to whole seconds. */
  lemma Reconstruction(target: int, now: int)
    requires target - now > 0
    ensures var r := CalculateTimeLeft(Some(target), now);
      Total(r) <= target - now < Total(r) + MsPerSecond
  {
    var d := target - now;
    var r := CalculateTimeLeft(Some(target), now);
    var restDay := d % MsPerDay;
    var restHour := d % MsPerHour;
    var restMinute := d % MsPerMinute;
    assert d == r.days * MsPerDay + restDay;
    assert restDay == r.hours * MsPerHour + restHour by {
      assert MsPerDay == 24 * MsPerHour;
      ModOfMultiple(d, MsPerHour, 24);
    }
    assert restHour == r.minutes * MsPerMinute + restMinute by {
      assert MsPerHour == 60 * MsPerMinute;
      ModOfMultiple(d, MsPerMinute, 60);
    }
    assert restMinute == r.seconds * MsPerSecond + restMinute % MsPerSecond;
  }

  /** Taking the remainder by a multiple of `b` first does not change the remainder by `b`,
      and what is left above it is whole `b`s. */
  lemma ModOfMultiple(d: int, b: int, k: int)
    requires d >= 0 && b > 0 && k > 0
    ensures (d % (k * b)) % b == d % b
    ensures d % (k * b) == (d % (k * b)) / b * b + d % b
  {
    var q := d / (k * b);
    var rest := d % (k * b);
    assert d == q * (k * b) + rest;
    assert d == (q * k) * b + rest;
    var q2 := rest / b;
    assert rest == q2 * b + rest % b;
    assert d == (q * k + q2) * b + rest % b;
    assert 0 <= rest % b < b;
    DivModUnique(d, b, q * k + q2, rest % b);
  }

  /** The quotient and remainder by `b` are the only ones. */
  lemma DivModUnique(d: int, b: int, q: int, m: int)
    requires b > 0 && 0 <= m < b && d == q * b + m
    ensures d / b == q && d % b == m
  {
    var q0 := d / b;
    var m0 := d % b;
    assert (q - q0) * b == m0 - m;
    if q != q0 {
      var x := if q > q0 then q - q0 else q0 - q;
      AtLeastOneMultiple(x, b);
    }
  }

  /** A positive multiple of `b` is at least `b`. */
  lemma AtLeastOneMultiple(x: int, b: int)
    requires x >= 1 && b > 0
    ensures x * b >= b
  {
    assert x * b == (x - 1) * b + b;
  }

  /** Less than a second left reads as zero everywhere, and still not expired. */
  lemma UnderOneSecond(target: int, now: int)
    requires 0 < target - now < MsPerSecond
    ensures CalculateTimeLeft(Some(target), now) == TimeLeft(0, 0, 0, 0, false)
  {
  }
}
