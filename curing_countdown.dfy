/** The curing-projects widget: time left until a pour has cured, and how a
    project card looks. Times are integer milliseconds; the ticking clock is
    the `nowMs` argument. */
module CuringCountdown {

  const MsPerMinute: int := 1000 * 60
  const MsPerHour: int := 1000 * 60 * 60
  const MsPerDay: int := 1000 * 60 * 60 * 24

  /** What `getTimeRemaining` returns. */
  datatype TimeRemaining = TimeRemaining(days: int, hours: int, minutes: int, isOverdue: bool)

  /** When curing ends: the start plus `curingDays` whole days. */
  function EndMs(startMs: int, curingDays: int): int
  {
    startMs + curingDays * 24 * 60 * 60 * 1000
  }

  /** `getTimeRemaining(startDate, curingDays)` at clock time `nowMs`. */
  function GetTimeRemaining(startMs: int, curingDays: int, nowMs: int): (t: TimeRemaining)
    ensures t.isOverdue <==> EndMs(startMs, curingDays) - nowMs <= 0
    ensures t.isOverdue ==> t == TimeRemaining(0, 0, 0, true)
    ensures !t.isOverdue ==> t.days >= 0 && 0 <= t.hours < 24 && 0 <= t.minutes < 60
  {
    var timeDiff := EndMs(startMs, curingDays) - nowMs;
    if timeDiff <= 0 then TimeRemaining(0, 0, 0, true)
    else
      // For a positive difference JavaScript's Math.floor(a / b) and a % b
      // agree with Dafny's / and %.
      var days := timeDiff / MsPerDay;
      var hours := (timeDiff % MsPerDay) / MsPerHour;
      var minutes := (timeDiff % MsPerHour) / MsPerMinute;
      TimeRemaining(days, hours, minutes, false)
  }

  /** Milliseconds covered by whole days, hours and minutes. */
  function Span(days: int, hours: int, minutes: int): int
  {
    days * MsPerDay + hours * MsPerHour + minutes * MsPerMinute
  }

  /** The countdown reads the remaining time down to the minute: what it
      shows is at most the real difference, and less than a minute short. */
  lemma Reconstruction(startMs: int, curingDays: int, nowMs: int)
    requires EndMs(startMs, curingDays) - nowMs > 0
    ensures var t := GetTimeRemaining(startMs, curingDays, nowMs);
      Span(t.days, t.hours, t.minutes) <= EndMs(startMs, curingDays) - nowMs
        < Span(t.days, t.hours, t.minutes) + MsPerMinute
  {
    var diff := EndMs(startMs, curingDays) - nowMs;
    var t := GetTimeRemaining(startMs, curingDays, nowMs);
    SplitByDays(diff);
    SplitByHours(diff % MsPerDay);
    // An hour divides a day, so the rest after whole hours is the same either way.
    HourRestIgnoresDays(diff);
    SplitByMinutes(diff % MsPerHour);
    assert Span(t.days, t.hours, t.minutes) == diff - (diff % MsPerHour) % MsPerMinute;
  }

  lemma SplitByDays(x: int)
    requires x >= 0
    ensures x == (x / MsPerDay) * MsPerDay + x % MsPerDay && 0 <= x % MsPerDay < MsPerDay
  {
  }

  lemma SplitByHours(x: int)
    requires x >= 0
    ensures x == (x / MsPerHour) * MsPerHour + x % MsPerHour && 0 <= x % MsPerHour < MsPerHour
  {
  }

  lemma SplitByMinutes(x: int)
    requires x >= 0
    ensures x == (x / MsPerMinute) * MsPerMinute + x % MsPerMinute && 0 <= x % MsPerMinute < MsPerMinute
  {
  }

  lemma HourRestIgnoresDays(x: int)
    requires x >= 0
    ensures x % MsPerHour == (x % MsPerDay) % MsPerHour
  {
    var d, r := x / MsPerDay, x % MsPerDay;
    SplitByDays(x);
    SplitByHours(r);
    var q := r / MsPerHour;
    assert x == (d * 24 + q) * MsPerHour + r % MsPerHour;
    RestIsUnique(x, d * 24 + q, r % MsPerHour);
  }

  lemma RestIsUnique(x: int, q: int, r: int)
    requires x == q * MsPerHour + r && 0 <= r < MsPerHour
    ensures x % MsPerHour == r
  {
  }

  /** No other split of the difference satisfies the bounds and reads to the
      minute, so the result is the unique days/hours/minutes reading. */
  lemma ReadingIsUnique(startMs: int, curingDays: int, nowMs: int, d: int, h: int, m: int)
    requires EndMs(startMs, curingDays) - nowMs > 0
    requires d >= 0 && 0 <= h < 24 && 0 <= m < 60
    requires Span(d, h, m) <= EndMs(startMs, curingDays) - nowMs < Span(d, h, m) + MsPerMinute
    ensures GetTimeRemaining(startMs, curingDays, nowMs) == TimeRemaining(d, h, m, false)
  {
    var t := GetTimeRemaining(startMs, curingDays, nowMs);
    Reconstruction(startMs, curingDays, nowMs);
    var a, b := (d * 24 + h) * 60 + m, (t.days * 24 + t.hours) * 60 + t.minutes;
    assert Span(d, h, m) == a * MsPerMinute;
    assert Span(t.days, t.hours, t.minutes) == b * MsPerMinute;
    assert a == b;
    assert d == t.days && h == t.hours && m == t.minutes by {
      MixedRadixUnique(d, h, m, t.days, t.hours, t.minutes);
    }
  }

  lemma MixedRadixUnique(d: int, h: int, m: int, d': int, h': int, m': int)
    requires 0 <= h < 24 && 0 <= m < 60 && 0 <= h' < 24 && 0 <= m' < 60
    requires (d * 24 + h) * 60 + m == (d' * 24 + h') * 60 + m'
    ensures d == d' && h == h' && m == m'
  {
    assert m == m' && d * 24 + h == d' * 24 + h';
  }

  /** The `status` field of a curing project. */
  datatype Status = Curing | Ready | Overdue

  /** The three icons a card can show. */
  datatype Icon = AlertTriangle | CheckCircle | Clock

  /** `getStatusIcon`: being past the end wins over the recorded status. */
  function StatusIcon(status: Status, isOverdue: bool): Icon
  {
    if isOverdue then AlertTriangle
    else if status == Ready then CheckCircle
    else Clock
  }

  /** `getStatusColor`. */
  function StatusColor(status: Status, isOverdue: bool): string
  {
    if isOverdue then "border-red-200 bg-red-50"
    else if status == Ready then "border-green-200 bg-green-50"
    else "border-blue-200 bg-blue-50"
  }

  /** Icon and colour always tell the same story: red with the warning icon
      exactly when overdue, green with the check exactly when ready and not
      overdue, blue with the clock otherwise. A recorded status of 'overdue'
      alone does not make a card red. */
  lemma IconMatchesColor(status: Status, isOverdue: bool)
    ensures StatusIcon(status, isOverdue) == AlertTriangle <==> StatusColor(status, isOverdue) == "border-red-200 bg-red-50"
    ensures StatusIcon(status, isOverdue) == CheckCircle <==> StatusColor(status, isOverdue) == "border-green-200 bg-green-50"
    ensures StatusIcon(status, isOverdue) == Clock <==> StatusColor(status, isOverdue) == "border-blue-200 bg-blue-50"
    ensures StatusIcon(status, isOverdue) == AlertTriangle <==> isOverdue
    ensures StatusIcon(status, isOverdue) == CheckCircle <==> !isOverdue && status == Ready
    ensures StatusIcon(Overdue, false) == Clock
  {
    assert "border-red-200 bg-red-50"[13] != "border-green-200 bg-green-50"[13];
    assert "border-red-200 bg-red-50"[7] != "border-blue-200 bg-blue-50"[7];
    assert "border-green-200 bg-green-50"[7] != "border-blue-200 bg-blue-50"[7];
  }

  /** The three texts below a project's name. */
  datatype RemainingText =
    | CuringComplete                               // "Curing period complete - Ready for use"
    | CompleteInMinutes(minutes: int)              // "Curing complete in N minutes"
    | Remaining(days: int, hours: int, minutes: int) // "Nd Nh Nm remaining"

  function Describe(t: TimeRemaining): RemainingText
  {
    if t.isOverdue then CuringComplete
    else if t.days == 0 && t.hours == 0 then CompleteInMinutes(t.minutes)
    else Remaining(t.days, t.hours, t.minutes)
  }

  /** "Complete in N minutes" appears exactly when less than an hour is left,
      and N is the number of whole minutes left. */
  lemma MinutesTextUnderAnHour(startMs: int, curingDays: int, nowMs: int)
    ensures var diff := EndMs(startMs, curingDays) - nowMs;
      var text := Describe(GetTimeRemaining(startMs, curingDays, nowMs));
      && (text.CompleteInMinutes? <==> 0 < diff < MsPerHour)
      && (text.CompleteInMinutes? ==> text.minutes == diff / MsPerMinute)
      && (text.CuringComplete? <==> diff <= 0)
  {
    var diff := EndMs(startMs, curingDays) - nowMs;
    if diff > 0 {
      Reconstruction(startMs, curingDays, nowMs);
      var t := GetTimeRemaining(startMs, curingDays, nowMs);
      if t.days > 0 || t.hours > 0 {
        assert Span(t.days, t.hours, t.minutes) >= MsPerHour;
      }
    }
  }
}
