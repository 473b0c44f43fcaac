/**
 * The time axis shared by the synthetic chart series: a point is `i` hours,
 * days or weeks before the clock, or the first day of the month `i` months
 * back. Points are produced for `i` counting down, so oldest first.
 */
module SeriesTime {
  import opened Common

  datatype Interval = Hourly | Daily | Weekly | Monthly

  /** A point's time: milliseconds since the epoch, or a month counted back from the current one. */
  datatype PointTime = At(ms: int) | MonthStart(monthsBack: nat)

  const HourMs: int := 3600000
  const DayMs: int := 86400000
  const WeekMs: int := 604800000

  function TimeOf(interval: Interval, now: int, i: nat): (t: PointTime)
    ensures interval == Hourly ==> t == At(now - i * HourMs)
    ensures interval == Daily ==> t == At(now - i * DayMs)
    ensures interval == Weekly ==> t == At(now - i * WeekMs)
    ensures interval == Monthly ==> t == MonthStart(i)
  {
    match interval
    case Hourly => At(now - i * HourMs)
    case Daily => At(now - i * DayMs)
    case Weekly => At(now - i * 7 * DayMs)
    case Monthly => MonthStart(i)
  }

  /** `a` lies strictly before `b`. */
  predicate Before(a: PointTime, b: PointTime) {
    match (a, b)
    case (At(x), At(y)) => x < y
    case (MonthStart(m), MonthStart(n)) => m > n
    case _ => false
  }

  /** A larger `i` lies further back. */
  lemma FurtherBackIsBefore(interval: Interval, now: int, i: nat, j: nat)
    requires i > j
    ensures Before(TimeOf(interval, now, i), TimeOf(interval, now, j))
  {
    assert i * HourMs > j * HourMs && i * DayMs > j * DayMs && i * WeekMs > j * WeekMs;
  }

  /** Both growth calculators return this record; `changePercent` is `None` where JavaScript divides by zero. */
  datatype Growth = Growth(current: real, previous: real, change: real, changePercent: Option<real>)

  datatype Metric = ValueMetric | YieldMetric
}
