/**
 * The notification panel's item logic: the relative time shown beside each
 * notification, and the click that marks an unread item as read.
 */
module NotificationPanel {
  import opened Common
  import opened Notifications

  const MinuteMs: int := 60000
  const HourMs: int := 3600000
  const DayMs: int := 86400000

  /** The relative age of a notification in its largest non-zero whole unit. */
  datatype Age = DaysAgo(days: nat) | HoursAgo(hours: nat) | MinutesAgo(minutes: nat) | JustNow

  /**
   * `Math.floor` of the elapsed milliseconds over each unit; for a positive
   * divisor Dafny's `/` is the same floor division, also for a timestamp in
   * the future.
   */
  function TimeAgo(now: int, timestamp: int): (r: Age)
    ensures var diff := now - timestamp;
      (r.DaysAgo? <==> diff >= DayMs) &&
      (r.HoursAgo? <==> HourMs <= diff < DayMs) &&
      (r.MinutesAgo? <==> MinuteMs <= diff < HourMs) &&
      (r.JustNow? <==> diff < MinuteMs)
    ensures r.DaysAgo? ==> r.days >= 1 && r.days * DayMs <= now - timestamp < (r.days + 1) * DayMs
    ensures r.HoursAgo? ==> 1 <= r.hours < 24 && r.hours * HourMs <= now - timestamp < (r.hours + 1) * HourMs
    ensures r.MinutesAgo? ==> 1 <= r.minutes < 60 &&
                              r.minutes * MinuteMs <= now - timestamp < (r.minutes + 1) * MinuteMs
  {
    var diff := now - timestamp;
    var minutes := diff / MinuteMs;
    var hours := diff / HourMs;
    var days := diff / DayMs;
    if days > 0 then DaysAgo(days)
    else if hours > 0 then HoursAgo(hours)
    else if minutes > 0 then MinutesAgo(minutes)
    else JustNow
  }

  /** The text of an age. */
  function AgeText(a: Age): (s: string)
    ensures a.JustNow? <==> s == "Just now"
    ensures a.DaysAgo? ==> s == NatToString(a.days) + "d ago"
    ensures a.HoursAgo? ==> s == NatToString(a.hours) + "h ago"
    ensures a.MinutesAgo? ==> s == NatToString(a.minutes) + "m ago"
  {
    match a
    case DaysAgo(n) => var s := NatToString(n) + "d ago"; assert s[|s| - 1] == 'o'; s
    case HoursAgo(n) => var s := NatToString(n) + "h ago"; assert s[|s| - 1] == 'o'; s
    case MinutesAgo(n) => var s := NatToString(n) + "m ago"; assert s[|s| - 1] == 'o'; s
    case JustNow => "Just now"
  }

  /** Ninety minutes is reported as one hour. */
  lemma NinetyMinutesIsOneHour(now: int)
    ensures TimeAgo(now, now - 90 * MinuteMs) == HoursAgo(1)
  {
  }

  /** A timestamp in the future reads as "Just now". */
  lemma FutureIsJustNow(now: int, timestamp: int)
    requires timestamp > now
    ensures TimeAgo(now, timestamp) == JustNow
  {
  }

  /** Clicking an item marks it read only when it is unread. */
  method HandleClick(store: NotificationStore, n: Notification)
    modifies store
    ensures n.read ==> store.notifications == old(store.notifications)
    ensures !n.read ==> store.notifications == MarkRead(old(store.notifications), n.id)
  {
    if !n.read {
      store.MarkAsRead(n.id);
    }
  }
}
