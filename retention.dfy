/**
 * The age test of `should_delete_file`. Times are instants counted in
 * microseconds (the resolution of `datetime`) from 0001-01-01 00:00:00; a
 * date read from a file name stands for its midnight, while `now` carries a
 * time of day.
 */
module Retention {
  import opened Wrappers
  import opened Calendar

  const MicrosPerDay: int := 86_400_000_000

  /** The instants a `datetime` can hold, from `datetime.min` to `datetime.max`. */
  predicate InRange(t: int)
  {
    0 <= t < MaxOrdinal * MicrosPerDay
  }

  /** The instant at which date `d` begins. */
  function Midnight(d: CalendarDate): (t: int)
    ensures InRange(t) && t % MicrosPerDay == 0
  {
    OrdinalBounds(d);
    (Ordinal(d) - 1) * MicrosPerDay
  }

  /** Every valid date lies between day 1 and the last day a `datetime` can hold. */
  lemma OrdinalBounds(d: CalendarDate)
    ensures 1 <= Ordinal(d) <= MaxOrdinal
  {
    MaxOrdinalIsLastDay();
    OrdinalOrder(d, Date(MaxYear, 12, 31));
  }

  /** The ordinal of the day instant `t` falls on. */
  function DayOf(t: int): int
  {
    t / MicrosPerDay + 1
  }

  /** How far into its day instant `t` lies. */
  function TimeOfDay(t: int): int
  {
    t % MicrosPerDay
  }

  /** `now - timedelta(days=retention_days)`. */
  function Cutoff(now: int, retentionDays: int): (r: int)
    ensures DayOf(r) == DayOf(now) - retentionDays
    ensures TimeOfDay(r) == TimeOfDay(now)
  {
    now - retentionDays * MicrosPerDay
  }

  /** Neither `now` nor the cutoff leaves the range of `datetime` (no `OverflowError`). */
  predicate CutoffInRange(now: int, retentionDays: int)
  {
    InRange(now) && InRange(Cutoff(now, retentionDays))
  }

  /** `should_delete_file`: no date means keep; a date is deleted when it is strictly before the cutoff. */
  function ShouldDelete(fileDate: Option<CalendarDate>, now: int, retentionDays: int): (r: bool)
    ensures fileDate.None? ==> !r
  {
    match fileDate
    case None => false
    case Some(d) => Midnight(d) < Cutoff(now, retentionDays)
  }

  /**
   * In whole days: a file is deleted when its date is more than
   * `retentionDays` days before today, or exactly that many days when `now`
   * is past midnight.
   */
  lemma ShouldDeleteByDays(d: CalendarDate, now: int, retentionDays: int)
    requires now >= 0
    ensures ShouldDelete(Some(d), now, retentionDays) <==>
            Ordinal(d) + retentionDays < DayOf(now)
            || (Ordinal(d) + retentionDays == DayOf(now) && TimeOfDay(now) > 0)
  {
    var gap := Ordinal(d) + retentionDays - DayOf(now);
    assert now == (DayOf(now) - 1) * MicrosPerDay + TimeOfDay(now);
    assert Cutoff(now, retentionDays) - Midnight(d) == TimeOfDay(now) - gap * MicrosPerDay;
    if gap < 0 {
      assert gap * MicrosPerDay <= -MicrosPerDay;
    } else if gap > 0 {
      assert gap * MicrosPerDay >= MicrosPerDay;
    }
  }

  /** A file dated exactly `retentionDays` days ago is kept only when `now` is exactly midnight. */
  lemma ExactBoundary(d: CalendarDate, now: int, retentionDays: int)
    requires now >= 0
    requires Ordinal(d) + retentionDays == DayOf(now)
    ensures ShouldDelete(Some(d), now, retentionDays) <==> TimeOfDay(now) > 0
  {
    ShouldDeleteByDays(d, now, retentionDays);
  }

  /** If a date is deleted, every earlier date is deleted too. */
  lemma OlderAlsoDeleted(older: CalendarDate, newer: CalendarDate, now: int, retentionDays: int)
    requires Before(older, newer)
    requires ShouldDelete(Some(newer), now, retentionDays)
    ensures ShouldDelete(Some(older), now, retentionDays)
  {
    OrdinalOrder(older, newer);
  }

  /** A longer retention never deletes what a shorter one keeps. */
  lemma LongerRetentionKeeps(fileDate: Option<CalendarDate>, now: int, shorter: int, longer: int)
    requires shorter <= longer
    requires ShouldDelete(fileDate, now, longer)
    ensures ShouldDelete(fileDate, now, shorter)
  {
  }

  /**
   * A retention of 7 days at 2024-01-10: at midnight 2024-01-03 is kept and
   * 2024-01-02 deleted; one microsecond later 2024-01-03 is deleted too.
   */
  lemma WeekAtMidnight()
    ensures !ShouldDelete(Some(Date(2024, 1, 3)), Midnight(Date(2024, 1, 10)), 7)
    ensures ShouldDelete(Some(Date(2024, 1, 2)), Midnight(Date(2024, 1, 10)), 7)
    ensures ShouldDelete(Some(Date(2024, 1, 3)), Midnight(Date(2024, 1, 10)) + 1, 7)
  {
    assert Ordinal(Date(2024, 1, 10)) == 738895;
    assert Ordinal(Date(2024, 1, 3)) == 738888;
    assert Ordinal(Date(2024, 1, 2)) == 738887;
  }
}
