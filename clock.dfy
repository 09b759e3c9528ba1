/** The game clock. Game time is kept as whole minutes since midnight of the first
    game day (1 January 2024); the calendar date is the day index of that count. */
module Clock {

  const MinutesPerDay: nat := 1440

  /** Each tick advances the game clock by a quarter of an hour. */
  const TickMinutes: nat := 15

  /** 07:00 on the first day, when a game starts. */
  const StartTime: nat := 7 * 60

  /** The calendar day a game time falls on, counted from the first day. */
  function DayIndex(t: nat): nat {
    t / MinutesPerDay
  }

  /** The time of day shown on the clock, in minutes after midnight. */
  function MinuteOfDay(t: nat): nat {
    t % MinutesPerDay
  }

  /** A tick moves the date by at most one day, and it moves it exactly when the
      time of day reaches midnight; the time of day wraps round modulo a day. */
  lemma TickCrossesMidnight(t: nat)
    ensures DayIndex(t + TickMinutes) == DayIndex(t) || DayIndex(t + TickMinutes) == DayIndex(t) + 1
    ensures DayIndex(t + TickMinutes) != DayIndex(t) <==> MinuteOfDay(t) + TickMinutes >= MinutesPerDay
    ensures MinuteOfDay(t + TickMinutes) == (MinuteOfDay(t) + TickMinutes) % MinutesPerDay
  {
    var q, m := t / MinutesPerDay, t % MinutesPerDay;
    assert t == q * MinutesPerDay + m;
    if m + TickMinutes >= MinutesPerDay {
      assert t + TickMinutes == (q + 1) * MinutesPerDay + (m + TickMinutes - MinutesPerDay);
    } else {
      assert t + TickMinutes == q * MinutesPerDay + (m + TickMinutes);
    }
  }
}
