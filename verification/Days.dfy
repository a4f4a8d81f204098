/** Japan-time calendar days over UTC microseconds (services/daily_service.py). */
module Days {

  /** A UTC moment in microseconds, and a day counted from the same epoch. */
  type Micros = int
  type Day = int

  const DAY_MICROS := 86_400_000_000
  const TOKYO_OFFSET := 9 * 3_600_000_000

  /** The Japan-time calendar day of a moment: the day of its wall-clock reading in Tokyo. */
  function DayOf(moment: Micros): Day {
    (moment + TOKYO_OFFSET) / DAY_MICROS
  }

  /** The half-open UTC range of a day: its Tokyo midnight and the next one. */
  function WindowStart(day: Day): Micros {
    day * DAY_MICROS - TOKYO_OFFSET
  }

  predicate InWindow(moment: Micros, day: Day) {
    WindowStart(day) <= moment < WindowStart(day + 1)
  }

  /** The range query and the calendar agree on every moment and every day. */
  lemma WindowIsDay(moment: Micros, day: Day)
    ensures InWindow(moment, day) <==> DayOf(moment) == day
  {
    var wall := moment + TOKYO_OFFSET;
    assert wall == DAY_MICROS * (wall / DAY_MICROS) + wall % DAY_MICROS;
  }
}
