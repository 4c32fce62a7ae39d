/** Dates as the dashboard's `new Date(...)` arithmetic uses them: an ISO
    date `YYYY-MM-DD` parses to midnight UTC of that day, written here as a
    day number since 1970-01-01; the current time is a millisecond count. */
module Calendar {

  /** `1000 * 60 * 60 * 24`. */
  const MsPerDay: int := 86400000

  /** The millisecond timestamp of a day's midnight UTC. */
  function DayStart(day: int): (ms: int)
    ensures ms % MsPerDay == 0 && ms / MsPerDay == day
  {
    day * MsPerDay
  }

  /** The day a timestamp falls on: Dafny's `/` rounds down for a positive
      divisor, as `Math.floor` does. */
  function DayOf(ms: int): (day: int)
    ensures day * MsPerDay <= ms < (day + 1) * MsPerDay
  {
    ms / MsPerDay
  }

  /** Day starts are ordered as the days are, and a day start read back
      through `DayOf` is that day. */
  lemma DayStartMonotone(a: int, b: int)
    ensures a <= b <==> DayStart(a) <= DayStart(b)
    ensures DayOf(DayStart(a)) == a
  {
  }
}
