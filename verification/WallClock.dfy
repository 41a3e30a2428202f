/** The "next HH:mm in Asia/Kolkata" arithmetic of job creation, on epoch milliseconds. */
module WallClock {

  const DAY := 86400000
  const MINUTE := 60000
  /** UTC+5:30, which has no daylight saving. */
  const ZONE_OFFSET := 19800000

  datatype TimeOfDay = TimeOfDay(hour: nat, minute: nat) {
    predicate Valid() { hour < 24 && minute < 60 }

    function Millis(): nat { (hour * 60 + minute) * MINUTE }
  }

  /** Milliseconds since local midnight at instant `t`. */
  function Reading(t: int): int { (t + ZONE_OFFSET) % DAY }

  /** The instant of `time` on the local calendar day that contains `now`. */
  function OnSameDay(now: int, time: TimeOfDay): int {
    (now + ZONE_OFFSET) / DAY * DAY + time.Millis() - ZONE_OFFSET
  }

  function NextOccurrence(now: int, time: TimeOfDay): int {
    var today := OnSameDay(now, time);
    if today < now then today + DAY else today
  }

  /** The computed instant is the one and only instant of the coming 24 hours that reads `time` on the wall. */
  lemma NextOccurrenceUnique(now: int, time: TimeOfDay, t: int)
    requires time.Valid()
    ensures (now <= t < now + DAY && Reading(t) == time.Millis()) <==> t == NextOccurrence(now, time)
  {
  }
}
