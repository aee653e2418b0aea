/** The clock that supplies "now" to `build()`, injected as a reading in epoch seconds. */
module Clock {
  import opened JavaTypes

  const SecondsPerHour: int := 60 * 60

  /**
   * Whole hours since the epoch for a reading in epoch seconds. The conversion
   * is this model's choice: integer division truncating toward zero, as a
   * `long` division of the seconds by 3600 would give. For a reading at or
   * after the epoch the hour returned is the one whose interval contains it.
   */
  function HoursSinceEpoch(epochSeconds: int64): (hours: int64)
    ensures 0 <= epochSeconds ==>
      0 <= hours && hours as int * SecondsPerHour <= epochSeconds as int < hours as int * SecondsPerHour + SecondsPerHour
    ensures epochSeconds < 0 ==>
      hours <= 0 && hours as int * SecondsPerHour - SecondsPerHour < epochSeconds as int <= hours as int * SecondsPerHour
  {
    if 0 <= epochSeconds then (epochSeconds as int / SecondsPerHour) as int64
    else (-((-(epochSeconds as int)) / SecondsPerHour)) as int64
  }
}
