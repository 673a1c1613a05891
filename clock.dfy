/** Go's time.Time, reduced to what the service does with it: read the clock and convert to UTC. */
module Clock {

  datatype Location = UTC | Local | Zone(name: string)

  /** An instant, in nanoseconds since the Unix epoch, and the location it is shown in. */
  datatype Time = Time(unixNano: int, loc: Location)

  const NanosPerSecond: int := 1_000_000_000

  /** t.UTC(): the same instant with its location set to UTC. */
  function InUTC(t: Time): Time
  {
    Time(t.unixNano, UTC)
  }
}
