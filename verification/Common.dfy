/** Values that several components share: optional values and timestamps. */
module Common {

  datatype Option<+T> = None | Some(value: T)

  /** Instants are microseconds since the epoch, in UTC. */
  type Instant = int

  /** A timestamp: wall-clock microseconds and, if it has a zone, its UTC offset; without one it is read as UTC. */
  datatype Stamp = Naive(wall: int) | Aware(wall: int, offset: int) {
    function Utc(): Instant {
      if Naive? then wall else wall - offset
    }
  }
}
