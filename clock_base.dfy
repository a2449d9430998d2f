/**
  Definitions shared by both logical clocks: the process identity and the
  integer `max` that both merge operations use.
 */
module ClockBase {

  /** A process identity. clock.py uses a UUID; only its equality and the
      total order on it (the Lamport tie-break) matter, so an integer stands
      for it. */
  type PID = int

  /** The built-in `max` on two integers. */
  function Max(a: int, b: int): (m: int)
    ensures m >= a && m >= b
    ensures m == a || m == b
  {
    if a >= b then a else b
  }
}
