/** The wraparound-safe cycle clock. A timer interrupt increments a free-running
    16-bit overflow counter; each consumer keeps its own baseline and measures the
    cycles elapsed since it. */
module CycleClock {
  import opened Common

  /** The overflow counter after one timer-1 overflow interrupt. */
  function Tick(count: u16): (next: u16)
    ensures count < U16_MODULUS - 1 ==> next == count + 1
    ensures count == U16_MODULUS - 1 ==> next == 0
  {
    (count + 1) % U16_MODULUS
  }

  /** The wrap check every consumer runs first: a counter observed below the
      baseline means the counter wrapped, and the baseline is pulled down to it,
      as if the event had just happened. */
  function Clamp(count: u16, baseline: u16): (b: u16)
    ensures b <= count && b <= baseline
    ensures b == baseline || b == count
  {
    if count < baseline then count else baseline
  }

  /** Cycles elapsed since a clamped baseline; the unsigned subtraction cannot
      underflow. */
  function Elapsed(count: u16, baseline: u16): (e: u16)
    requires baseline <= count
    ensures baseline + e == count
  {
    count - baseline
  }

  /** Elapsed cycles as each consumer computes them: clamp, then subtract. */
  function ElapsedSince(count: u16, baseline: u16): (e: u16)
    ensures e <= count
    ensures baseline <= count ==> e + baseline == count
    ensures count < baseline ==> e == 0
  {
    Elapsed(count, Clamp(count, baseline))
  }
}
