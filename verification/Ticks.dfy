/**
  The 32-bit tick counter against an unbounded clock. The absolute time Abs(e, t) is the
  moment the counter shows t after it has come round to zero e times.
*/
module Ticks {

  const N: nat := 0x1_0000_0000
  const MAX_DELAY: nat := 0xFFFF_FFFF

  function Abs(epoch: nat, tick: nat): nat {
    epoch * 0x1_0000_0000 + tick
  }

  /** C addition on TickType_t. */
  function Plus(a: nat, b: nat): (r: nat)
    requires a < N && b < N
    ensures r < N
    ensures r == (a + b) % N
  {
    if a + b < 0x1_0000_0000 then a + b else a + b - 0x1_0000_0000
  }

  /** C subtraction on TickType_t. */
  function Minus(a: nat, b: nat): (r: nat)
    requires a < N && b < N
    ensures r < N
    ensures Plus(r, b) == a
  {
    if b <= a then a - b else a + 0x1_0000_0000 - b
  }
}
