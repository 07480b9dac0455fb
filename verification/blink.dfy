/**
 * The plain blink program (src/main-blink.c): PB5 is made an output, then the
 * endless loop inverts PB5 and waits one second.
 */
module Blink {
  import opened Registers
  import opened Delays

  /** The LED on D13. */
  const LED_PIN: BitIndex := PB5
  /** The wait after every toggle, in milliseconds. */
  const BLINK_DELAY_MS: int := 1000

  /** PORTB after `n` passes through the loop body, starting from `portb`. */
  function PortAfter(portb: bv8, n: nat): bv8
  {
    if n == 0 then portb else ToggleBit(PortAfter(portb, n - 1), LED_PIN)
  }

  /** After `n` passes, PB5 is its initial value inverted `n mod 2` times and no other bit has moved. */
  lemma {:induction false} PortAfterParity(portb: bv8, n: nat)
    ensures PortAfter(portb, n) == ToggledTimes(portb, LED_PIN, n)
    ensures IsSet(PortAfter(portb, n), LED_PIN) == (IsSet(portb, LED_PIN) != (n % 2 == 1))
    ensures SameExcept(PortAfter(portb, n), portb, LED_PIN)
  {
    if n > 0 {
      PortAfterParity(portb, n - 1);
      ToggledTimesStep(portb, LED_PIN, n - 1);
    }
  }

  /** Two more passes of the loop body restore PORTB exactly. */
  lemma TwoPassesRestore(portb: bv8, n: nat)
    ensures PortAfter(portb, n + 2) == PortAfter(portb, n)
  {
    ToggleTwice(PortAfter(portb, n), LED_PIN);
  }

  class BlinkProgram {
    var ddrb: bv8
    var portb: bv8
    /** Every `_delay_ms` the program has asked for, in order. */
    var delays: seq<int>

    /** Power-on reset: the I/O registers read 0 and nothing has been waited for. */
    constructor ()
      ensures ddrb == 0 && portb == 0 && delays == []
    {
      ddrb, portb, delays := 0, 0, [];
    }

    /** `DDRB |= (1<<PB5)`: PB5 becomes an output, the other directions stay. */
    method Setup()
      modifies this
      ensures ddrb == SetBit(old(ddrb), LED_PIN)
      ensures portb == old(portb) && delays == old(delays)
    {
      ddrb := ddrb | Mask(LED_PIN);
    }

    /** One pass of `while (1)`: invert PB5, wait one second. */
    method LoopIteration()
      modifies this
      ensures portb == ToggleBit(old(portb), LED_PIN)
      ensures delays == old(delays) + [BLINK_DELAY_MS]
      ensures ddrb == old(ddrb)
    {
      portb := portb ^ Mask(LED_PIN);
      delays := delays + [BLINK_DELAY_MS];
    }

    /** The first `n` passes of the endless loop. */
    method Run(n: nat)
      modifies this
      ensures portb == PortAfter(old(portb), n)
      ensures delays == old(delays) + Repeat(BLINK_DELAY_MS, n)
      ensures Total(delays) == Total(old(delays)) + n * BLINK_DELAY_MS
      ensures ddrb == old(ddrb)
    {
      var i := 0;
      while i < n
        invariant i <= n
        invariant portb == PortAfter(old(portb), i)
        invariant delays == old(delays) + Repeat(BLINK_DELAY_MS, i)
        invariant ddrb == old(ddrb)
      {
        ghost var done := Repeat(BLINK_DELAY_MS, i);
        LoopIteration();
        assert delays == old(delays) + (done + [BLINK_DELAY_MS]);
        i := i + 1;
      }
      assert Total(delays) == Total(old(delays)) + n * BLINK_DELAY_MS by {
        TotalAppend(old(delays), Repeat(BLINK_DELAY_MS, n));
        TotalRepeat(BLINK_DELAY_MS, n);
      }
    }
  }
}
