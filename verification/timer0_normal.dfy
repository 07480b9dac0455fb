/**
 * The software tick clock (src/main-timer0-normal.c). Timer/Counter0 runs in
 * normal mode with prescaler 64; its overflow interrupt increments the 16-bit
 * global `counter`, and the main loop inverts PB5 and clears the counter once
 * the counter has reached 1000.
 *
 * The interrupt handler is an atomic event between two passes of the main
 * loop; the non-atomic read of the 16-bit counter on the 8-bit core is not
 * part of this model.
 */
module Timer0Normal {
  import opened Registers

  /** The LED on D13. */
  const LED_PIN: BitIndex := PB5
  /** Overflow count at which the main loop inverts the LED. */
  const THRESHOLD: int := 1000
  /** CPU clock in hertz. */
  const F_CPU: nat := 16_000_000
  /** Timer ticks per period in the header comment's arithmetic, `T(255)`. */
  const PERIOD_TICKS: nat := 255

  // ---------------------------------------------------------------------------
  // Prescaler arithmetic of the header comment, in exact picoseconds

  /** Length of one timer tick when the CPU clock is divided by `divisor`. */
  function TickPs(divisor: nat): (ps: nat)
    ensures ps * F_CPU == divisor * 1_000_000_000_000
  {
    divisor * 62_500
  }

  /** Length of `PERIOD_TICKS` timer ticks when the CPU clock is divided by `divisor`. */
  function PeriodPs(divisor: nat): (ps: nat)
    ensures ps * F_CPU == PERIOD_TICKS * divisor * 1_000_000_000_000
  {
    PERIOD_TICKS * TickPs(divisor)
  }

  /**
   * The exact values of the comment's five rows: no prescaler, 8, 64, 256 and
   * 1024 give 0.0625, 0.5, 4, 16 and 64 us per tick, and 15.9375, 127.5,
   * 1 020, 4 080 and 16 320 us per 255 ticks (the comment rounds the first to
   * 15.93 us).
   */
  lemma PeriodTable()
    ensures TickPs(1) == 62_500 && PeriodPs(1) == 15_937_500
    ensures TickPs(8) == 500_000 && PeriodPs(8) == 127_500_000
    ensures TickPs(64) == 4_000_000 && PeriodPs(64) == 1_020_000_000
    ensures TickPs(256) == 16_000_000 && PeriodPs(256) == 4_080_000_000
    ensures TickPs(1024) == 64_000_000 && PeriodPs(1024) == 16_320_000_000
  {
  }

  /** Ticks from one overflow of the 8-bit counter to the next (0 to 255 and back to 0). */
  const OVERFLOW_TICKS: nat := 256

  /**
   * The hardware overflows every 256 ticks, not 255: with prescaler 64 one
   * count of `counter` lasts 1 024 us, and 1000 counts last 1 024 ms, not one second.
   */
  lemma OverflowPeriod()
    ensures OVERFLOW_TICKS * TickPs(64) == 1_024_000_000
    ensures THRESHOLD * OVERFLOW_TICKS * TickPs(64) == 1_024_000_000_000
    ensures PeriodPs(64) < OVERFLOW_TICKS * TickPs(64)
  {
  }

  // ---------------------------------------------------------------------------
  // Register set-up

  /** `TCCR0B |= (1<<CS01) | (1<<CS00)`. */
  function SelectPrescaler64(tccr0b: bv8): (r: bv8)
    ensures IsSet(r, CS01) && IsSet(r, CS00)
    ensures forall j: BitIndex :: j != CS01 && j != CS00 ==> IsSet(r, j) == IsSet(tccr0b, j)
  {
    SetBit(SetBit(tccr0b, CS01), CS00)
  }

  /** With CS02 clear beforehand (as after reset), the set-up selects clk/64: 4 us per tick. */
  lemma SetupSelectsPrescaler64(tccr0b: bv8)
    requires !IsSet(tccr0b, CS02)
    ensures ClockSelect(SelectPrescaler64(tccr0b)) == Prescaled(64)
    ensures TickPs(64) == 4_000_000
  {
  }

  // ---------------------------------------------------------------------------
  // The counter and the LED as values

  /** `counter++` on a `uint16_t`: one more, wrapping from 65535 to 0. */
  function Increment(c: Uint16): (r: Uint16)
    ensures c < 0xFFFF ==> r == c + 1
    ensures c == 0xFFFF ==> r == 0
  {
    (c + 1) % 0x1_0000
  }

  /** What the main loop and the interrupt handler share: the counter, and PORTB which holds the LED. */
  datatype Clock = Clock(counter: Uint16, portb: bv8)

  /** One pass of the main loop: at or above the threshold, clear the counter and invert PB5 only. */
  function Poll(s: Clock): (r: Clock)
    ensures s.counter >= THRESHOLD ==> r.counter == 0
    ensures s.counter >= THRESHOLD ==> IsSet(r.portb, LED_PIN) != IsSet(s.portb, LED_PIN)
    ensures SameExcept(r.portb, s.portb, LED_PIN)
    ensures s.counter < THRESHOLD ==> r == s
  {
    if s.counter >= THRESHOLD then Clock(0, ToggleBit(s.portb, LED_PIN)) else s
  }

  /** A second pass of the main loop before the next overflow changes nothing. */
  lemma PollIdempotent(s: Clock)
    ensures Poll(Poll(s)) == Poll(s)
  {
  }

  /** One overflow interrupt followed by one pass of the main loop. */
  function Round(s: Clock): Clock
  {
    Poll(s.(counter := Increment(s.counter)))
  }

  /** `n` rounds of alternating interrupt and main loop. */
  function Rounds(s: Clock, n: nat): Clock
  {
    if n == 0 then s else Round(Rounds(s, n - 1))
  }

  /**
   * From a zero counter, after `n` rounds the counter holds `n mod 1000` and
   * PB5 has been inverted once per thousand rounds; no other PORTB bit moves.
   */
  lemma {:induction false} RoundsFromZero(portb: bv8, n: nat)
    ensures Rounds(Clock(0, portb), n) == Clock(n % 1000, ToggledTimes(portb, LED_PIN, n / 1000))
  {
    if n > 0 {
      RoundsFromZero(portb, n - 1);
      var m := n - 1;
      if m % 1000 == 999 {
        assert n % 1000 == 0 && n / 1000 == m / 1000 + 1;
        ToggledTimesStep(portb, LED_PIN, m / 1000);
      } else {
        assert n % 1000 == m % 1000 + 1 && n / 1000 == m / 1000;
      }
    }
  }

  /**
   * Round `n + 1` inverts the LED exactly when `n + 1` is a multiple of 1000,
   * and the counter is 0 right after each inversion.
   */
  lemma FlipsOnEveryThousandthOverflow(portb: bv8, n: nat)
    ensures Rounds(Clock(0, portb), n + 1).portb != Rounds(Clock(0, portb), n).portb
            <==> (n + 1) % 1000 == 0
    ensures (n + 1) % 1000 == 0 ==>
              Rounds(Clock(0, portb), n + 1)
              == Clock(0, ToggleBit(Rounds(Clock(0, portb), n).portb, LED_PIN))
  {
    RoundsFromZero(portb, n);
    RoundsFromZero(portb, n + 1);
  }

  /**
   * Under alternation from zero the interrupt never takes the counter above
   * 1000, so `counter++` never wraps, and every main-loop pass leaves it below 1000.
   */
  lemma NeverWraps(portb: bv8, n: nat)
    ensures Rounds(Clock(0, portb), n).counter < THRESHOLD
    ensures Increment(Rounds(Clock(0, portb), n).counter) == Rounds(Clock(0, portb), n).counter + 1
    ensures Increment(Rounds(Clock(0, portb), n).counter) <= THRESHOLD
  {
    RoundsFromZero(portb, n);
  }

  // ---------------------------------------------------------------------------
  // The program

  class Timer0NormalProgram {
    var ddrb: bv8
    var portb: bv8
    var tccr0b: bv8
    var tcnt0: bv8
    var timsk0: bv8
    /** `volatile uint16_t counter`, one step per timer overflow. */
    var counter: Uint16
    /** The global interrupt flag I of SREG. */
    var interruptsEnabled: bool

    function State(): Clock
      reads this
    {
      Clock(counter, portb)
    }

    /** Power-on reset: registers read 0, `counter` starts at 0, interrupts are off. */
    constructor ()
      ensures ddrb == 0 && portb == 0 && tccr0b == 0 && tcnt0 == 0 && timsk0 == 0
      ensures counter == 0 && !interruptsEnabled
    {
      ddrb, portb, tccr0b, tcnt0, timsk0 := 0, 0, 0, 0, 0;
      counter, interruptsEnabled := 0, false;
    }

    /** The start of `main`: LED output, prescaler 64, timer cleared, overflow interrupt on, `sei()`. */
    method Setup()
      modifies this
      ensures ddrb == SetBit(old(ddrb), LED_PIN)
      ensures tccr0b == SelectPrescaler64(old(tccr0b))
      ensures tcnt0 == 0
      ensures timsk0 == SetBit(old(timsk0), TOIE0)
      ensures interruptsEnabled
      ensures State() == old(State())
    {
      ddrb := ddrb | Mask(LED_PIN);
      tccr0b := tccr0b | (Mask(CS01) | Mask(CS00));
      tcnt0 := 0;
      timsk0 := timsk0 | Mask(TOIE0);
      interruptsEnabled := true;
    }

    /** `ISR(TIMER0_OVF_vect)`, dispatched only while the overflow interrupt and the I flag are enabled. */
    method OverflowIsr()
      requires interruptsEnabled && IsSet(timsk0, TOIE0)
      modifies this`counter
      ensures counter == Increment(old(counter))
    {
      counter := (counter + 1) % 0x1_0000;
    }

    /** One pass of `while (1)`. */
    method LoopIteration()
      modifies this`counter, this`portb
      ensures State() == Poll(old(State()))
    {
      if counter >= THRESHOLD {
        counter := 0;
        portb := portb ^ Mask(LED_PIN);
      }
    }

    /** `n` rounds in which one timer overflow arrives before each pass of the main loop. */
    method RunAlternating(n: nat)
      requires interruptsEnabled && IsSet(timsk0, TOIE0)
      modifies this`counter, this`portb
      ensures State() == Rounds(old(State()), n)
    {
      var i := 0;
      while i < n
        invariant i <= n
        invariant State() == Rounds(old(State()), i)
      {
        OverflowIsr();
        LoopIteration();
        i := i + 1;
      }
    }
  }
}
