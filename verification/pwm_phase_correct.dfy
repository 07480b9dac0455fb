/**
 * The duty-cycle ramp (src/main-pwm-phase-correct.c). Timer/Counter0 runs in
 * phase-correct PWM mode, prescaler 256, non-inverting output on OC0A/PD6; the
 * endless loop raises the compare value OCR0A by one every 10 ms and, once it
 * is 255, sets it back to 0 and pauses 500 ms: a sawtooth, not a triangle.
 */
module PwmPhaseCorrect {
  import opened Registers
  import opened Delays

  /** OC0A, the pin the LED is on (D6). */
  const LED_PIN: BitIndex := PD6
  /** Largest compare value. */
  const TOP: Uint8 := 255
  /** Wait after each step up, in milliseconds. */
  const STEP_DELAY_MS: int := 10
  /** Wait after the return to 0, in milliseconds. */
  const RESET_DELAY_MS: int := 500
  /** Steps in one full sawtooth period. */
  const CYCLE_STEPS: nat := 256
  /** Delay of one full sawtooth period, in milliseconds. */
  const CYCLE_DELAY_MS: int := 3050

  // ---------------------------------------------------------------------------
  // Register set-up

  /** `TCCR0B |= (1<<CS02)`. */
  function SelectPrescaler256(tccr0b: bv8): (r: bv8)
    ensures IsSet(r, CS02) && SameExcept(r, tccr0b, CS02)
  {
    SetBit(tccr0b, CS02)
  }

  /** `TCCR0A |= (1<<COM0A1)` then `TCCR0A |= (1<<WGM00)`. */
  function ConfigureOutputAndMode(tccr0a: bv8): (r: bv8)
    ensures IsSet(r, COM0A1) && IsSet(r, WGM00)
    ensures forall j: BitIndex :: j != COM0A1 && j != WGM00 ==> IsSet(r, j) == IsSet(tccr0a, j)
  {
    SetBit(SetBit(tccr0a, COM0A1), WGM00)
  }

  /** Waveform Generation Mode WGM02:WGM00, spread over TCCR0B and TCCR0A. */
  function WaveformMode(tccr0a: bv8, tccr0b: bv8): (m: nat)
    ensures m < 8
  {
    (if IsSet(tccr0b, WGM02) then 4 else 0) + (if IsSet(tccr0a, WGM01) then 2 else 0)
    + (if IsSet(tccr0a, WGM00) then 1 else 0)
  }

  /** Compare Output Mode COM0A1:COM0A0 of TCCR0A. */
  function CompareOutputModeA(tccr0a: bv8): (m: nat)
    ensures m < 4
  {
    (if IsSet(tccr0a, COM0A1) then 2 else 0) + (if IsSet(tccr0a, COM0A0) then 1 else 0)
  }

  /**
   * From registers whose other mode bits are clear (as after reset), the
   * set-up gives mode 1 (phase-correct PWM, TOP 0xFF), compare mode 2 with
   * COM0A0 clear (non-inverting OC0A), and clk/256.
   */
  lemma SetupSelectsPhaseCorrectPwm(tccr0a: bv8, tccr0b: bv8)
    requires !IsSet(tccr0a, COM0A0) && !IsSet(tccr0a, WGM01)
    requires !IsSet(tccr0b, WGM02) && !IsSet(tccr0b, CS01) && !IsSet(tccr0b, CS00)
    ensures WaveformMode(ConfigureOutputAndMode(tccr0a), SelectPrescaler256(tccr0b)) == 1
    ensures CompareOutputModeA(ConfigureOutputAndMode(tccr0a)) == 2
    ensures !IsSet(ConfigureOutputAndMode(tccr0a), COM0A0)
    ensures ClockSelect(SelectPrescaler256(tccr0b)) == Prescaled(256)
  {
  }

  // ---------------------------------------------------------------------------
  // The ramp as values

  /** The new compare value after one pass of the loop, and the wait that pass asks for. */
  datatype Step = Step(ocr0a: Uint8, delayMs: int)

  /**
   * One pass of the loop: the compare value moves to its successor modulo 256,
   * and the long pause comes exactly with the return to 0.
   */
  function RampStep(v: Uint8): (r: Step)
    ensures r.ocr0a == (v + 1) % CYCLE_STEPS
    ensures r.delayMs == if r.ocr0a == 0 then RESET_DELAY_MS else STEP_DELAY_MS
  {
    if v < TOP then Step(v + 1, STEP_DELAY_MS) else Step(0, RESET_DELAY_MS)
  }

  /** The compare value after `n` passes starting from `v`. */
  function Ramp(v: Uint8, n: nat): Uint8
  {
    if n == 0 then v else RampStep(Ramp(v, n - 1)).ocr0a
  }

  /**
   * The waits of `n` passes starting from `v`, in order: pass `k` waits 500 ms
   * exactly when it brings the value back to 0, and 10 ms otherwise.
   */
  function RampDelays(v: Uint8, n: nat): (ds: seq<int>)
    ensures |ds| == n
    ensures forall k :: 0 <= k < n ==>
              ds[k] == if (v + k + 1) % CYCLE_STEPS == 0 then RESET_DELAY_MS else STEP_DELAY_MS
  {
    if n == 0 then []
    else
      RampIsCyclicCount(v, n);
      RampDelays(v, n - 1) + [RampStep(Ramp(v, n - 1)).delayMs]
  }

  /** After `n` passes the compare value is `v + n` modulo 256. */
  lemma {:induction false} RampIsCyclicCount(v: Uint8, n: nat)
    ensures Ramp(v, n) == (v + n) % CYCLE_STEPS
  {
    if n > 0 {
      RampIsCyclicCount(v, n - 1);
      NextQuotient(v + n - 1);
    }
  }

  /** From 0, the first period visits 0, 1, ..., 255 in order: pass `k` leaves the value `k`. */
  lemma RampFromZero(k: nat)
    requires k < CYCLE_STEPS
    ensures Ramp(0, k) == k
  {
    RampIsCyclicCount(0, k);
  }

  /** The ramp repeats itself every 256 passes, from any starting value. */
  lemma RampPeriodic(v: Uint8, n: nat)
    ensures Ramp(v, n + CYCLE_STEPS) == Ramp(v, n)
  {
    RampIsCyclicCount(v, n);
    RampIsCyclicCount(v, n + CYCLE_STEPS);
  }

  /**
   * From 0, every full period waits 255 * 10 + 500 = 3050 ms and a partial
   * period of `r` passes waits `10 * r` ms.
   */
  lemma {:induction false} RampDelayTotal(n: nat)
    ensures Total(RampDelays(0, n)) == CYCLE_DELAY_MS * (n / CYCLE_STEPS) + STEP_DELAY_MS * (n % CYCLE_STEPS)
  {
    if n > 0 {
      var m := n - 1;
      var d := RampStep(Ramp(0, m)).delayMs;
      RampDelayTotal(m);
      RampIsCyclicCount(0, m);
      TotalAppend(RampDelays(0, m), [d]);
      assert Total([d]) == d;
      NextQuotient(m);
    }
  }

  /** How quotient and remainder by 256 move from `m` to `m + 1`. */
  lemma NextQuotient(m: nat)
    ensures m % CYCLE_STEPS == 255 ==> (m + 1) % CYCLE_STEPS == 0 && (m + 1) / CYCLE_STEPS == m / CYCLE_STEPS + 1
    ensures m % CYCLE_STEPS != 255 ==> (m + 1) % CYCLE_STEPS == m % CYCLE_STEPS + 1 && (m + 1) / CYCLE_STEPS == m / CYCLE_STEPS
  {
    var q, r := m / CYCLE_STEPS, m % CYCLE_STEPS;
    assert m == CYCLE_STEPS * q + r;
    if r == 255 {
      assert m + 1 == CYCLE_STEPS * (q + 1) + 0;
    } else {
      assert m + 1 == CYCLE_STEPS * q + (r + 1);
    }
  }

  /** One full period from 0 waits 3050 ms in all. */
  lemma FullCycleDelay()
    ensures Total(RampDelays(0, CYCLE_STEPS)) == CYCLE_DELAY_MS
  {
    RampDelayTotal(CYCLE_STEPS);
  }

  // ---------------------------------------------------------------------------
  // The program

  class PwmProgram {
    var ddrd: bv8
    var tccr0a: bv8
    var tccr0b: bv8
    /** Output Compare Register A of Timer/Counter0. */
    var ocr0a: Uint8
    /** Every `_delay_ms` the program has asked for, in order. */
    var delays: seq<int>

    /** Power-on reset: the I/O registers read 0 and nothing has been waited for. */
    constructor ()
      ensures ddrd == 0 && tccr0a == 0 && tccr0b == 0 && ocr0a == 0 && delays == []
    {
      ddrd, tccr0a, tccr0b, ocr0a, delays := 0, 0, 0, 0, [];
    }

    /** The start of `main`: PD6 output, prescaler 256, compare output mode and waveform mode. */
    method Setup()
      modifies this
      ensures ddrd == SetBit(old(ddrd), LED_PIN)
      ensures tccr0b == SelectPrescaler256(old(tccr0b))
      ensures tccr0a == ConfigureOutputAndMode(old(tccr0a))
      ensures ocr0a == old(ocr0a) && delays == old(delays)
    {
      ddrd := ddrd | Mask(LED_PIN);
      tccr0b := tccr0b | Mask(CS02);
      tccr0a := tccr0a | Mask(COM0A1);
      tccr0a := tccr0a | Mask(WGM00);
    }

    /** One pass of `while (1)`. */
    method LoopIteration()
      modifies this`ocr0a, this`delays
      ensures ocr0a == RampStep(old(ocr0a)).ocr0a
      ensures delays == old(delays) + [RampStep(old(ocr0a)).delayMs]
    {
      if ocr0a < TOP {
        ocr0a := ocr0a + 1;
        delays := delays + [STEP_DELAY_MS];
      } else {
        ocr0a := 0;
        delays := delays + [RESET_DELAY_MS];
      }
    }

    /** The first `n` passes of the endless loop. */
    method Run(n: nat)
      modifies this`ocr0a, this`delays
      ensures ocr0a == Ramp(old(ocr0a), n)
      ensures delays == old(delays) + RampDelays(old(ocr0a), n)
    {
      var i := 0;
      while i < n
        invariant i <= n
        invariant ocr0a == Ramp(old(ocr0a), i)
        invariant delays == old(delays) + RampDelays(old(ocr0a), i)
      {
        LoopIteration();
        i := i + 1;
      }
    }
  }
}
