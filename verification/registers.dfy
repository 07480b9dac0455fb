/**
 * The 8-bit I/O registers of the ATmega328P as the five programs use them:
 * bit positions (from the device datasheet, where <avr/io.h> takes them),
 * the single-bit updates `r |= (1<<b)`, `r &= ~(1<<b)` and `r ^= (1<<b)`,
 * and the decoding of the Timer/Counter0 clock-select field.
 */
module Registers {

  /** A bit position inside an 8-bit register. */
  type BitIndex = i: nat | i < 8

  /** `uint8_t` and `uint16_t` as unbounded integers restricted to their range. */
  type Uint8 = x: int | 0 <= x < 0x100
  type Uint16 = x: int | 0 <= x < 0x1_0000

  // PORTB / DDRB
  const PB5: BitIndex := 5
  // PORTD / DDRD
  const PD2: BitIndex := 2
  const PD6: BitIndex := 6
  // TCCR0A
  const WGM00: BitIndex := 0
  const WGM01: BitIndex := 1
  const COM0A0: BitIndex := 6
  const COM0A1: BitIndex := 7
  // TCCR0B
  const CS00: BitIndex := 0
  const CS01: BitIndex := 1
  const CS02: BitIndex := 2
  const WGM02: BitIndex := 3
  // TIMSK0
  const TOIE0: BitIndex := 0
  // EICRA
  const ISC00: BitIndex := 0
  const ISC01: BitIndex := 1
  // EIMSK
  const INT0: BitIndex := 0
  // WDTCSR
  const WDP0: BitIndex := 0
  const WDP1: BitIndex := 1
  const WDP2: BitIndex := 2
  const WDE: BitIndex := 3
  const WDCE: BitIndex := 4
  const WDP3: BitIndex := 5
  const WDIE: BitIndex := 6
  // SMCR
  const SE: BitIndex := 0
  const SM0: BitIndex := 1
  const SM1: BitIndex := 2
  const SM2: BitIndex := 3

  /** `1 << i` on a byte, written as a table so that the solver sees constants. */
  function Mask(i: BitIndex): bv8
  {
    if i == 0 then 1 else if i == 1 then 2 else if i == 2 then 4 else if i == 3 then 8
    else if i == 4 then 16 else if i == 5 then 32 else if i == 6 then 64 else 128
  }

  predicate IsSet(b: bv8, i: BitIndex)
  {
    b & Mask(i) != 0
  }

  /** `a` and `b` agree on every bit other than bit `i`. */
  predicate SameExcept(a: bv8, b: bv8, i: BitIndex)
  {
    forall j: BitIndex :: j != i ==> IsSet(a, j) == IsSet(b, j)
  }

  /** `b | (1<<i)`, the `set_bit` of the programs. */
  function SetBit(b: bv8, i: BitIndex): (r: bv8)
    ensures IsSet(r, i) && SameExcept(r, b, i)
  {
    b | Mask(i)
  }

  /** `b & ~(1<<i)`, the `clear_bit` of the programs. */
  function ClearBit(b: bv8, i: BitIndex): (r: bv8)
    ensures !IsSet(r, i) && SameExcept(r, b, i)
  {
    b & !Mask(i)
  }

  /** `b ^ (1<<i)`: inverts bit `i` and nothing else. */
  function ToggleBit(b: bv8, i: BitIndex): (r: bv8)
    ensures IsSet(r, i) != IsSet(b, i) && SameExcept(r, b, i)
  {
    b ^ Mask(i)
  }

  /** A byte is determined by its eight bits. */
  lemma BitsDetermineByte(a: bv8, b: bv8)
    requires forall j: BitIndex :: IsSet(a, j) == IsSet(b, j)
    ensures a == b
  {
    assert IsSet(a, 0) == IsSet(b, 0) && IsSet(a, 1) == IsSet(b, 1);
    assert IsSet(a, 2) == IsSet(b, 2) && IsSet(a, 3) == IsSet(b, 3);
    assert IsSet(a, 4) == IsSet(b, 4) && IsSet(a, 5) == IsSet(b, 5);
    assert IsSet(a, 6) == IsSet(b, 6) && IsSet(a, 7) == IsSet(b, 7);
  }

  /** Toggling the same bit twice restores the register. */
  lemma ToggleTwice(b: bv8, i: BitIndex)
    ensures ToggleBit(ToggleBit(b, i), i) == b
  {
    forall j: BitIndex ensures IsSet(ToggleBit(ToggleBit(b, i), i), j) == IsSet(b, j) {
    }
    BitsDetermineByte(ToggleBit(ToggleBit(b, i), i), b);
  }

  /** Clearing a bit undoes setting it, and clearing it again changes nothing. */
  lemma ClearAfterSet(b: bv8, i: BitIndex)
    ensures ClearBit(SetBit(b, i), i) == ClearBit(b, i)
    ensures ClearBit(ClearBit(b, i), i) == ClearBit(b, i)
  {
  }

  /** `b` toggled at bit `i` as many times as `n` says, which depends only on the parity of `n`. */
  function ToggledTimes(b: bv8, i: BitIndex, n: nat): (r: bv8)
    ensures IsSet(r, i) == (IsSet(b, i) != (n % 2 == 1))
    ensures SameExcept(r, b, i)
  {
    if n % 2 == 0 then b else ToggleBit(b, i)
  }

  /** One more toggle of the same bit advances the count by one. */
  lemma ToggledTimesStep(b: bv8, i: BitIndex, n: nat)
    ensures ToggleBit(ToggledTimes(b, i, n), i) == ToggledTimes(b, i, n + 1)
  {
    if n % 2 == 1 {
      ToggleTwice(b, i);
    }
  }

  /** Where a timer's clock comes from, as its CS2:0 field selects it. */
  datatype ClockSource = Stopped | Prescaled(divisor: nat) | ExternalPin(risingEdge: bool)

  /** Clock Select field CS02:CS00 of TCCR0B (ATmega328P datasheet, table 15-9). */
  function ClockSelect(tccr0b: bv8): (c: ClockSource)
    ensures c.Prescaled? ==> c.divisor in {1, 8, 64, 256, 1024}
  {
    var cs := (if IsSet(tccr0b, CS02) then 4 else 0) + (if IsSet(tccr0b, CS01) then 2 else 0)
              + (if IsSet(tccr0b, CS00) then 1 else 0);
    if cs == 0 then Stopped
    else if cs == 1 then Prescaled(1)
    else if cs == 2 then Prescaled(8)
    else if cs == 3 then Prescaled(64)
    else if cs == 4 then Prescaled(256)
    else if cs == 5 then Prescaled(1024)
    else ExternalPin(cs == 7)
  }
}
