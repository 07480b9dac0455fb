/**
 * The edge-flag debounce (src/main-external-interrupt.c). A falling edge on
 * INT0/PD2 runs a handler that only raises the flag `is_interrupt_button`; the
 * main loop, seeing the flag, inverts PB5, waits 1000 ms, re-enables
 * interrupts and lowers the flag. However many edges arrive before the loop
 * gets to the flag, the LED is inverted once.
 *
 * Handlers are atomic events between passes of the main loop. An edge that
 * arrives during the 1000 ms wait finds the flag already raised and is lost
 * when the flag is lowered, just as an edge before the pass would be.
 */
module ExternalInterrupt {
  import opened Registers
  import opened Delays

  /** The LED on D13. */
  const LED_PIN: BitIndex := PB5
  /** The button on INT0/PD2 (D2). */
  const BUTTON_PIN: BitIndex := PD2
  /** Wait after each toggle, in milliseconds. */
  const DEBOUNCE_DELAY_MS: int := 1000

  // ---------------------------------------------------------------------------
  // Register set-up

  /** The four trigger conditions of INT0 selected by ISC01:ISC00 of EICRA. */
  datatype Sense = LowLevel | AnyChange | FallingEdge | RisingEdge

  function Int0Sense(eicra: bv8): Sense
  {
    match (IsSet(eicra, ISC01), IsSet(eicra, ISC00))
    case (false, false) => LowLevel
    case (false, true) => AnyChange
    case (true, false) => FallingEdge
    case (true, true) => RisingEdge
  }

  /**
   * `EICRA |= (1<<ISC01)`: with ISC00 clear beforehand (as after reset) INT0
   * fires on a falling edge; no other EICRA bit changes.
   */
  lemma SetupSelectsFallingEdge(eicra: bv8)
    requires !IsSet(eicra, ISC00)
    ensures Int0Sense(SetBit(eicra, ISC01)) == FallingEdge
    ensures SameExcept(SetBit(eicra, ISC01), eicra, ISC01)
  {
  }

  // ---------------------------------------------------------------------------
  // The flag and the LED as values

  /** What the handler and the main loop share: the flag, PORTB, and the waits so far. */
  datatype Button = Button(flag: bool, portb: bv8, delays: seq<int>)

  /** `ISR(INT0_vect)`: the flag is raised and nothing else changes. */
  function OnEdge(s: Button): (r: Button)
    ensures r.flag && r.portb == s.portb && r.delays == s.delays
  {
    s.(flag := true)
  }

  /** A second edge while the flag is raised changes nothing. */
  lemma OnEdgeIdempotent(s: Button)
    ensures OnEdge(OnEdge(s)) == OnEdge(s)
  {
  }

  /**
   * One pass of the main loop: with the flag raised it inverts PB5 only, waits
   * 1000 ms and lowers the flag; with the flag lowered it changes nothing.
   */
  function Poll(s: Button): (r: Button)
    ensures !r.flag
    ensures s.flag ==> IsSet(r.portb, LED_PIN) != IsSet(s.portb, LED_PIN)
    ensures s.flag ==> r.delays == s.delays + [DEBOUNCE_DELAY_MS]
    ensures SameExcept(r.portb, s.portb, LED_PIN)
    ensures !s.flag ==> r == s
  {
    if s.flag then Button(false, ToggleBit(s.portb, LED_PIN), s.delays + [DEBOUNCE_DELAY_MS])
    else s
  }

  /** Something that happens to the program: an edge on INT0, or one pass of the main loop. */
  datatype Input = Edge | Pass

  function Apply(s: Button, i: Input): Button
  {
    match i
    case Edge => OnEdge(s)
    case Pass => Poll(s)
  }

  /** The state after `inputs`, applied in order. */
  function RunInputs(s: Button, inputs: seq<Input>): Button
  {
    if inputs == [] then s else Apply(RunInputs(s, inputs[..|inputs| - 1]), inputs[|inputs| - 1])
  }

  /** `k` edges in a row. */
  function Edges(k: nat): seq<Input>
  {
    seq(k, _ => Edge)
  }

  /** A burst of `k >= 1` edges leaves the flag raised and changes nothing else. */
  lemma {:induction false} BurstRaisesFlag(s: Button, k: nat)
    requires k >= 1
    ensures RunInputs(s, Edges(k)) == s.(flag := true)
  {
    assert Edges(k)[..k - 1] == Edges(k - 1);
    if k > 1 {
      BurstRaisesFlag(s, k - 1);
    } else {
      assert Edges(0) == [];
    }
  }

  /**
   * Any burst of `k >= 1` edges followed by one pass of the main loop inverts
   * the LED exactly once, waits once, and leaves the flag lowered.
   */
  lemma BurstTogglesOnce(s: Button, k: nat)
    requires k >= 1
    ensures RunInputs(s, Edges(k) + [Pass])
            == Button(false, ToggleBit(s.portb, LED_PIN), s.delays + [DEBOUNCE_DELAY_MS])
  {
    BurstRaisesFlag(s, k);
    assert (Edges(k) + [Pass])[..k] == Edges(k);
  }

  /** Passes of the main loop with no edge since the last toggle change nothing. */
  lemma {:induction false} IdlePassesChangeNothing(s: Button, n: nat)
    requires !s.flag
    ensures RunInputs(s, seq(n, _ => Pass)) == s
  {
    if n > 0 {
      assert seq(n, _ => Pass)[..n - 1] == seq(n - 1, _ => Pass);
      IdlePassesChangeNothing(s, n - 1);
    }
  }

  /** Number of times `i` occurs in `inputs`. */
  function Occurrences(inputs: seq<Input>, i: Input): nat
  {
    multiset(inputs)[i]
  }

  /**
   * Over any run, the toggles are the waits recorded; each one inverted PB5,
   * every wait is 1000 ms, and there are never more toggles than passes of
   * the loop, nor more than edges (counting a flag already raised at the start).
   */
  lemma {:induction false} RunAccounting(s: Button, inputs: seq<Input>)
    ensures var r := RunInputs(s, inputs);
      var toggles := |r.delays| - |s.delays|;
      toggles >= 0
      && r.delays == s.delays + Repeat(DEBOUNCE_DELAY_MS, toggles)
      && r.portb == ToggledTimes(s.portb, LED_PIN, toggles)
      && toggles <= Occurrences(inputs, Pass)
      && toggles + (if r.flag then 1 else 0) <= Occurrences(inputs, Edge) + (if s.flag then 1 else 0)
  {
    if inputs != [] {
      var init, last := inputs[..|inputs| - 1], inputs[|inputs| - 1];
      assert inputs == init + [last];
      assert multiset(inputs) == multiset(init) + multiset{last};
      RunAccounting(s, init);
      var p := RunInputs(s, init);
      var t := |p.delays| - |s.delays|;
      if last == Pass && p.flag {
        ToggledTimesStep(s.portb, LED_PIN, t);
        assert Repeat(DEBOUNCE_DELAY_MS, t + 1) == Repeat(DEBOUNCE_DELAY_MS, t) + [DEBOUNCE_DELAY_MS];
      }
    }
  }

  // ---------------------------------------------------------------------------
  // The program

  class ButtonProgram {
    var ddrb: bv8
    var portb: bv8
    var portd: bv8
    var eicra: bv8
    var eimsk: bv8
    /** `volatile bool is_interrupt_button`. */
    var flag: bool
    /** The global interrupt flag I of SREG. */
    var interruptsEnabled: bool
    /** Every `_delay_ms` the program has asked for, in order. */
    var delays: seq<int>

    function State(): Button
      reads this
    {
      Button(flag, portb, delays)
    }

    /** Power-on reset: registers read 0, the flag starts false, interrupts are off. */
    constructor ()
      ensures ddrb == 0 && portb == 0 && portd == 0 && eicra == 0 && eimsk == 0
      ensures !flag && !interruptsEnabled && delays == []
    {
      ddrb, portb, portd, eicra, eimsk := 0, 0, 0, 0, 0;
      flag, interruptsEnabled, delays := false, false, [];
    }

    /** The start of `main`: LED output, pull-up on PD2, falling edge on INT0, INT0 enabled, `sei()`. */
    method Setup()
      modifies this
      ensures ddrb == SetBit(old(ddrb), LED_PIN)
      ensures portd == SetBit(old(portd), BUTTON_PIN)
      ensures eicra == SetBit(old(eicra), ISC01)
      ensures eimsk == SetBit(old(eimsk), INT0)
      ensures interruptsEnabled
      ensures State() == old(State())
    {
      ddrb := ddrb | Mask(LED_PIN);
      portd := portd | Mask(BUTTON_PIN);
      eicra := eicra | Mask(ISC01);
      eimsk := eimsk | Mask(INT0);
      interruptsEnabled := true;
    }

    /**
     * `ISR(INT0_vect)`, dispatched only while INT0 and the I flag are enabled.
     * Its `cli()` lasts only until the return from interrupt sets I again.
     */
    method Int0Isr()
      requires interruptsEnabled && IsSet(eimsk, INT0)
      modifies this`flag, this`interruptsEnabled
      ensures State() == OnEdge(old(State()))
      ensures interruptsEnabled
    {
      interruptsEnabled := false;
      flag := true;
      interruptsEnabled := true;
    }

    /** One pass of `while (1)`. */
    method LoopIteration()
      modifies this`flag, this`portb, this`delays, this`interruptsEnabled
      ensures State() == Poll(old(State()))
      ensures interruptsEnabled == (old(interruptsEnabled) || old(flag))
    {
      if flag {
        portb := portb ^ Mask(LED_PIN);
        delays := delays + [DEBOUNCE_DELAY_MS];
        interruptsEnabled := true;
        flag := false;
      }
    }

    /** The program driven by `inputs`: each edge runs the handler, each pass runs the loop body. */
    method Run(inputs: seq<Input>)
      requires interruptsEnabled && IsSet(eimsk, INT0)
      modifies this`flag, this`portb, this`delays, this`interruptsEnabled
      ensures State() == RunInputs(old(State()), inputs)
      ensures interruptsEnabled
    {
      var i := 0;
      while i < |inputs|
        invariant i <= |inputs|
        invariant interruptsEnabled && eimsk == old(eimsk)
        invariant State() == RunInputs(old(State()), inputs[..i])
      {
        assert inputs[..i + 1][..i] == inputs[..i];
        if inputs[i] == Edge {
          Int0Isr();
        } else {
          LoopIteration();
        }
        i := i + 1;
      }
      assert inputs[..i] == inputs;
    }
  }
}
