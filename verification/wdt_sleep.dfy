/**
 * The watchdog sleep/wake cycle (src/main-wdt-sleep.c). At start the LED on
 * PB5 blinks three times quickly; with interrupts off the watchdog is put in
 * interrupt-only mode with a 4 s period; then, forever: enable interrupts,
 * restart the watchdog, sleep in power-down, wake on the watchdog interrupt,
 * disable interrupts and blink three times slowly.
 *
 * What the program does is kept as a trace of events; the register values
 * are kept beside it, with WDIF, the flag of a watchdog time-out whose
 * interrupt has not run yet. Sleeping is waiting for the watchdog interrupt,
 * which is the only wake source the program arms. The watchdog keeps counting
 * while the CPU blinks with interrupts off, and the 5 s wake-up blink outlasts
 * its 4 s period: from the second pass on, a time-out is pending when `sei()`
 * runs, and its handler runs before the sleep.
 */
module WdtSleep {
  import opened Registers
  import opened Delays

  /** The LED on D13. */
  const LED_PIN: BitIndex := PB5
  const STARTUP_BLINKS: int := 3
  const STARTUP_TIMEOUT_MS: int := 100
  const WAKE_BLINKS: int := 3
  const WAKE_TIMEOUT_MS: int := 1000
  /** Watchdog oscillator cycles per millisecond (128 kHz). */
  const WDT_CYCLES_PER_MS: nat := 128

  /** `(1 << WDIE) | (0 << WDE) | (1 << WDP3)`, the value the watchdog is configured with. */
  const WDT_CONFIG: bv8 := Mask(WDIE) | Mask(WDP3)

  /** What the program does, in the order it does it. */
  datatype Event =
    | LedOn                   // set_bit(PORTB, LED_PIN)
    | LedOff                  // clear_bit(PORTB, LED_PIN)
    | Delay(ms: int)          // _delay_ms(ms)
    | Cli                     // cli()
    | Sei                     // sei()
    | WdtWrite(value: bv8)    // a write to WDTCSR
    | WdtReset                // wdt_reset()
    | Sleep                   // the sleep instruction
    | WatchdogInterrupt       // ISR(WDT_vect), which ends the sleep

  predicate IsLed(e: Event)
  {
    e.LedOn? || e.LedOff?
  }

  // ---------------------------------------------------------------------------
  // Projections of a trace

  /** The LED writes of a trace, in order. */
  function LedEvents(s: seq<Event>): seq<Event>
  {
    if s == [] then []
    else LedEvents(s[..|s| - 1]) + (if IsLed(s[|s| - 1]) then [s[|s| - 1]] else [])
  }

  /** The delays of a trace, in order. */
  function DelayEvents(s: seq<Event>): seq<int>
  {
    if s == [] then []
    else DelayEvents(s[..|s| - 1]) + (if s[|s| - 1].Delay? then [s[|s| - 1].ms] else [])
  }

  /** How many times `e` occurs in a trace. */
  function Occurrences(s: seq<Event>, e: Event): nat
  {
    if s == [] then 0
    else Occurrences(s[..|s| - 1], e) + (if s[|s| - 1] == e then 1 else 0)
  }

  /** Whether the global interrupt flag is set after `s`, if it was `before` at its start. */
  function InterruptsOnAfter(s: seq<Event>, before: bool): bool
  {
    if s == [] then before
    else if s[|s| - 1] == Cli then false
    else if s[|s| - 1] == Sei then true
    else InterruptsOnAfter(s[..|s| - 1], before)
  }

  /** The LED writes of a concatenation are those of its parts. */
  lemma {:induction false} LedEventsAppend(a: seq<Event>, b: seq<Event>)
    ensures LedEvents(a + b) == LedEvents(a) + LedEvents(b)
  {
    if b == [] {
      assert a + b == a;
    } else {
      var b' := b[..|b| - 1];
      assert (a + b)[..|a + b| - 1] == a + b';
      LedEventsAppend(a, b');
    }
  }

  /** The delays of a concatenation are those of its parts. */
  lemma {:induction false} DelayEventsAppend(a: seq<Event>, b: seq<Event>)
    ensures DelayEvents(a + b) == DelayEvents(a) + DelayEvents(b)
  {
    if b == [] {
      assert a + b == a;
    } else {
      var b' := b[..|b| - 1];
      assert (a + b)[..|a + b| - 1] == a + b';
      DelayEventsAppend(a, b');
    }
  }

  /** Occurrences in a concatenation add up. */
  lemma {:induction false} OccurrencesAppend(a: seq<Event>, b: seq<Event>, e: Event)
    ensures Occurrences(a + b, e) == Occurrences(a, e) + Occurrences(b, e)
  {
    if b == [] {
      assert a + b == a;
    } else {
      var b' := b[..|b| - 1];
      assert (a + b)[..|a + b| - 1] == a + b';
      OccurrencesAppend(a, b', e);
    }
  }

  /** An event absent from a trace occurs zero times in it. */
  lemma {:induction false} OccurrencesAbsent(s: seq<Event>, e: Event)
    requires e !in s
    ensures Occurrences(s, e) == 0
  {
    if s != [] {
      assert forall x :: x in s[..|s| - 1] ==> x in s;
      OccurrencesAbsent(s[..|s| - 1], e);
    }
  }

  /** An event occurs once in a trace where it appears only at one place. */
  lemma OccursOnce(a: seq<Event>, x: Event, b: seq<Event>)
    requires x !in a && x !in b
    ensures Occurrences(a + [x] + b, x) == 1
  {
    OccurrencesAbsent(a, x);
    OccurrencesAbsent(b, x);
    assert [x][..0] == [];
    OccurrencesAppend(a, [x], x);
    OccurrencesAppend(a + [x], b, x);
  }

  /** The projections of a single event. */
  lemma ProjectionsSingle(e: Event)
    ensures LedEvents([e]) == if IsLed(e) then [e] else []
    ensures DelayEvents([e]) == if e.Delay? then [e.ms] else []
  {
    assert [e][..0] == [];
  }

  /** A trace without LED writes projects to nothing. */
  lemma {:induction false} NoLedEvents(s: seq<Event>)
    requires forall e :: e in s ==> !IsLed(e)
    ensures LedEvents(s) == []
  {
    if s != [] {
      assert s[|s| - 1] in s;
      assert forall e :: e in s[..|s| - 1] ==> e in s;
      NoLedEvents(s[..|s| - 1]);
    }
  }

  /** Events other than `cli()` and `sei()` leave the global interrupt flag as it was. */
  lemma {:induction false} GateUnchanged(a: seq<Event>, b: seq<Event>, before: bool)
    requires Cli !in b && Sei !in b
    ensures InterruptsOnAfter(a + b, before) == InterruptsOnAfter(a, before)
  {
    if b != [] {
      var b' := b[..|b| - 1];
      assert (a + b)[..|a + b| - 1] == a + b';
      assert (a + b)[|a + b| - 1] == b[|b| - 1] && b[|b| - 1] in b;
      assert forall e :: e in b' ==> e in b;
      GateUnchanged(a, b', before);
    } else {
      assert a + b == a;
    }
  }

  // ---------------------------------------------------------------------------
  // blink_led

  /** `n` on/off pairs. */
  function Pulses(n: nat): seq<Event>
  {
    if n == 0 then [] else Pulses(n - 1) + [LedOn, LedOff]
  }

  lemma {:induction false} PulsesAdd(m: nat, n: nat)
    ensures Pulses(m) + Pulses(n) == Pulses(m + n)
  {
    if n > 0 {
      PulsesAdd(m, n - 1);
    }
  }

  /** Pass `i` of the `for` loop of `blink_led(count, timeoutMs)`: the last pass skips the off-delay. */
  function BlinkPass(i: int, count: int, timeoutMs: int): seq<Event>
  {
    [LedOn, Delay(timeoutMs), LedOff] + (if i < count - 1 then [Delay(timeoutMs)] else [])
  }

  /** The first `n` passes of that loop. */
  function BlinkPrefix(n: nat, count: int, timeoutMs: int): seq<Event>
  {
    if n == 0 then [] else BlinkPrefix(n - 1, count, timeoutMs) + BlinkPass(n - 1, count, timeoutMs)
  }

  /** Passes the loop makes: `count`, or none when `count <= 0`. */
  function Passes(count: int): nat
  {
    if count > 0 then count else 0
  }

  /** Everything `blink_led(count, timeoutMs)` does. */
  function BlinkEvents(count: int, timeoutMs: int): seq<Event>
  {
    BlinkPrefix(Passes(count), count, timeoutMs)
  }

  /** The on-wait-off part of a pass writes the LED on then off and waits once. */
  lemma PulseProjections(t: int)
    ensures LedEvents([LedOn, Delay(t), LedOff]) == [LedOn, LedOff]
    ensures DelayEvents([LedOn, Delay(t), LedOff]) == [t]
  {
    var s1, s2, s3 := [LedOn], [LedOn, Delay(t)], [LedOn, Delay(t), LedOff];
    assert s1[..0] == [] && s2[..1] == s1 && s3[..2] == s2;
    assert LedEvents(s1) == [LedOn] && DelayEvents(s1) == [];
    assert LedEvents(s2) == [LedOn] && DelayEvents(s2) == [t];
  }

  /** One pass writes the LED on then off, and waits once or, unless it is the last, twice. */
  lemma BlinkPassShape(i: int, count: int, t: int)
    ensures LedEvents(BlinkPass(i, count, t)) == [LedOn, LedOff]
    ensures DelayEvents(BlinkPass(i, count, t)) == if i < count - 1 then [t, t] else [t]
    ensures forall e :: e in BlinkPass(i, count, t) ==> e == LedOn || e == LedOff || e == Delay(t)
  {
    var pulse := [LedOn, Delay(t), LedOff];
    PulseProjections(t);
    if i < count - 1 {
      ProjectionsSingle(Delay(t));
      LedEventsAppend(pulse, [Delay(t)]);
      DelayEventsAppend(pulse, [Delay(t)]);
    } else {
      assert BlinkPass(i, count, t) == pulse;
    }
  }

  /** The first `n` passes write the LED `n` times on then off. */
  lemma {:induction false} BlinkPrefixLeds(n: nat, count: int, t: int)
    ensures LedEvents(BlinkPrefix(n, count, t)) == Pulses(n)
  {
    if n > 0 {
      var prev, pass := BlinkPrefix(n - 1, count, t), BlinkPass(n - 1, count, t);
      BlinkPrefixLeds(n - 1, count, t);
      assert LedEvents(pass) == [LedOn, LedOff] by {
        BlinkPassShape(n - 1, count, t);
      }
      LedEventsAppend(prev, pass);
    }
  }

  /** Waits of the first `n` passes: two per pass, one fewer once the last pass is done. */
  function PrefixDelayCount(n: nat, count: int): nat
  {
    if n == 0 then 0 else if n < count then 2 * n else 2 * n - 1
  }

  /** The first `n` passes wait `t` ms each time, as often as `PrefixDelayCount` says. */
  lemma {:induction false} BlinkPrefixDelays(n: nat, count: int, t: int)
    requires n <= Passes(count)
    ensures DelayEvents(BlinkPrefix(n, count, t)) == Repeat(t, PrefixDelayCount(n, count))
  {
    if n > 0 {
      var prev, pass := BlinkPrefix(n - 1, count, t), BlinkPass(n - 1, count, t);
      var before := PrefixDelayCount(n - 1, count);
      var last := if n - 1 < count - 1 then 2 else 1;
      BlinkPrefixDelays(n - 1, count, t);
      assert DelayEvents(pass) == Repeat(t, last) by {
        BlinkPassShape(n - 1, count, t);
      }
      assert BlinkPrefix(n, count, t) == prev + pass;
      DelayEventsAppend(prev, pass);
      assert DelayEvents(prev + pass) == Repeat(t, before) + Repeat(t, last);
      RepeatAdd(t, before, last);
      assert before + last == PrefixDelayCount(n, count);
    }
  }

  /** The first `n` passes only write the LED and wait `t` ms. */
  lemma {:induction false} BlinkPrefixEvents(n: nat, count: int, t: int)
    ensures forall e :: e in BlinkPrefix(n, count, t) ==> e == LedOn || e == LedOff || e == Delay(t)
  {
    if n > 0 {
      BlinkPrefixEvents(n - 1, count, t);
      BlinkPassShape(n - 1, count, t);
    }
  }

  /**
   * `blink_led(count, t)` writes the LED exactly `count` times on then off,
   * strictly alternating, and waits `t` ms exactly `2 * count - 1` times (no
   * wait after the last pulse); with `count <= 0` it does nothing. It never
   * touches the interrupt flag, the watchdog or the sleep controller.
   */
  lemma BlinkLedBehaviour(count: int, t: int)
    ensures LedEvents(BlinkEvents(count, t)) == Pulses(Passes(count))
    ensures count >= 1 ==> DelayEvents(BlinkEvents(count, t)) == Repeat(t, 2 * count - 1)
    ensures count >= 1 ==> Total(DelayEvents(BlinkEvents(count, t))) == (2 * count - 1) * t
    ensures count <= 0 ==> BlinkEvents(count, t) == []
    ensures forall e :: e in BlinkEvents(count, t) ==> e == LedOn || e == LedOff || e == Delay(t)
  {
    BlinkPrefixLeds(Passes(count), count, t);
    BlinkPrefixEvents(Passes(count), count, t);
    if count >= 1 {
      var waits := 2 * count - 1;
      assert DelayEvents(BlinkEvents(count, t)) == Repeat(t, waits) by {
        BlinkPrefixDelays(Passes(count), count, t);
      }
      TotalRepeat(t, waits);
    }
  }

  // ---------------------------------------------------------------------------
  // The watchdog configuration

  /** The four watchdog modes that WDE and WDIE select (WDTON fuse unprogrammed). */
  datatype WatchdogMode = WatchdogStopped | InterruptOnly | ResetOnly | InterruptAndReset

  function ModeOf(wdtcsr: bv8): WatchdogMode
  {
    match (IsSet(wdtcsr, WDE), IsSet(wdtcsr, WDIE))
    case (false, false) => WatchdogStopped
    case (false, true) => InterruptOnly
    case (true, false) => ResetOnly
    case (true, true) => InterruptAndReset
  }

  /** The prescaler field WDP3:WDP0. */
  function PrescalerOf(wdtcsr: bv8): (p: nat)
    ensures p < 16
  {
    (if IsSet(wdtcsr, WDP3) then 8 else 0) + (if IsSet(wdtcsr, WDP2) then 4 else 0)
    + (if IsSet(wdtcsr, WDP1) then 2 else 0) + (if IsSet(wdtcsr, WDP0) then 1 else 0)
  }

  /** Watchdog oscillator cycles before time-out for WDP3:0 = 0..9: 2K, 4K, ..., 1024K (ATmega328P datasheet, table 10-3). */
  const TIMEOUT_CYCLES: seq<nat> := [2048, 4096, 8192, 16384, 32768, 65536, 131072, 262144, 524288, 1048576]

  /** Watchdog oscillator cycles before time-out: 2K cycles doubled `p` times (values above 9 are reserved). */
  function TimeoutCycles(p: nat): (c: nat)
    requires p <= 9
    ensures c == TIMEOUT_CYCLES[p]
  {
    if p == 0 then 2048 else 2 * TimeoutCycles(p - 1)
  }

  /** The watchdog interrupts without resetting and its prescaler is not a reserved value. */
  predicate WakesOnTimeout(wdtcsr: bv8)
  {
    ModeOf(wdtcsr) == InterruptOnly && PrescalerOf(wdtcsr) <= 9
  }

  /** Time-out period of the watchdog in milliseconds at 128 kHz: from 16 ms up to 8192 ms. */
  function PeriodMsOf(wdtcsr: bv8): (ms: nat)
    requires PrescalerOf(wdtcsr) <= 9
    ensures ms * WDT_CYCLES_PER_MS == TimeoutCycles(PrescalerOf(wdtcsr))
    ensures 16 <= ms <= 8192
  {
    TimeoutCycles(PrescalerOf(wdtcsr)) / WDT_CYCLES_PER_MS
  }

  /**
   * The final watchdog value has WDE clear and WDIE set, so the watchdog only
   * interrupts and never resets; its prescaler 8 gives 512K cycles, 4096 ms at 128 kHz.
   */
  lemma WatchdogConfiguration()
    ensures !IsSet(WDT_CONFIG, WDE) && IsSet(WDT_CONFIG, WDIE)
    ensures ModeOf(WDT_CONFIG) == InterruptOnly
    ensures PrescalerOf(WDT_CONFIG) == 8
    ensures TimeoutCycles(8) == 524_288 == 4096 * WDT_CYCLES_PER_MS
    ensures WakesOnTimeout(WDT_CONFIG) && PeriodMsOf(WDT_CONFIG) == 4096
  {
  }

  // ---------------------------------------------------------------------------
  // The start of main and one pass of the loop

  /** The watchdog set-up of `main`: `cli()`, the change-enable write, the configuration write. */
  function ConfigureEvents(wdtcsr: bv8): seq<Event>
  {
    [Cli, WdtWrite(wdtcsr | Mask(WDCE) | Mask(WDE)), WdtWrite(WDT_CONFIG)]
  }

  /** Everything the start of `main` does, from a watchdog register that read `wdtcsr`. */
  function StartupEvents(wdtcsr: bv8): seq<Event>
  {
    BlinkEvents(STARTUP_BLINKS, STARTUP_TIMEOUT_MS) + ConfigureEvents(wdtcsr)
  }

  /**
   * The watchdog set-up writes the change-enable value (WDCE and WDE set)
   * right before the final configuration.
   */
  lemma ConfigureWrites(head: seq<Event>, wdtcsr: bv8)
    ensures var s := head + ConfigureEvents(wdtcsr);
      && s[|head|] == Cli
      && s[|s| - 2].WdtWrite? && IsSet(s[|s| - 2].value, WDCE) && IsSet(s[|s| - 2].value, WDE)
      && s[|s| - 1] == WdtWrite(WDT_CONFIG)
  {
  }

  /**
   * After events that write no watchdog register, every watchdog write of
   * the set-up comes after its `cli()`, so with interrupts off, and
   * interrupts are still off at the end.
   */
  lemma ConfigureMasked(head: seq<Event>, wdtcsr: bv8, before: bool)
    requires forall e :: e in head ==> !e.WdtWrite?
    ensures var s := head + ConfigureEvents(wdtcsr);
      && (forall k :: 0 <= k < |s| && s[k].WdtWrite? ==> |head| < k && !InterruptsOnAfter(s[..k], before))
      && !InterruptsOnAfter(s, before)
  {
    var s := head + ConfigureEvents(wdtcsr);
    var b := |head|;
    assert s[..b + 1] == head + [Cli];
    assert s[..b + 2][..b + 1] == s[..b + 1];
    assert s[..|s| - 1] == s[..b + 2];
    assert !InterruptsOnAfter(s[..b + 1], before);
    assert !InterruptsOnAfter(s[..b + 2], before);
    assert forall k :: 0 <= k < b ==> s[k] == head[k] && head[k] in head;
  }

  /** No part of the watchdog set-up writes the LED. */
  lemma ConfigureWritesNoLed(wdtcsr: bv8, j: nat)
    requires j <= 3
    ensures LedEvents(ConfigureEvents(wdtcsr)[..j]) == []
  {
    var part := ConfigureEvents(wdtcsr)[..j];
    assert forall e :: e in part ==> e in ConfigureEvents(wdtcsr);
    NoLedEvents(part);
  }

  /** Before each watchdog write of the set-up, the LED writes are those of `head`. */
  lemma ConfigureLeavesLed(head: seq<Event>, wdtcsr: bv8, k: nat)
    requires |head| < k <= |head| + 3
    ensures LedEvents((head + ConfigureEvents(wdtcsr))[..k]) == LedEvents(head)
  {
    var part := ConfigureEvents(wdtcsr)[..k - |head|];
    ConfigureWritesNoLed(wdtcsr, k - |head|);
    assert (head + ConfigureEvents(wdtcsr))[..k] == head + part;
    LedEventsAppend(head, part);
  }

  /**
   * The start blinks three times before any watchdog write, every watchdog
   * write happens with interrupts off, the change-enable write (WDCE and WDE
   * set) comes right before the final configuration write, and interrupts are
   * still off at the end.
   */
  lemma StartupOrder(wdtcsr: bv8, before: bool)
    ensures var s := StartupEvents(wdtcsr);
      && (forall k :: 0 <= k < |s| && s[k].WdtWrite? ==>
            LedEvents(s[..k]) == Pulses(Passes(STARTUP_BLINKS)) && !InterruptsOnAfter(s[..k], before))
      && s[|s| - 2].WdtWrite? && IsSet(s[|s| - 2].value, WDCE) && IsSet(s[|s| - 2].value, WDE)
      && s[|s| - 1] == WdtWrite(WDT_CONFIG)
      && !InterruptsOnAfter(s, before)
  {
    var blink := BlinkEvents(STARTUP_BLINKS, STARTUP_TIMEOUT_MS);
    var s := StartupEvents(wdtcsr);
    BlinkLedBehaviour(STARTUP_BLINKS, STARTUP_TIMEOUT_MS);
    ConfigureWrites(blink, wdtcsr);
    ConfigureMasked(blink, wdtcsr, before);
    forall k | 0 <= k < |s| && s[k].WdtWrite?
      ensures LedEvents(s[..k]) == Pulses(Passes(STARTUP_BLINKS))
    {
      ConfigureLeavesLed(blink, wdtcsr, k);
    }
  }


  // ---------------------------------------------------------------------------
  // One pass of the loop
  //
  // The watchdog keeps running while the CPU is awake. Time passes only in the
  // waits of `blink_led` and in the sleep; the other instructions take none.
  // The wake-up from sleep is itself a time-out, so the watchdog counts a full
  // period again from there. If the blink that follows, with interrupts off,
  // lasts a period or more, the watchdog times out during it and its interrupt
  // stays pending (WDIF is one flag, so one pending interrupt however many
  // time-outs). The next `sei()` lets it run, after `wdt_reset()`, the
  // instruction that follows `sei` and so runs before any pending interrupt.

  /** How long `blink_led(count, t)` waits: `2 count - 1` waits of `t` ms, or none. */
  function BlinkWaitMs(count: int, t: int): int
  {
    if count >= 1 then (2 * count - 1) * t else 0
  }

  /** That is the total of the delays `blink_led` records. */
  lemma BlinkWaitIsTotal(count: int, t: int)
    ensures Total(DelayEvents(BlinkEvents(count, t))) == BlinkWaitMs(count, t)
  {
    BlinkLedBehaviour(count, t);
    if count <= 0 {
      assert DelayEvents([]) == [];
    }
  }

  /** Whether the watchdog times out while `blink_led(count, t)` runs, when its period is `periodMs`. */
  predicate BlinkTimesOut(count: int, t: int, periodMs: int)
  {
    BlinkWaitMs(count, t) >= periodMs
  }

  /**
   * A pass up to its blink: `sei()`, `wdt_reset()`, the pending watchdog
   * interrupt if there is one, the sleep, the wake-up interrupt, `cli()`.
   */
  function WakeHead(pending: bool): seq<Event>
  {
    if pending then [Sei, WdtReset, WatchdogInterrupt, Sleep, WatchdogInterrupt, Cli]
    else [Sei, WdtReset, Sleep, WatchdogInterrupt, Cli]
  }

  /** Where the sleep is in `WakeHead(pending)`. */
  function SleepAt(pending: bool): nat
  {
    if pending then 3 else 2
  }

  /** Everything one pass of the `while (1)` loop does, when it ends with `blink_led(count, t)`. */
  function WakeCycle(pending: bool, count: int, t: int): seq<Event>
  {
    WakeHead(pending) + BlinkEvents(count, t)
  }

  /**
   * The part of a pass before the blink sleeps with interrupts on and is
   * woken by the watchdog interrupt; a pending interrupt runs before the
   * sleep, with interrupts on; interrupts are off at the end.
   */
  lemma WakeHeadGate(pending: bool, before: bool)
    ensures var h, s := WakeHead(pending), SleepAt(pending);
      && h[s] == Sleep && InterruptsOnAfter(h[..s], before) && h[s + 1] == WatchdogInterrupt
      && (pending ==> h[2] == WatchdogInterrupt && InterruptsOnAfter(h[..2], before))
      && !InterruptsOnAfter(h, before)
  {
    assert [Sei, WdtReset][..1] == [Sei];
    if pending {
      assert WakeHead(pending)[..2] == [Sei, WdtReset];
      assert WakeHead(pending)[..3] == [Sei, WdtReset, WatchdogInterrupt];
      assert [Sei, WdtReset, WatchdogInterrupt][..2] == [Sei, WdtReset];
    } else {
      assert WakeHead(pending)[..2] == [Sei, WdtReset];
    }
  }

  /**
   * The part of a pass before the blink sleeps once, runs the watchdog
   * handler once more when an interrupt was pending, and writes no LED.
   */
  lemma WakeHeadWrites(pending: bool)
    ensures Occurrences(WakeHead(pending), WatchdogInterrupt) == if pending then 2 else 1
    ensures Occurrences(WakeHead(pending), Sleep) == 1
    ensures LedEvents(WakeHead(pending)) == [] && forall e :: e in WakeHead(pending) ==> !IsLed(e)
  {
    var h := WakeHead(pending);
    if pending {
      assert h == [Sei, WdtReset, WatchdogInterrupt] + [Sleep] + [WatchdogInterrupt, Cli];
      OccursOnce([Sei, WdtReset, WatchdogInterrupt], Sleep, [WatchdogInterrupt, Cli]);
      assert h == [Sei, WdtReset] + [WatchdogInterrupt] + [Sleep, WatchdogInterrupt, Cli];
      assert [Sleep, WatchdogInterrupt, Cli] == [Sleep] + [WatchdogInterrupt] + [Cli];
      OccursOnce([Sleep], WatchdogInterrupt, [Cli]);
      OccursOnce([Sei, WdtReset], WatchdogInterrupt, []);
      OccurrencesAppend([Sei, WdtReset] + [WatchdogInterrupt], [Sleep, WatchdogInterrupt, Cli], WatchdogInterrupt);
    } else {
      assert h == [Sei, WdtReset] + [Sleep] + [WatchdogInterrupt, Cli];
      OccursOnce([Sei, WdtReset], Sleep, [WatchdogInterrupt, Cli]);
      assert h == [Sei, WdtReset, Sleep] + [WatchdogInterrupt] + [Cli];
      OccursOnce([Sei, WdtReset, Sleep], WatchdogInterrupt, [Cli]);
    }
    NoLedEvents(h);
  }

  /**
   * A call of `blink_led` after events that leave interrupts off and write no
   * LED: every LED write then happens with interrupts off, and interrupts are
   * still off at the end.
   */
  lemma BlinkAfterGate(head: seq<Event>, count: int, t: int, before: bool)
    requires !InterruptsOnAfter(head, before)
    requires forall e :: e in head ==> !IsLed(e)
    ensures var c := head + BlinkEvents(count, t);
      && (forall k :: 0 <= k < |c| && IsLed(c[k]) ==> |head| <= k && !InterruptsOnAfter(c[..k], before))
      && !InterruptsOnAfter(c, before)
  {
    var blink := BlinkEvents(count, t);
    var c := head + blink;
    BlinkLedBehaviour(count, t);
    assert forall k :: 0 <= k < |head| ==> c[k] == head[k] && head[k] in head;
    forall k | |head| <= k < |c|
      ensures !InterruptsOnAfter(c[..k], before)
    {
      var j := k - |head|;
      assert c[..k] == head + blink[..j];
      assert forall e :: e in blink[..j] ==> e in blink;
      GateUnchanged(head, blink[..j], before);
    }
    GateUnchanged(head, blink, before);
  }

  /** The same call adds the pulses of the blink to the LED writes, and no sleep or watchdog interrupt. */
  lemma BlinkAfterCounts(head: seq<Event>, count: int, t: int)
    ensures var c := head + BlinkEvents(count, t);
      && Occurrences(c, WatchdogInterrupt) == Occurrences(head, WatchdogInterrupt)
      && Occurrences(c, Sleep) == Occurrences(head, Sleep)
      && LedEvents(c) == LedEvents(head) + Pulses(Passes(count))
  {
    var blink := BlinkEvents(count, t);
    BlinkLedBehaviour(count, t);
    assert WatchdogInterrupt !in blink && Sleep !in blink;
    OccurrencesAbsent(blink, WatchdogInterrupt);
    OccurrencesAbsent(blink, Sleep);
    OccurrencesAppend(head, blink, WatchdogInterrupt);
    OccurrencesAppend(head, blink, Sleep);
    LedEventsAppend(head, blink);
  }

  /**
   * A pass sleeps exactly once and runs the watchdog handler once, or twice
   * when an interrupt was pending from the blink before it.
   */
  lemma WakeCycleHandlerRuns(pending: bool, count: int, t: int)
    ensures Occurrences(WakeCycle(pending, count, t), WatchdogInterrupt) == if pending then 2 else 1
    ensures Occurrences(WakeCycle(pending, count, t), Sleep) == 1
  {
    WakeHeadWrites(pending);
    BlinkAfterCounts(WakeHead(pending), count, t);
  }

  /**
   * A pass sleeps with interrupts enabled (after `sei()` and `wdt_reset()`),
   * the watchdog interrupt comes right after its one sleep, and a pending
   * interrupt runs before the sleep.
   */
  lemma WakeCycleSleeps(pending: bool, count: int, t: int, before: bool)
    ensures var c, s := WakeCycle(pending, count, t), SleepAt(pending);
      && c[s] == Sleep && InterruptsOnAfter(c[..s], before) && c[s + 1] == WatchdogInterrupt
      && Occurrences(c, Sleep) == 1
      && (pending ==> c[2] == WatchdogInterrupt && InterruptsOnAfter(c[..2], before))
  {
    var h, c, s := WakeHead(pending), WakeCycle(pending, count, t), SleepAt(pending);
    assert h[s] == Sleep && InterruptsOnAfter(h[..s], before) && h[s + 1] == WatchdogInterrupt
        && (pending ==> h[2] == WatchdogInterrupt && InterruptsOnAfter(h[..2], before)) by {
      WakeHeadGate(pending, before);
    }
    assert c[..s] == h[..s] && c[s] == h[s] && c[s + 1] == h[s + 1];
    assert c[..2] == h[..2] && c[2] == h[2];
    assert Occurrences(c, Sleep) == 1 by {
      WakeCycleHandlerRuns(pending, count, t);
    }
  }

  /** A pass writes the LED exactly as its blink does: `count` pulses (none when `count <= 0`). */
  lemma WakeCycleLeds(pending: bool, count: int, t: int)
    ensures LedEvents(WakeCycle(pending, count, t)) == Pulses(Passes(count))
  {
    WakeHeadWrites(pending);
    BlinkAfterCounts(WakeHead(pending), count, t);
  }

  /**
   * Only after the wake-up does a pass write the LED, and it does so with
   * interrupts disabled at every write; interrupts stay disabled until the
   * next pass's `sei()`.
   */
  lemma WakeCycleBlinksMasked(pending: bool, count: int, t: int, before: bool)
    ensures var c := WakeCycle(pending, count, t);
      && (forall k :: 0 <= k < |c| && IsLed(c[k]) ==> SleepAt(pending) + 1 < k && !InterruptsOnAfter(c[..k], before))
      && !InterruptsOnAfter(c, before)
  {
    WakeHeadGate(pending, before);
    WakeHeadWrites(pending);
    BlinkAfterGate(WakeHead(pending), count, t, before);
  }

  // ---------------------------------------------------------------------------
  // Many passes

  /**
   * Whether a watchdog interrupt is pending at the start of pass `k` (from 0):
   * `pending` for the first pass; `later` for every other, as the blink of the
   * pass before left it.
   */
  function PendingAt(k: nat, pending: bool, later: bool): bool
  {
    if k == 0 then pending else later
  }

  /** Everything `n` passes of a loop ending with `blink_led(count, t)` do. */
  function WakeCycles(n: nat, pending: bool, later: bool, count: int, t: int): seq<Event>
  {
    if n == 0 then []
    else WakeCycles(n - 1, pending, later, count, t) + WakeCycle(PendingAt(n - 1, pending, later), count, t)
  }

  /** A trace ending with the first part of a pass, followed by its blink, ends with the whole pass. */
  lemma AppendBlink(prefix: seq<Event>, pending: bool, count: int, t: int)
    ensures prefix + WakeCycle(pending, count, t) == (prefix + WakeHead(pending)) + BlinkEvents(count, t)
  {
  }

  /** A trace ending with `n` passes, followed by pass `n`, ends with `n + 1` passes. */
  lemma AppendPass(prefix: seq<Event>, n: nat, pending: bool, later: bool, count: int, t: int)
    ensures prefix + WakeCycles(n + 1, pending, later, count, t)
            == (prefix + WakeCycles(n, pending, later, count, t)) + WakeCycle(PendingAt(n, pending, later), count, t)
  {
    var prev, c := WakeCycles(n, pending, later, count, t), WakeCycle(PendingAt(n, pending, later), count, t);
    assert WakeCycles(n + 1, pending, later, count, t) == prev + c;
    assert prefix + (prev + c) == (prefix + prev) + c;
  }

  /** How many of the first `n` passes start with a watchdog interrupt pending. */
  function PendingPasses(n: nat, pending: bool, later: bool): nat
  {
    if n == 0 then 0 else (if pending then 1 else 0) + (if later then n - 1 else 0)
  }

  lemma PendingPassesStep(n: nat, pending: bool, later: bool)
    requires n > 0
    ensures PendingPasses(n, pending, later)
            == PendingPasses(n - 1, pending, later) + (if PendingAt(n - 1, pending, later) then 1 else 0)
  {
  }

  /**
   * `n` passes of the loop sleep `n` times, and run the watchdog handler once
   * per pass plus once per pass that found an interrupt pending.
   */
  lemma {:induction false} HandlerRunsPerPass(n: nat, pending: bool, later: bool, count: int, t: int)
    ensures Occurrences(WakeCycles(n, pending, later, count, t), Sleep) == n
    ensures Occurrences(WakeCycles(n, pending, later, count, t), WatchdogInterrupt)
            == n + PendingPasses(n, pending, later)
  {
    if n > 0 {
      var prev, p := WakeCycles(n - 1, pending, later, count, t), PendingAt(n - 1, pending, later);
      assert WakeCycles(n, pending, later, count, t) == prev + WakeCycle(p, count, t);
      HandlerRunsPerPass(n - 1, pending, later, count, t);
      AppendPassCounts(prev, p, count, t);
      PendingPassesStep(n, pending, later);
    }
  }

  /** One more pass after a trace adds one sleep, and one handler run or two when an interrupt was pending. */
  lemma AppendPassCounts(prev: seq<Event>, pending: bool, count: int, t: int)
    ensures Occurrences(prev + WakeCycle(pending, count, t), Sleep) == Occurrences(prev, Sleep) + 1
    ensures Occurrences(prev + WakeCycle(pending, count, t), WatchdogInterrupt)
            == Occurrences(prev, WatchdogInterrupt) + (if pending then 2 else 1)
  {
    var c := WakeCycle(pending, count, t);
    WakeCycleHandlerRuns(pending, count, t);
    OccurrencesAppend(prev, c, Sleep);
    OccurrencesAppend(prev, c, WatchdogInterrupt);
  }

  /** `n` passes of the loop write the LED as `n` blinks do: `n` times the blink's pulses. */
  lemma {:induction false} OneBlinkPerWake(n: nat, pending: bool, later: bool, count: int, t: int)
    ensures LedEvents(WakeCycles(n, pending, later, count, t)) == Pulses(n * Passes(count))
  {
    if n > 0 {
      var p := Passes(count);
      var prev := WakeCycles(n - 1, pending, later, count, t);
      var c := WakeCycle(PendingAt(n - 1, pending, later), count, t);
      var m: nat := (n - 1) * p;
      assert m + p == n * p;
      OneBlinkPerWake(n - 1, pending, later, count, t);
      assert LedEvents(prev) == Pulses(m);
      WakeCycleLeds(PendingAt(n - 1, pending, later), count, t);
      LedEventsAppend(prev, c);
      PulsesAdd(m, p);
      assert LedEvents(prev + c) == Pulses(m + p);
      assert WakeCycles(n, pending, later, count, t) == prev + c && n * Passes(count) == m + p;
    }
  }

  /**
   * The program's wake-up blink waits 5 x 1000 ms with interrupts off, longer
   * than the 4096 ms watchdog period: the watchdog always times out during it.
   */
  lemma WakeBlinkOutlastsWatchdog()
    ensures Total(DelayEvents(BlinkEvents(WAKE_BLINKS, WAKE_TIMEOUT_MS))) == 5000
    ensures BlinkTimesOut(WAKE_BLINKS, WAKE_TIMEOUT_MS, PeriodMsOf(WDT_CONFIG))
  {
    BlinkWaitIsTotal(WAKE_BLINKS, WAKE_TIMEOUT_MS);
    WatchdogConfiguration();
  }

  /**
   * With the program's constants and nothing pending at the first pass, `n`
   * passes sleep `n` times but run the watchdog handler `2n - 1` times: every
   * pass after the first also runs the interrupt left pending by the blink
   * before it. They make exactly `3n` on/off pulses.
   */
  lemma ProgramPasses(n: nat)
    requires n >= 1
    ensures var later := BlinkTimesOut(WAKE_BLINKS, WAKE_TIMEOUT_MS, PeriodMsOf(WDT_CONFIG));
      var s := WakeCycles(n, false, later, WAKE_BLINKS, WAKE_TIMEOUT_MS);
      && Occurrences(s, Sleep) == n
      && Occurrences(s, WatchdogInterrupt) == 2 * n - 1
      && LedEvents(s) == Pulses(3 * n)
  {
    var later := BlinkTimesOut(WAKE_BLINKS, WAKE_TIMEOUT_MS, PeriodMsOf(WDT_CONFIG));
    var s := WakeCycles(n, false, later, WAKE_BLINKS, WAKE_TIMEOUT_MS);
    assert later by {
      WakeBlinkOutlastsWatchdog();
    }
    assert Occurrences(s, Sleep) == n && Occurrences(s, WatchdogInterrupt) == n + PendingPasses(n, false, later) by {
      HandlerRunsPerPass(n, false, later, WAKE_BLINKS, WAKE_TIMEOUT_MS);
    }
    assert PendingPasses(n, false, later) == n - 1;
    assert LedEvents(s) == Pulses(n * Passes(WAKE_BLINKS)) by {
      OneBlinkPerWake(n, false, later, WAKE_BLINKS, WAKE_TIMEOUT_MS);
    }
    assert n * Passes(WAKE_BLINKS) == 3 * n by {
      assert Passes(WAKE_BLINKS) == 3;
    }
  }

  // ---------------------------------------------------------------------------
  // The program

  /** `set_sleep_mode(SLEEP_MODE_PWR_DOWN)`: SM2:SM0 become 010, the other SMCR bits stay. */
  function SelectPowerDown(smcr: bv8): (r: bv8)
    ensures !IsSet(r, SM2) && IsSet(r, SM1) && !IsSet(r, SM0)
    ensures IsSet(r, SE) == IsSet(smcr, SE)
    ensures forall j: BitIndex :: j > SM2 ==> IsSet(r, j) == IsSet(smcr, j)
  {
    (smcr & !(Mask(SM2) | Mask(SM1) | Mask(SM0))) | Mask(SM1)
  }

  /** Whether the program's wake-up blink leaves a watchdog interrupt pending, for the period `wdtcsr` selects. */
  predicate BlinkLeavesPending(wdtcsr: bv8)
    requires PrescalerOf(wdtcsr) <= 9
  {
    BlinkTimesOut(WAKE_BLINKS, WAKE_TIMEOUT_MS, PeriodMsOf(wdtcsr))
  }

  /** SMCR after a pass: power-down selected, sleep disabled again. */
  function AfterSleep(smcr: bv8): bv8
  {
    ClearBit(SelectPowerDown(smcr), SE)
  }

  /** A second pass leaves SMCR as the first did. */
  lemma AfterSleepSettles(smcr: bv8)
    ensures AfterSleep(AfterSleep(smcr)) == AfterSleep(smcr)
  {
    var a := AfterSleep(smcr);
    forall j: BitIndex ensures IsSet(AfterSleep(a), j) == IsSet(a, j) {
    }
    BitsDetermineByte(AfterSleep(a), a);
  }

  class WdtSleepProgram {
    var ddrb: bv8
    var portb: bv8
    var wdtcsr: bv8
    var smcr: bv8
    /** The global interrupt flag I of SREG. */
    var interruptsEnabled: bool
    /** WDIF of WDTCSR: a watchdog time-out whose interrupt has not run yet. */
    var watchdogPending: bool
    /** What the program has done so far. */
    var trace: seq<Event>

    /** Power-on reset: registers read 0, interrupts are off, nothing is pending, nothing has happened. */
    constructor ()
      ensures ddrb == 0 && portb == 0 && wdtcsr == 0 && smcr == 0
      ensures !interruptsEnabled && !watchdogPending && trace == []
    {
      ddrb, portb, wdtcsr, smcr := 0, 0, 0, 0;
      interruptsEnabled, watchdogPending, trace := false, false, [];
    }

    /** `blink_led(count, timeoutMs)`: afterwards PB5 is low if it pulsed at all, and no other PORTB bit moved. */
    method BlinkLed(count: int, timeoutMs: int) returns (waited: int)
      modifies this`portb, this`trace
      ensures trace == old(trace) + BlinkEvents(count, timeoutMs)
      ensures portb == if count >= 1 then ClearBit(old(portb), LED_PIN) else old(portb)
      ensures waited == BlinkWaitMs(count, timeoutMs)
    {
      var i := 0;
      waited := 0;
      while i < count
        invariant 0 <= i <= Passes(count)
        invariant trace == old(trace) + BlinkPrefix(i, count, timeoutMs)
        invariant portb == if i == 0 then old(portb) else ClearBit(old(portb), LED_PIN)
        invariant waited == PrefixDelayCount(i, count) * timeoutMs
      {
        ghost var done := trace;
        ClearAfterSet(portb, LED_PIN);
        ClearAfterSet(old(portb), LED_PIN);
        portb := SetBit(portb, LED_PIN);
        trace := trace + [LedOn];
        trace := trace + [Delay(timeoutMs)];
        waited := waited + timeoutMs;
        portb := ClearBit(portb, LED_PIN);
        trace := trace + [LedOff];
        if i < count - 1 {
          trace := trace + [Delay(timeoutMs)];
          waited := waited + timeoutMs;
        }
        assert trace == done + BlinkPass(i, count, timeoutMs);
        assert trace == old(trace) + (BlinkPrefix(i, count, timeoutMs) + BlinkPass(i, count, timeoutMs));
        i := i + 1;
      }
    }

    /**
     * `ISR(WDT_vect)`: empty; that it exists is what makes the watchdog wake
     * instead of reset. It is dispatched only when WDIF is set, while the I
     * flag and WDIE are set, and entering it clears WDIF.
     */
    method WatchdogIsr()
      requires watchdogPending
      requires interruptsEnabled && ModeOf(wdtcsr) == InterruptOnly
      modifies this`trace, this`watchdogPending
      ensures trace == old(trace) + [WatchdogInterrupt]
      ensures !watchdogPending
    {
      trace := trace + [WatchdogInterrupt];
      watchdogPending := false;
    }

    /**
     * The watchdog counting `ms` milliseconds from its last time-out with
     * interrupts off: a time-out in that time stays pending.
     */
    method WatchdogCounts(ms: int)
      requires !interruptsEnabled && WakesOnTimeout(wdtcsr)
      modifies this`watchdogPending
      ensures watchdogPending == (old(watchdogPending) || ms >= PeriodMsOf(wdtcsr))
    {
      if ms >= PeriodMsOf(wdtcsr) {
        watchdogPending := true;
      }
    }

    /** The start of `main`, up to the `while (1)`. */
    method Startup()
      modifies this
      ensures ddrb == SetBit(old(ddrb), LED_PIN)
      ensures portb == ClearBit(old(portb), LED_PIN)
      ensures wdtcsr == WDT_CONFIG
      ensures !interruptsEnabled
      ensures smcr == old(smcr) && !watchdogPending
      ensures trace == old(trace) + StartupEvents(old(wdtcsr))
    {
      ddrb := ddrb | Mask(LED_PIN);
      var _ := BlinkLed(STARTUP_BLINKS, STARTUP_TIMEOUT_MS);
      interruptsEnabled := false;
      trace := trace + [Cli];
      wdtcsr := wdtcsr | (Mask(WDCE) | Mask(WDE));
      // The read-modify-write writes a set WDIF back as one, which clears it.
      watchdogPending := false;
      trace := trace + [WdtWrite(wdtcsr)];
      wdtcsr := WDT_CONFIG;
      trace := trace + [WdtWrite(wdtcsr)];
    }

    /**
     * `sleep_mode()`: set SE, sleep until the watchdog times out and its
     * interrupt has been handled (the only interrupt enabled), clear SE.
     */
    method SleepMode()
      requires interruptsEnabled && !watchdogPending && ModeOf(wdtcsr) == InterruptOnly
      modifies this`smcr, this`trace, this`watchdogPending
      ensures trace == old(trace) + [Sleep, WatchdogInterrupt]
      ensures smcr == ClearBit(old(smcr), SE)
      ensures !watchdogPending
    {
      ClearAfterSet(smcr, SE);
      smcr := SetBit(smcr, SE);
      trace := trace + [Sleep];
      watchdogPending := true;
      WatchdogIsr();
      smcr := ClearBit(smcr, SE);
    }

    /**
     * A pass up to its blink: `sei()` and `wdt_reset()`, then the pending
     * watchdog interrupt if any, power-down, the sleep until the watchdog
     * fires, and `cli()`.
     */
    method SleepUntilWatchdog()
      requires ModeOf(wdtcsr) == InterruptOnly
      modifies this`interruptsEnabled, this`trace, this`smcr, this`watchdogPending
      ensures trace == old(trace) + WakeHead(old(watchdogPending))
      ensures !interruptsEnabled && !watchdogPending
      ensures smcr == AfterSleep(old(smcr))
    {
      interruptsEnabled := true;
      trace := trace + [Sei];
      trace := trace + [WdtReset];
      if watchdogPending {
        WatchdogIsr();
      }
      smcr := SelectPowerDown(smcr);
      SleepMode();
      interruptsEnabled := false;
      trace := trace + [Cli];
    }

    /**
     * The rest of a pass: `blink_led(3, 1000)` with interrupts off, while the
     * watchdog counts on from the time-out that ended the sleep.
     */
    method BlinkAwake()
      requires !interruptsEnabled && !watchdogPending && WakesOnTimeout(wdtcsr)
      modifies this`portb, this`trace, this`watchdogPending
      ensures trace == old(trace) + BlinkEvents(WAKE_BLINKS, WAKE_TIMEOUT_MS)
      ensures portb == ClearBit(old(portb), LED_PIN)
      ensures watchdogPending == BlinkLeavesPending(wdtcsr)
    {
      var waited := BlinkLed(WAKE_BLINKS, WAKE_TIMEOUT_MS);
      WatchdogCounts(waited);
    }

    /**
     * One pass of `while (1)`: a pending interrupt runs once `sei()` allows it,
     * the CPU sleeps until the watchdog fires, then blinks with interrupts off
     * while the watchdog keeps counting.
     */
    method LoopIteration()
      requires WakesOnTimeout(wdtcsr)
      modifies this`interruptsEnabled, this`trace, this`smcr, this`watchdogPending, this`portb
      ensures trace == old(trace) + WakeCycle(old(watchdogPending), WAKE_BLINKS, WAKE_TIMEOUT_MS)
      ensures watchdogPending == BlinkLeavesPending(wdtcsr)
      ensures !interruptsEnabled
      ensures portb == ClearBit(old(portb), LED_PIN)
      ensures smcr == AfterSleep(old(smcr))
    {
      SleepUntilWatchdog();
      BlinkAwake();
      AppendBlink(old(trace), old(watchdogPending), WAKE_BLINKS, WAKE_TIMEOUT_MS);
    }

    /** The first `n` passes of `while (1)`. */
    method RunLoop(n: nat)
      requires WakesOnTimeout(wdtcsr)
      modifies this`interruptsEnabled, this`trace, this`smcr, this`watchdogPending, this`portb
      ensures trace == old(trace) + WakeCycles(n, old(watchdogPending), BlinkLeavesPending(wdtcsr), WAKE_BLINKS, WAKE_TIMEOUT_MS)
      ensures watchdogPending == PendingAt(n, old(watchdogPending), BlinkLeavesPending(wdtcsr))
      ensures interruptsEnabled == (old(interruptsEnabled) && n == 0)
      ensures portb == if n == 0 then old(portb) else ClearBit(old(portb), LED_PIN)
      ensures smcr == if n == 0 then old(smcr) else AfterSleep(old(smcr))
    {
      ghost var pending, later := watchdogPending, BlinkLeavesPending(wdtcsr);
      var i := 0;
      while i < n
        invariant i <= n
        invariant trace == old(trace) + WakeCycles(i, pending, later, WAKE_BLINKS, WAKE_TIMEOUT_MS)
        invariant watchdogPending == PendingAt(i, pending, later)
        invariant interruptsEnabled == (old(interruptsEnabled) && i == 0)
        invariant portb == if i == 0 then old(portb) else ClearBit(old(portb), LED_PIN)
        invariant smcr == if i == 0 then old(smcr) else AfterSleep(old(smcr))
      {
        LoopIteration();
        AppendPass(old(trace), i, pending, later, WAKE_BLINKS, WAKE_TIMEOUT_MS);
        assert portb == ClearBit(old(portb), LED_PIN) by {
          ClearAfterSet(old(portb), LED_PIN);
        }
        assert smcr == AfterSleep(old(smcr)) by {
          AfterSleepSettles(old(smcr));
        }
        i := i + 1;
      }
    }

    /** The start of `main` followed by the first `n` passes of the loop. */
    method Run(n: nat)
      modifies this
      ensures trace == old(trace) + StartupEvents(old(wdtcsr))
                       + WakeCycles(n, false, BlinkLeavesPending(WDT_CONFIG), WAKE_BLINKS, WAKE_TIMEOUT_MS)
      ensures wdtcsr == WDT_CONFIG
      ensures !interruptsEnabled
      ensures watchdogPending == PendingAt(n, false, BlinkLeavesPending(WDT_CONFIG))
      ensures ddrb == SetBit(old(ddrb), LED_PIN)
      ensures portb == ClearBit(old(portb), LED_PIN)
      ensures smcr == if n == 0 then old(smcr) else AfterSleep(old(smcr))
    {
      Startup();
      WatchdogConfiguration();
      ClearAfterSet(old(portb), LED_PIN);
      RunLoop(n);
    }
  }
}
