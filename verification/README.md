# AVR ATmega328P demonstration programs, modelled in Dafny

Five standalone bare-metal programs for an Arduino Nano (ATmega328P, 16 MHz):

- **Plain blink** (`src/main-blink.c`): PB5 is made an output. The endless loop XOR-toggles PB5 and waits 1000 ms.
- **Software tick clock** (`src/main-timer0-normal.c`): Timer/Counter0 runs in normal mode with prescaler 64. Its overflow interrupt increments the `uint16_t` global `counter`. Once `counter >= 1000`, the main loop clears the counter and toggles PB5. The header comment works out the prescaler and period arithmetic.
- **Duty-cycle sawtooth** (`src/main-pwm-phase-correct.c`): Timer/Counter0 runs in phase-correct PWM mode with prescaler 256 and non-inverting output on OC0A/PD6. The loop steps `OCR0A` through 0..255, waiting 10 ms per step. At 255 it goes back to 0 and pauses 500 ms.
- **Edge-flag debounce** (`src/main-external-interrupt.c`): a falling edge on INT0/PD2, with the pull-up on, runs a handler that raises `is_interrupt_button`. Seeing the flag, the main loop toggles PB5, waits 1000 ms, executes `sei()` and lowers the flag.
- **Watchdog sleep/wake** (`src/main-wdt-sleep.c`):
  - `blink_led(count, t)` pulses PB5 `count` times, waiting `t` ms between writes but not after the last pulse.
  - `main` blinks three times at 100 ms.
  - It then disables interrupts and puts the watchdog in interrupt-only mode with a period of about 4 s. This takes the two-write change-enable sequence.
  - After that it loops forever: `sei()`, `wdt_reset()`, select power-down, sleep, wake on the watchdog interrupt, `cli()`, then blink three times at 1000 ms.
  - The watchdog keeps counting while the program blinks with interrupts off. That blink lasts 5000 ms, longer than the 4096 ms period, so the watchdog times out during it. Its interrupt stays pending and runs at the next `sei()`, before the sleep.

## How the programs are modelled

- **Programs.** Each program is a `class` whose fields are the registers and globals it touches. Registers are `bv8`, except `OCR0A` in the PWM program, which is a `Uint8` because the loop counts with it; `counter` is a `Uint16`, and the global interrupt flag is a `bool`. The `Setup`/`Startup` method of each class is the start of `main`. Each `LoopIteration` is one pass of `while (1)`, and each interrupt handler is its own method. In the timer0 and INT0 programs, an interrupt handler is an atomic event that runs between two passes of the loop, and it requires the interrupt sources it depends on to be enabled. In the watchdog program, the handler runs where `sei()` or the sleep lets it: right after `wdt_reset()` when a time-out is pending, and inside the sleep. It runs only when WDIF is set.
- **Delays.** `_delay_ms` records its duration in a `delays` sequence (module `Delays`). The watchdog program instead keeps a trace of events (LED writes, delays, `cli`/`sei`, watchdog writes, `wdt_reset`, sleep, watchdog handler runs), because its properties are about order.
- **Watchdog timing.** The watchdog program also keeps WDIF, the flag of a time-out whose interrupt has not run yet. Time passes only in the waits of `blink_led` and in the sleep; other instructions take none, and the watchdog oscillator runs at exactly 128 kHz. The wake-up from sleep is itself a time-out, so the watchdog counts a full period from there. If the blink that follows lasts a period or more, WDIF is set. The next `sei()` lets the handler run, after `wdt_reset()`, since the AVR executes the instruction after `sei` before any pending interrupt.
- **Pure specifications.** Each method is proved against a pure function of the old state: `Poll`, `OnEdge`, `RampStep`, `PortAfter`, `BlinkEvents`, `WakeCycle` and so on. The lemmas state what the program promises about those functions.
- **Bit positions.** These are named constants from the ATmega328P datasheet (module `Registers`). `set_bit(r, b)` and `clear_bit(r, b)` are modelled as `r |= (1<<b)` and `r &= ~(1<<b)`. `bitwise.h` is not part of this model.

## Notes on the code

- **The INT0 handler does not mask INT0.**
  - What the code does: the `cli()` at `src/main-external-interrupt.c:25` only lasts until the handler's return instruction sets the I flag again. Nothing ever clears EIMSK.INT0.
  - What the model shows: edges arriving during the main loop's 1000 ms wait re-raise a flag that is already raised. That flag is then lowered, so those edges are lost (`RunAccounting`). The one-toggle-per-burst property rests on the boolean flag alone, not on masking the interrupt.
- **The 16-bit counter read has no critical section.** The main loop reads the two-byte `counter` at `src/main-timer0-normal.c:82` with interrupts enabled. An overflow can fire between the loads of the two bytes. If the counter goes from 0x02FF to 0x0300 after the low byte is read, the loop sees 0x03FF = 1023. That passes the `>= 1000` test, so the LED toggles about 232 counts early and `counter` is cleared. The model treats the handler as atomic between passes, so this torn read is not modelled.
- **The watchdog handler is empty.** `ISR(WDT_vect)` has no body. What matters is that it is installed, since WDIE set and WDE clear is what selects interrupt-only mode.
- **The period table in the timer0 header comment counts 255 ticks per overflow.** The 8-bit counter overflows every 256 ticks. With prescaler 64, one `counter` step is 1.024 ms rather than the comment's "1 ms", so the LED toggles every 1.024 s. `PeriodTable` proves the comment's figures as written. `OverflowPeriod` states the hardware figure. The code does not depend on either figure.
- **The watchdog does not wake the program every 4 seconds.** The header comment at `src/main-wdt-sleep.c:5` says the watchdog interrupt wakes the CPU every 4 s. After the first pass, the watchdog times out during the 5000 ms blink, because `cli()` does not stop it. The handler then runs right after the next `sei()` and `wdt_reset()`, before the sleep. The CPU then sleeps a full 4096 ms period. So from the second pass on, the handler runs twice per pass: n passes run it 2n − 1 times, and every pass still sleeps once (`ProgramPasses`). Time-outs come alternately 4096 ms and 5000 ms apart, which is never more often than every 4 s. Only every other time-out wakes the CPU, so wake-ups are one 4096 ms sleep plus one 5000 ms blink apart.

## Model

| member | source | states |
|---|---|---|
| Registers.SetBit | src/main-wdt-sleep.c:33 | `set_bit` sets its bit and leaves the other seven bits unchanged |
| Registers.ClearBit | src/main-wdt-sleep.c:35 | `clear_bit` clears its bit and leaves the other seven bits unchanged |
| Registers.ToggleBit | src/main-blink.c:16 | `r ^= (1<<b)` inverts bit b and no other bit |
| Registers.ToggleTwice | src/main-timer0-normal.c:84 | toggling the same bit twice restores the register exactly |
| Registers.ClockSelect | src/main-timer0-normal.c:69-71 | CS02:CS00 selects stopped, a prescaler from {1, 8, 64, 256, 1024}, or the external pin |
| Blink.PortAfterParity | src/main-blink.c:15-17 | after n passes, PB5 is its initial value inverted n mod 2 times, and every other PORTB bit is unchanged |
| Blink.TwoPassesRestore | src/main-blink.c:16 | two more passes restore PORTB exactly |
| Blink.BlinkProgram.constructor | src/main-blink.c:12 | power-on state: registers 0, nothing waited |
| Blink.BlinkProgram.Setup | src/main-blink.c:13 | `DDRB \|= (1<<PB5)` sets bit 5 and keeps the other DDRB bits |
| Blink.BlinkProgram.LoopIteration | src/main-blink.c:15-18 | one pass inverts only PB5 and records one 1000 ms delay |
| Blink.BlinkProgram.Run | src/main-blink.c:15-18 | after n passes, PORTB is `PortAfter(portb, n)` and exactly n delays of 1000 ms (n × 1000 ms in total) were recorded |
| Timer0Normal.TickPs | src/main-timer0-normal.c:38-46 | one tick at clk/divisor lasts exactly divisor/16 MHz, a whole number of picoseconds for every divisor |
| Timer0Normal.PeriodPs | src/main-timer0-normal.c:40-46 | 255 ticks at clk/divisor last exactly 255·divisor/16 MHz, in picoseconds |
| Timer0Normal.PeriodTable | src/main-timer0-normal.c:39-46 | no prescaler, 8, 64, 256 and 1024 give ticks of 62 500, 500 000, 4 000 000, 16 000 000 and 64 000 000 ps, and 255-tick periods of 15 937 500, 127 500 000, 1 020 000 000, 4 080 000 000 and 16 320 000 000 ps |
| Timer0Normal.OverflowPeriod | src/main-timer0-normal.c:44 | the real overflow period at clk/64 (256 ticks) is 1 024 000 000 ps; 1000 overflows take 1.024 s, longer than the comment's 255-tick figure |
| Timer0Normal.SelectPrescaler64 | src/main-timer0-normal.c:71 | `TCCR0B \|= (1<<CS01)\|(1<<CS00)` sets both bits and leaves all other bits unchanged |
| Timer0Normal.SetupSelectsPrescaler64 | src/main-timer0-normal.c:70-71 | with CS02 clear beforehand, the set-up selects clk/64 (4 000 000 ps per tick) |
| Timer0Normal.Increment | src/main-timer0-normal.c:60-64 | `counter++` on `uint16_t` adds one, and wraps from 65535 to 0 |
| Timer0Normal.Poll | src/main-timer0-normal.c:82-85 | at or above 1000, the counter becomes 0 and only PB5 flips; below 1000, nothing changes |
| Timer0Normal.PollIdempotent | src/main-timer0-normal.c:80-86 | a second pass before the next overflow changes nothing, so the round lemmas hold for one or more passes between overflows |
| Timer0Normal.RoundsFromZero | src/main-timer0-normal.c:60-64 | alternating handler and loop from counter 0: after n rounds the counter is n mod 1000 and PB5 was inverted n div 1000 times |
| Timer0Normal.FlipsOnEveryThousandthOverflow | src/main-timer0-normal.c:82-85 | under alternation the LED changes in round n+1 if and only if n+1 is a multiple of 1000, and the counter is 0 right after each flip |
| Timer0Normal.NeverWraps | src/main-timer0-normal.c:82-83 | under alternation the counter stays below 1000 after each pass and at most 1000 after each handler, so `counter++` never wraps |
| Timer0Normal.Timer0NormalProgram.constructor | src/main-timer0-normal.c:60 | power-on state: registers 0, `counter` 0, interrupts off |
| Timer0Normal.Timer0NormalProgram.Setup | src/main-timer0-normal.c:67-78 | DDRB.5 set, prescaler 64 ORed in, TCNT0 cleared, TOIE0 ORed in, interrupts on; counter and PORTB unchanged |
| Timer0Normal.Timer0NormalProgram.OverflowIsr | src/main-timer0-normal.c:62-64 | the overflow handler (only while TOIE0 and I are set) increments `counter` modulo 2^16 |
| Timer0Normal.Timer0NormalProgram.LoopIteration | src/main-timer0-normal.c:80-86 | one pass moves (counter, PORTB) exactly as `Poll` does |
| Timer0Normal.Timer0NormalProgram.RunAlternating | src/main-timer0-normal.c:62-86 | n alternating handler/pass rounds leave the state `Rounds(old state, n)` |
| PwmPhaseCorrect.SelectPrescaler256 | src/main-pwm-phase-correct.c:31 | `TCCR0B \|= (1<<CS02)` sets CS02 and leaves all other bits unchanged |
| PwmPhaseCorrect.ConfigureOutputAndMode | src/main-pwm-phase-correct.c:33-37 | COM0A1 and WGM00 are set and every other TCCR0A bit is unchanged |
| PwmPhaseCorrect.SetupSelectsPhaseCorrectPwm | src/main-pwm-phase-correct.c:29-37 | from reset values: waveform mode 1 (phase-correct PWM), compare mode 2 with COM0A0 clear (non-inverting), clock clk/256 |
| PwmPhaseCorrect.RampStep | src/main-pwm-phase-correct.c:45-50 | one pass moves OCR0A to (v+1) mod 256, staying in 0..255; the 500 ms pause comes exactly with the return to 0, and every other pass waits 10 ms |
| PwmPhaseCorrect.RampDelays | src/main-pwm-phase-correct.c:44-52 | n passes from v wait n times; pass k waits 500 ms exactly when (v+k+1) mod 256 is 0, that is when it brings OCR0A back to 0, and 10 ms otherwise |
| PwmPhaseCorrect.RampIsCyclicCount | src/main-pwm-phase-correct.c:44-52 | after n passes from v, OCR0A is (v+n) mod 256 |
| PwmPhaseCorrect.RampFromZero | src/main-pwm-phase-correct.c:45-47 | from 0, pass k < 256 leaves the value k, so values 0..255 are visited in order with no skips or repeats |
| PwmPhaseCorrect.RampPeriodic | src/main-pwm-phase-correct.c:44-52 | the ramp repeats itself every 256 passes |
| PwmPhaseCorrect.RampDelayTotal | src/main-pwm-phase-correct.c:44-52 | from 0, n passes wait 3050·(n div 256) + 10·(n mod 256) ms |
| PwmPhaseCorrect.FullCycleDelay | src/main-pwm-phase-correct.c:44-52 | one full 256-pass period waits 255·10 + 500 = 3050 ms |
| PwmPhaseCorrect.PwmProgram.constructor | src/main-pwm-phase-correct.c:26 | power-on state: registers 0, nothing waited |
| PwmPhaseCorrect.PwmProgram.Setup | src/main-pwm-phase-correct.c:27-37 | DDRD.6 set, CS02 ORed into TCCR0B, COM0A1 and WGM00 ORed into TCCR0A |
| PwmPhaseCorrect.PwmProgram.LoopIteration | src/main-pwm-phase-correct.c:45-50 | one pass updates OCR0A and records the delay as `RampStep` says |
| PwmPhaseCorrect.PwmProgram.Run | src/main-pwm-phase-correct.c:44-52 | n passes leave OCR0A at `Ramp(v, n)` and append `RampDelays(v, n)` |
| ExternalInterrupt.SetupSelectsFallingEdge | src/main-external-interrupt.c:40 | with ISC00 clear, `EICRA \|= (1<<ISC01)` selects falling-edge sensing and changes no other bit |
| ExternalInterrupt.OnEdge | src/main-external-interrupt.c:24-27 | the handler raises the flag and changes nothing else |
| ExternalInterrupt.OnEdgeIdempotent | src/main-external-interrupt.c:26 | a second edge while the flag is raised changes nothing |
| ExternalInterrupt.Poll | src/main-external-interrupt.c:47-51 | with the flag raised, a pass inverts only PB5, records 1000 ms and lowers the flag; with the flag lowered it changes nothing |
| ExternalInterrupt.BurstRaisesFlag | src/main-external-interrupt.c:26 | any k ≥ 1 edges in a row leave the flag raised and everything else unchanged |
| ExternalInterrupt.BurstTogglesOnce | src/main-external-interrupt.c:24-51 | any burst of k ≥ 1 edges followed by one pass toggles the LED exactly once and waits once |
| ExternalInterrupt.IdlePassesChangeNothing | src/main-external-interrupt.c:47 | passes with the flag lowered change nothing |
| ExternalInterrupt.RunAccounting | src/main-external-interrupt.c:24-53 | over any sequence of edges and passes: every wait is 1000 ms and goes with one LED toggle; toggles ≤ passes; toggles plus a flag still raised ≤ edges plus a flag raised at the start |
| ExternalInterrupt.ButtonProgram.constructor | src/main-external-interrupt.c:22 | power-on state: registers 0, flag false, interrupts off |
| ExternalInterrupt.ButtonProgram.Setup | src/main-external-interrupt.c:30-44 | DDRB.5, PORTD.2 (pull-up), EICRA.ISC01 and EIMSK.INT0 ORed in, interrupts on; flag, PORTB and delays unchanged |
| ExternalInterrupt.ButtonProgram.Int0Isr | src/main-external-interrupt.c:24-27 | the handler (only while INT0 and I are set) acts as `OnEdge`, and I is set again on return |
| ExternalInterrupt.ButtonProgram.LoopIteration | src/main-external-interrupt.c:46-53 | one pass acts as `Poll`; `sei()` runs exactly when the flag was raised |
| ExternalInterrupt.ButtonProgram.Run | src/main-external-interrupt.c:24-53 | driving the program with a sequence of edges and passes gives `RunInputs` of it |
| WdtSleep.LedEventsAppend | src/main-wdt-sleep.c:33-35 | the LED writes of a concatenation are those of its parts |
| WdtSleep.DelayEventsAppend | src/main-wdt-sleep.c:34-38 | the delays of a concatenation are those of its parts |
| WdtSleep.GateUnchanged | src/main-wdt-sleep.c:53-73 | events other than `cli()`/`sei()` leave the interrupt flag as it was |
| WdtSleep.BlinkPassShape | src/main-wdt-sleep.c:33-39 | one pass of the `for` loop writes the LED on then off, and waits twice, or once if it is the last pass |
| WdtSleep.BlinkPrefixLeds | src/main-wdt-sleep.c:31-35 | the first n passes write the LED on then off n times |
| WdtSleep.BlinkPrefixDelays | src/main-wdt-sleep.c:34-39 | the first n passes wait t ms two times per pass, one fewer once the last pass is done |
| WdtSleep.BlinkLedBehaviour | src/main-wdt-sleep.c:29-41 | `blink_led(count, t)` makes exactly `count` on/off pairs, strictly alternating, and 2·count−1 waits of t ms (total (2·count−1)·t) when count ≥ 1; it does nothing when count ≤ 0; it only writes the LED and waits |
| WdtSleep.TimeoutCycles | src/main-wdt-sleep.c:62 | 2K watchdog cycles doubled p times is the datasheet's time-out for WDP3:0 = p, for every p from 0 to 9 (2K up to 1024K) |
| WdtSleep.PeriodMsOf | src/main-wdt-sleep.c:62 | at 128 kHz the period selected by WDTCSR is its time-out cycles divided by 128, in whole milliseconds, from 16 ms to 8192 ms |
| WdtSleep.WatchdogConfiguration | src/main-wdt-sleep.c:62 | the final WDTCSR value has WDE clear and WDIE set (interrupt-only, no reset) and prescaler 8: 512K cycles, 4096 ms at 128 kHz |
| WdtSleep.ConfigureWrites | src/main-wdt-sleep.c:53-62 | the set-up starts with `cli()`, then writes WDCE and WDE set, immediately followed by the final configuration write |
| WdtSleep.ConfigureMasked | src/main-wdt-sleep.c:53-62 | every watchdog write of the set-up comes after its `cli()`, and interrupts are still off at the end |
| WdtSleep.ConfigureLeavesLed | src/main-wdt-sleep.c:53-62 | the set-up writes no LED before its watchdog writes |
| WdtSleep.StartupOrder | src/main-wdt-sleep.c:49-62 | the start blinks three times before any watchdog write; every watchdog write runs with interrupts off; a WDCE\|WDE write comes right before the final `WDIE\|WDP3` write; interrupts stay off |
| WdtSleep.BlinkWaitIsTotal | src/main-wdt-sleep.c:29-41 | the waits of `blink_led(count, t)` add up to (2·count−1)·t ms when count ≥ 1, and to 0 otherwise |
| WdtSleep.WakeHeadGate | src/main-wdt-sleep.c:64-73 | the pass sleeps with interrupts on and the watchdog interrupt follows the sleep; a pending interrupt runs right after `sei()` and `wdt_reset()`, with interrupts on, before the sleep; interrupts are off after `cli()` |
| WdtSleep.WakeHeadWrites | src/main-wdt-sleep.c:64-73 | before its blink a pass sleeps once, runs the watchdog handler once (twice when an interrupt was pending) and writes no LED |
| WdtSleep.BlinkAfterGate | src/main-wdt-sleep.c:73-75 | after a `cli()`, every LED write of `blink_led` happens with interrupts disabled, and they remain disabled |
| WdtSleep.BlinkAfterCounts | src/main-wdt-sleep.c:75 | `blink_led` adds its pulses to the LED writes and adds no sleep and no watchdog handler run |
| WdtSleep.WakeCycleHandlerRuns | src/main-wdt-sleep.c:64-76 | one pass of the loop sleeps exactly once and runs the watchdog handler once, or twice when an interrupt was pending at its start |
| WdtSleep.WakeCycleSleeps | src/main-wdt-sleep.c:66-69 | a pass sleeps exactly once, with interrupts enabled, and the watchdog interrupt follows the sleep immediately; a pending interrupt runs before the sleep |
| WdtSleep.WakeCycleLeds | src/main-wdt-sleep.c:75 | a pass writes the LED exactly as one `blink_led` does |
| WdtSleep.WakeCycleBlinksMasked | src/main-wdt-sleep.c:64-76 | a pass writes the LED only after the wake-up, always with interrupts disabled, and leaves them disabled until the next `sei()` |
| WdtSleep.AppendPass | src/main-wdt-sleep.c:64-76 | a trace of n passes followed by one more pass is the trace of n + 1 passes |
| WdtSleep.HandlerRunsPerPass | src/main-wdt-sleep.c:64-76 | n passes sleep exactly n times and run the watchdog handler n times plus once for each pass that starts with an interrupt pending |
| WdtSleep.OneBlinkPerWake | src/main-wdt-sleep.c:64-76 | n passes write the LED as n `blink_led` calls do |
| WdtSleep.WakeBlinkOutlastsWatchdog | src/main-wdt-sleep.c:73-75 | the wake-up blink waits 5000 ms, at least the 4096 ms watchdog period; since the blink runs with interrupts off (`WakeCycleBlinksMasked`), the watchdog times out during it |
| WdtSleep.ProgramPasses | src/main-wdt-sleep.c:64-76 | with the program's constants and nothing pending at first, n ≥ 1 passes sleep n times, run the watchdog handler 2n − 1 times and make exactly 3n on/off pulses |
| WdtSleep.SelectPowerDown | src/main-wdt-sleep.c:68 | `set_sleep_mode(SLEEP_MODE_PWR_DOWN)` sets SM2:SM0 to 010 and keeps SE and the upper bits |
| WdtSleep.AfterSleepSettles | src/main-wdt-sleep.c:68-69 | a second pass leaves SMCR exactly as the first did |
| WdtSleep.WdtSleepProgram.constructor | src/main-wdt-sleep.c:47 | power-on state: registers 0, interrupts off, nothing pending, empty trace |
| WdtSleep.WdtSleepProgram.BlinkLed | src/main-wdt-sleep.c:29-41 | the `for` loop appends `BlinkEvents(count, t)` to the trace and waits `BlinkWaitMs(count, t)` in all; afterwards PB5 is low if the loop ran at all, and no other PORTB bit has changed |
| WdtSleep.WdtSleepProgram.WatchdogIsr | src/main-wdt-sleep.c:43-45 | the empty handler runs only when WDIF is set, with interrupts enabled and the watchdog in interrupt-only mode; it leaves only its own event and clears WDIF |
| WdtSleep.WdtSleepProgram.WatchdogCounts | src/main-wdt-sleep.c:73-75 | with interrupts off, counting `ms` from a time-out sets WDIF exactly when `ms` reaches the period, and a pending time-out stays pending |
| WdtSleep.WdtSleepProgram.Startup | src/main-wdt-sleep.c:47-62 | DDRB.5 set, PB5 low, WDTCSR = WDIE\|WDP3, interrupts off, SMCR unchanged, WDIF clear (the read-modify-write of WDCE\|WDE writes a set WDIF back as one, clearing it), trace extended by `StartupEvents` |
| WdtSleep.WdtSleepProgram.SleepMode | src/main-wdt-sleep.c:69 | `sleep_mode()` sets SE, sleeps until the watchdog times out and its handler runs, and clears SE; WDIF is clear afterwards |
| WdtSleep.WdtSleepProgram.SleepUntilWatchdog | src/main-wdt-sleep.c:66-73 | `sei()`, `wdt_reset()`, the pending handler if WDIF was set, power-down, the sleep and `cli()` append `WakeHead(WDIF)`; interrupts off, WDIF clear, SMCR `AfterSleep` |
| WdtSleep.WdtSleepProgram.BlinkAwake | src/main-wdt-sleep.c:73-75 | `blink_led(3, 1000)` with interrupts off appends its events, leaves PB5 low, and leaves WDIF set exactly when the blink outlasts the watchdog period |
| WdtSleep.WdtSleepProgram.LoopIteration | src/main-wdt-sleep.c:64-76 | one pass appends `WakeCycle(WDIF, 3, 1000)`, leaves WDIF as the blink leaves it, interrupts off, PB5 low and SMCR `AfterSleep` |
| WdtSleep.WdtSleepProgram.RunLoop | src/main-wdt-sleep.c:64-76 | n passes append `WakeCycles(n, ...)`, with an interrupt pending at each pass after the first exactly when the blink outlasts the period; WDIF, the I flag, PORTB and SMCR are stated after n passes, and nothing else changes |
| WdtSleep.WdtSleepProgram.Run | src/main-wdt-sleep.c:47-77 | the program's trace is the start-up followed by n passes; WDTCSR ends interrupt-only, interrupts are off between passes, and DDRB, PORTB, SMCR and WDIF are stated |

## Left out

- In the timer0 and INT0 programs, interrupt preemption and interleaving inside a pass of the main loop are not modelled. Each handler there is atomic between passes, so the model makes no claim about the torn 16-bit `counter` read. The watchdog program places its handler where the code lets it run.
- Hardware timing is modelled only coarsely. Delays are recorded durations, and sleeping is waiting for the watchdog interrupt. The watchdog's own timing counts only the waits of `blink_led`: instruction times, wake-up latency, and the drift of the 128 kHz oscillator are not modelled. The timer oscillators are not modelled.
- The four-cycle limit on the second WDTCSR write after the change-enable write is not modelled; only the values written are.
- Peripheral behaviour is not modelled: how TCNT0 counts, how phase-correct PWM shapes the waveform on OC0A, and the relation between brightness and duty cycle. These are hardware, not program logic.
- `<avr/io.h>`, `<avr/sleep.h>` and `<avr/wdt.h>` are not part of this model. Their bit positions are taken from the ATmega328P datasheet. `wdt_reset()` is a trace event. `sleep_mode()` sets SE, sleeps and clears SE.
- `bitwise.h` is not part of this model. `set_bit`/`clear_bit` are taken to be single-bit OR and AND-NOT.
- Timer0Normal.Timer0NormalProgram.RunAlternating: covers only schedules in which exactly one overflow arrives before each pass. Other schedules are possible one call at a time through `OverflowIsr` and `LoopIteration`, but no lemma is stated about them. `NeverWraps` holds only under alternation. `PollIdempotent` shows that extra passes between two overflows change nothing, so the `Rounds` lemmas also hold when one or more passes follow each overflow.
- WdtSleep.WdtSleepProgram.SleepMode: the watchdog interrupt is the only wake source modelled, because it is the only interrupt the program enables.
- WdtSleep.WdtSleepProgram.BlinkLed: `count` and `timeoutMs` are unbounded integers rather than 16-bit `int`. The program only passes 3, 100 and 1000, so nothing overflows.
- The fractional figures in the comments (0.0625 µs, 15.93 µs, "4 seconds") are stated as exact whole picoseconds and watchdog cycle counts instead.
