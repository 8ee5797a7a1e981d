# Digital die: a Dafny model of the firmware's interrupt state machine

The firmware runs an electronic die on an ATtiny13A or ATtiny85V. A button on PB4 raises a
pin-change interrupt. Four LED groups on PB0..PB3 show the pips. Timer 0 serves as an
entropy source while the button is held and as a display timeout after it is released.
All the logic lives in two interrupt handlers and two helpers, which update port B, the
timer registers and four volatile globals.

The project has four modules:

- `Display` (display.dfy): `DisplayAugenzahl` on a port value. `Pattern` gives the LED
  bits of a face. `ShowFace` is the read-modify-write of PORTB. `Pips` counts the pips the
  lit groups show (one for the centre group PB0, two for each of the others, following the
  wiring diagram). `ShownFace` decodes the LED bits back into a face.
- `DiceSpec` (dice_spec.dfy): one `DieState` record holding PORTB, TCCR0B, TIMSK0, TCNT0,
  TIMER_COUNTER (16 bits), TIMER_USAGE_MODE, DICE_ANIM_COUNTER, PREV_DICE_ROLL (8 bits
  each) and the selected sleep mode. Pure functions `ActivateTimer`, `PinChange` and
  `TimerOverflow` run each handler to completion. `Inv` is the invariant of reachable
  states. `Step`/`Run` replay a sequence of interrupts.
- `DiceProperties` (dice_properties.dfy): what one event does, the invariant over any
  sequence of events, and the timed scenarios (the 255-overflow timeout, the 6300-overflow
  animation frame).
- `DiceDevice` (dice_device.dfy): class `Die`, whose fields are the registers and globals.
  Its methods `DisplayAugenzahl`, `ActivateTimer`, `OnPinChange` and `OnTimerOverflow`
  mirror the C code statement by statement. `DisplayAugenzahl` is proved to change only
  PORTB, to the value `Display.ShowFace` computes. The other three are proved to leave the
  state that `DiceSpec.ActivateTimer`, `DiceSpec.PinChange` and `DiceSpec.TimerOverflow`
  compute. Only the two interrupt handlers `OnPinChange` and `OnTimerOverflow` are proved
  to keep the invariant `Valid()`. The invariant describes the state between handlers. The
  two helpers run inside a handler, where it need not hold. `ActivateTimer` with a mode
  other than IDLE or TRNG would break it.

Registers are `bv8`. PREV_DICE_ROLL is a `bv8` because the code XORs into it. The
counters are bounded integers (`u8`, `u16`) whose increment `Inc` wraps to 0 as the C
types do. The register bit values come from the ATtiny13A data sheet: TOIE0 is bit 1 of
TIMSK0, and CS00 and CS02 are bits 0 and 2 of TCCR0B. `ClockSource` decodes the clock-select
field. The header avr/io.h is not part of this model.

Hardware inputs are parameters. `pb4High` is the level of PB4 read in the pin-change
handler. `tcnt0Now` is the value of the running timer when the handler reads TCNT0.

Two facts about the stored roll and the display:

- PREV_DICE_ROLL keeps the raw XOR byte, any of 0..255. The next press seeds the timer
  with that byte. Only the displayed face `(PREV_DICE_ROLL % 6) + 1` is in 1..6
  (`RollIsAnyByte`, `ReleaseShowsRoll`).
- DisplayAugenzahl clears the four LED bits before its switch, so any value outside 0..6
  blanks them (`ShowFaceBlanks`).

Two consequences of the code as written are proved. They are not claimed as defects:

- DICE_ANIM_COUNTER is 8 bits and 256 is not a multiple of 6. The six frames after
  counter value 252 show 2, 3, 4, 1, 2, 3 and never 5 or 6 (`AnimationWrapSkipsFaces`).
  Reaching counter 252 takes 252 frames of holding the button after a press. Any six
  frames that start at a counter value of at most 249 show every face
  (`SixFramesShowAllFaces`).
- Only a press selects idle sleep. A pin change handled with PB4 already low while the die
  is in deep sleep arms the IDLE countdown but leaves power-down selected
  (`ReleaseInDeepSleepKeepsPowerDown`).

## Model

| member | source | states |
|---|---|---|
| Display.Pattern | Software/Code/FSEI_DigitalDice.cpp:66-94 | the bits of a face lie in PB0..PB3; the pattern is empty exactly for 0 and values above 6 |
| Display.ShowFace | Software/Code/FSEI_DigitalDice.cpp:60-95 | bits of PORTB other than PB0..PB3 are unchanged; the LEDs afterwards read back as the face given (0 for values outside 0..6) |
| Display.PatternPips | Software/Code/FSEI_DigitalDice.cpp:11-22 | with the wiring of the four LED groups, face 1..6 lights exactly that many pips; other values light none |
| Display.PatternGroups | Software/Code/FSEI_DigitalDice.cpp:68-90 | faces 1 and 2 light one group, 3 and 4 two, 5 and 6 three |
| Display.PatternsDistinct | Software/Code/FSEI_DigitalDice.cpp:66-94 | the seven patterns of 0..6 are pairwise distinct |
| Display.ShownFaceExact | Software/Code/FSEI_DigitalDice.cpp:66-94 | decoding the LED bits yields face f if and only if f is in 0..6 and the bits are f's pattern |
| Display.ShowFaceIgnoresOldLeds | Software/Code/FSEI_DigitalDice.cpp:63-64 | the result does not depend on the previous LED bits |
| Display.ShowFaceIdempotent | Software/Code/FSEI_DigitalDice.cpp:60-95 | showing a face twice equals showing it once |
| Display.ShowFaceBlanks | Software/Code/FSEI_DigitalDice.cpp:92-93 | for 0 or any value outside 1..6 all four LED bits are cleared |
| DiceSpec.Inc | Software/Code/FSEI_DigitalDice.cpp:148 | an increment of an unsigned counter is `(x + 1) mod 2^width`: it stays in range and yields 0 exactly when it wraps from the maximum |
| DiceSpec.FaceFromByte | Software/Code/FSEI_DigitalDice.cpp:137 | `x % 6 + 1` of any byte is a face in 1..6 |
| DiceSpec.ActivateTimer | Software/Code/FSEI_DigitalDice.cpp:99-119 | whatever the prior state: count 0, mode and TCNT0 as given, overflow interrupt enabled; the clock is prescaler 1024 for IDLE, no prescaler for TRNG, stopped for any other mode; LEDs, counters and sleep mode untouched |
| DiceSpec.Initial | Software/Code/FSEI_DigitalDice.cpp:172-197 | the state after main's set-up: LEDs off with only the PB5 pull-up set, timer stopped and masked, the globals at their initial 0 (lines 51-57), mode IDLE, power-down sleep |
| DiceSpec.PinChange | Software/Code/FSEI_DigitalDice.cpp:123-141 | either edge restarts the count with the overflow interrupt enabled and keeps the non-LED port bits; a press selects TRNG mode, loads the stored roll into TCNT0, clears the animation counter and selects idle sleep, leaving roll and LEDs; a release selects IDLE mode, stores roll XOR TCNT0 and loads 0, leaving animation counter and sleep mode |
| DiceSpec.TimerOverflow | Software/Code/FSEI_DigitalDice.cpp:145-169 | an overflow never changes the stored roll, the mode or TCNT0; in IDLE mode the count is incremented with 16-bit wrap; in TRNG mode the count ends below 6300 |
| DiceProperties.PressArmsCollecting | Software/Code/FSEI_DigitalDice.cpp:125-131 | a rising edge sets the animation counter to 0, arms TRNG mode unprescaled with TCNT0 = the stored roll, selects idle sleep, and leaves the roll and the LEDs as they were |
| DiceProperties.ReleaseShowsRoll | Software/Code/FSEI_DigitalDice.cpp:133-140 | a falling edge stores old roll XOR TCNT0, shows `(roll % 6) + 1` (always 1..6) without touching other port bits, and arms IDLE mode from 0 at prescaler 1024 |
| DiceProperties.ReleaseExample | Software/Code/FSEI_DigitalDice.cpp:135-137 | stored roll 3 and timer 5 give roll 6 and face 1 |
| DiceProperties.RollIsAnyByte | Software/Code/FSEI_DigitalDice.cpp:135 | every byte can become the stored roll, so it is not confined to 1..6 |
| DiceProperties.IdleOverflow | Software/Code/FSEI_DigitalDice.cpp:148-159 | in IDLE mode the count rises by one; once it reaches 255 the timer is stopped and masked, the LEDs blanked and power-down selected; below 255 nothing else changes |
| DiceProperties.TrngOverflow | Software/Code/FSEI_DigitalDice.cpp:160-168 | in TRNG mode the count is afterwards below 6300; at 6300 the animation counter rises by one, its face is shown and the count restarts, leaving mode, TCNT0, TCCR0B and TIMSK0 untouched; otherwise only the count changes |
| DiceProperties.InitialInv | Software/Code/FSEI_DigitalDice.cpp:172-197 | the state after main's set-up is asleep with LEDs off and satisfies the invariant |
| DiceProperties.PinChangePreservesInv | Software/Code/FSEI_DigitalDice.cpp:123-141 | the pin-change handler keeps the invariant and enters collecting (press) or counting down (release) |
| DiceProperties.OverflowPreservesInv | Software/Code/FSEI_DigitalDice.cpp:145-169 | the overflow handler keeps the invariant |
| DiceProperties.StepPreservesInv | Software/Code/FSEI_DigitalDice.cpp:123-169 | any single interrupt keeps the invariant |
| DiceProperties.RunPreservesInv | Software/Code/FSEI_DigitalDice.cpp:123-169 | any sequence of interrupts keeps the invariant |
| DiceProperties.Reachable | Software/Code/FSEI_DigitalDice.cpp:123-169 | in every reachable state the LED bits hold one of the seven patterns, the mode is IDLE or TRNG, and in TRNG mode the count is below 6300 |
| DiceProperties.DeepSleepIgnoresOverflows | Software/Code/FSEI_DigitalDice.cpp:152-157 | in a reachable deep-sleep state the LEDs are off, power-down sleep is selected, the timer is stopped with its interrupt masked, and any number of overflow events leaves the state unchanged |
| DiceProperties.ReleaseInDeepSleepKeepsPowerDown | Software/Code/FSEI_DigitalDice.cpp:133-140 | a falling edge handled in deep sleep starts the countdown with power-down sleep still selected |
| DiceProperties.OverflowsAdd | Software/Code/FSEI_DigitalDice.cpp:145-169 | a + b overflows are a overflows followed by b |
| DiceProperties.IdleQuiet | Software/Code/FSEI_DigitalDice.cpp:150-159 | IDLE-mode overflows that keep the count below 255 change only the count |
| DiceProperties.IdleTimeout | Software/Code/FSEI_DigitalDice.cpp:148-159 | while counting down, the display and phase stay until the overflow that brings the count to 255; that one ends in deep sleep, with the LEDs blank, the timer masked and power-down selected |
| DiceProperties.ReleaseThenTimeout | Software/Code/FSEI_DigitalDice.cpp:133-159 | after a release the result is shown for 254 overflows, the 255th puts the die to deep sleep with the LEDs blank, and further overflow events do nothing |
| DiceProperties.RollingQuiet | Software/Code/FSEI_DigitalDice.cpp:160-168 | TRNG-mode overflows that keep the count below 6300 change only the count |
| DiceProperties.RollingTick | Software/Code/FSEI_DigitalDice.cpp:162-166 | the overflow that brings the count to 6300 is exactly one animation frame with the count reset |
| DiceProperties.RollingFirstFrame | Software/Code/FSEI_DigitalDice.cpp:162-166 | from a fresh count in TRNG mode, 6300 + m overflows are one animation frame followed by m overflows |
| DiceProperties.RollingFrames | Software/Code/FSEI_DigitalDice.cpp:162-166 | from a fresh count, 6300·k overflows are k animation frames |
| DiceProperties.FrameRunPort | Software/Code/FSEI_DigitalDice.cpp:164-165 | k frames set the animation counter to its start value plus k modulo 256 and, for k > 0, write that counter's face over the LEDs of the start state, changing nothing else |
| DiceProperties.FrameRunShows | Software/Code/FSEI_DigitalDice.cpp:164-165 | after k frames the animation counter has advanced by k modulo 256, its face is shown, and nothing else has changed |
| DiceProperties.FaceAfterFramesIs | Software/Code/FSEI_DigitalDice.cpp:162-166 | after k ≥ 1 frames of overflows the LEDs show `((counter + k) mod 256) % 6 + 1` |
| DiceProperties.FramesAre | Software/Code/FSEI_DigitalDice.cpp:162-166 | frame i (0..5) of the next six shows `((counter + i + 1) mod 256) % 6 + 1` |
| DiceProperties.FramesFromZero | Software/Code/FSEI_DigitalDice.cpp:164-165 | from animation counter 0 the six frames show 2, 3, 4, 5, 6, 1 |
| DiceProperties.PressThenSixFrames | Software/Code/FSEI_DigitalDice.cpp:127-165 | after a press, six frames of holding the button show every face once: 2, 3, 4, 5, 6, 1 |
| DiceProperties.SixFramesShowAllFaces | Software/Code/FSEI_DigitalDice.cpp:164-165 | six consecutive frames starting at an animation counter of at most 249 (so the 8-bit counter does not wrap) show every face |
| DiceProperties.AnimationWrapSkipsFaces | Software/Code/FSEI_DigitalDice.cpp:164-165 | the six frames after animation counter 252 show 2, 3, 4, 1, 2, 3 and never 5 or 6 |
| DiceProperties.PressCancelsTimeout | Software/Code/FSEI_DigitalDice.cpp:125-131 | after a press, in any state including a pending countdown, no number of overflows reaches the timeout: the mode stays TRNG, the timer runs unprescaled, idle sleep stays selected |
| DiceDevice.Die.constructor | Software/Code/FSEI_DigitalDice.cpp:172-197 | the registers and globals start at main's values (counters 0, PB5 pull-up, power-down sleep) and satisfy the invariant |
| DiceDevice.Die.DisplayAugenzahl | Software/Code/FSEI_DigitalDice.cpp:61-95 | only PORTB changes; its non-LED bits keep their value and the LEDs show the face given |
| DiceDevice.Die.ActivateTimer | Software/Code/FSEI_DigitalDice.cpp:99-119 | the new fields are those of DiceSpec.ActivateTimer on the old ones |
| DiceDevice.Die.OnPinChange | Software/Code/FSEI_DigitalDice.cpp:123-141 | the new fields are those of DiceSpec.PinChange on the old ones, and the invariant is kept |
| DiceDevice.Die.OnTimerOverflow | Software/Code/FSEI_DigitalDice.cpp:145-169 | the new fields are those of DiceSpec.TimerOverflow on the old ones, and the invariant is kept |

## Left out

- The register set-up in `main` (DDRB, TCCR0A, PCMSK, GIMSK, PRR, `cli`/`sei`) is left out. Only its effect appears, as the initial state: counters 0, the PB5 pull-up bit of PORTB set, timer stopped and masked, power-down sleep.
- The endless `sleep_mode()` loop and the power states are left out. Only the selected sleep mode is kept, as a field.
- The hardware counting of TCNT0 between events is not modelled. The TCNT0 field holds the last value software loaded. The value read on release is the parameter `tcnt0Now`.
- Interrupt concurrency, priority and a pending overflow flag are not modelled. Each handler is one atomic step. In an event trace an overflow runs the handler only while TOIE0 is set and the clock is running.
- Because each call is atomic, the model cannot observe the order of writes inside `activate_timer`, such as stopping the timer before reconfiguring it.
- Real-time durations (the 9.6 MHz clock, about 7 s, about 1/6 s) are left out. Only the overflow counts 255 and 6300 are kept, as named constants.
- Entropy quality and bias of the XOR/modulo mix are not modelled, and neither is button debouncing, which is done by the analogue filter.
- DiceSpec.TimerOverflow: its own contract states only what every overflow keeps and how the count moves. The threshold actions of each mode are stated by `IdleOverflow` and `TrngOverflow`, which keep the per-mode case analysis out of every proof that uses the function.
- DiceSpec.PinChange: its own contract leaves out the face shown on release. `ReleaseShowsRoll` states it.
