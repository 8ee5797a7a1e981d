/** The die's state machine as pure functions on a snapshot of its registers and globals.
    Each function is one handler of FSEI_DigitalDice.cpp run to completion; the class
    in DiceDevice is specified by them.
 */
module DiceSpec {
  import opened Display

  /** The C globals' integer types: `unsigned char` and `unsigned short` (16 bits). */
  type u8 = x: int | 0 <= x < 0x100
  type u16 = x: int | 0 <= x < 0x1_0000

  /** `x + 1` in an unsigned type of `modulus` values: wraps to 0. */
  function Inc(x: int, modulus: nat): (r: int)
    requires 0 <= x < modulus
    ensures 0 <= r < modulus
    ensures r == 0 <==> x == modulus - 1
    ensures r == (x + 1) % modulus
  {
    if x + 1 == modulus then 0 else x + 1
  }

  /** Values of TIMER_USAGE_MODE. */
  const TMODE_IDLE: u8 := 0
  const TMODE_TRNG: u8 := 1

  /** Overflows of the timer before the display is switched off (IDLE mode). */
  const IDLE_TIMEOUT_OVERFLOWS: u16 := 255
  /** Overflows of the timer between two frames of the rolling animation (TRNG mode). */
  const ANIMATION_TICK_OVERFLOWS: u16 := 6300

  /** Bits of TCCR0B (clock select) and TIMSK0 (overflow interrupt enable), ATtiny13A. */
  const CS00: bv8 := 0x01
  const CS02: bv8 := 0x04
  const TOIE0: bv8 := 0x02

  /** The sleep mode selected with set_sleep_mode. */
  datatype SleepMode = Idle | PowerDown

  /** What the clock-select bits CS02..CS00 of TCCR0B make timer 0 count. */
  datatype TimerClock = Stopped | Prescaled(divisor: nat) | ExternalPin

  function ClockSource(tccr0b: bv8): TimerClock {
    var cs := tccr0b & 0x07;
    if cs == 0 then Stopped
    else if cs == 1 then Prescaled(1)
    else if cs == 2 then Prescaled(8)
    else if cs == 3 then Prescaled(64)
    else if cs == 4 then Prescaled(256)
    else if cs == 5 then Prescaled(1024)
    else ExternalPin
  }

  /** Everything the handlers write: the registers PORTB, TCCR0B, TIMSK0, TCNT0, the
      globals TIMER_COUNTER (16 bits), TIMER_USAGE_MODE, DICE_ANIM_COUNTER and
      PREV_DICE_ROLL (8 bits each), and the selected sleep mode. */
  datatype DieState = DieState(
    portb: bv8,
    tccr0b: bv8,
    timsk0: bv8,
    tcnt0: bv8,
    timerCounter: u16,
    timerMode: u8,
    animCounter: u8,
    prevRoll: bv8,
    sleep: SleepMode)

  /** The state once main has set up the hardware: all globals 0, timer 0 stopped and
      its interrupt masked (reset values), LEDs off, the PB5 pull-up on, power-down sleep. */
  function Initial(): (r: DieState)
    ensures ShownFace(r.portb) == Some(0) && r.portb & !LED_MASK == 0x20
    ensures ClockSource(r.tccr0b) == Stopped && r.timsk0 & TOIE0 == 0
    ensures r.timerCounter == 0 && r.timerMode == TMODE_IDLE && r.animCounter == 0
    ensures r.prevRoll == 0 && r.sleep == PowerDown
  {
    DieState(0x20, 0, 0, 0, 0, TMODE_IDLE, 0, 0, PowerDown)
  }

  /** The face 1..6 derived from a byte, as in `x % 6 + 1`. */
  function FaceFromByte(b: u8): (face: bv8)
    ensures 1 <= face <= 6
  {
    (b % 6 + 1) as bv8
  }

  /** The clock select that activate_timer writes for a mode; 0 (stopped) for an unknown one. */
  function ClockSelect(mode: u8): bv8 {
    if mode == TMODE_IDLE then CS02 | CS00
    else if mode == TMODE_TRNG then CS00
    else 0
  }

  /** activate_timer: stop the timer, record the mode, reset the software counter, load
      TCNT0, enable the overflow interrupt and restart the timer for the mode. */
  function ActivateTimer(s: DieState, mode: u8, value: bv8): (r: DieState)
    ensures r.timerCounter == 0 && r.timerMode == mode && r.tcnt0 == value && r.timsk0 == TOIE0
    ensures ClockSource(r.tccr0b) ==
            if mode == TMODE_IDLE then Prescaled(1024)
            else if mode == TMODE_TRNG then Prescaled(1)
            else Stopped
    ensures r.portb == s.portb && r.animCounter == s.animCounter &&
            r.prevRoll == s.prevRoll && r.sleep == s.sleep
  {
    s.(tccr0b := ClockSelect(mode), timerMode := mode, timerCounter := 0,
       tcnt0 := value, timsk0 := TOIE0)
  }

  /** The pin-change handler. `pb4High` is the level of the button line PB4 read in the
      handler, `tcnt0Now` the value of the running timer at that moment. */
  function PinChange(s: DieState, pb4High: bool, tcnt0Now: bv8): (r: DieState)
    ensures r.timerCounter == 0 && r.timsk0 == TOIE0
    ensures r.timerMode == if pb4High then TMODE_TRNG else TMODE_IDLE
    ensures r.portb & !LED_MASK == s.portb & !LED_MASK
    ensures pb4High ==> r.prevRoll == s.prevRoll && r.tcnt0 == s.prevRoll &&
                        r.animCounter == 0 && r.portb == s.portb && r.sleep == Idle
    ensures !pb4High ==> r.prevRoll == s.prevRoll ^ tcnt0Now && r.tcnt0 == 0 &&
                         r.animCounter == s.animCounter && r.sleep == s.sleep
  {
    if pb4High then
      ActivateTimer(s.(animCounter := 0), TMODE_TRNG, s.prevRoll).(sleep := Idle)
    else
      var roll := s.prevRoll ^ tcnt0Now;
      ActivateTimer(s.(prevRoll := roll, portb := ShowFace(s.portb, FaceFromByte(roll as int))),
                    TMODE_IDLE, 0)
  }

  /** The timer-overflow handler. */
  function TimerOverflow(s: DieState): (r: DieState)
    ensures r.prevRoll == s.prevRoll && r.timerMode == s.timerMode && r.tcnt0 == s.tcnt0
    ensures s.timerMode == TMODE_TRNG ==> r.timerCounter < ANIMATION_TICK_OVERFLOWS
    ensures s.timerMode == TMODE_IDLE ==> r.timerCounter == Inc(s.timerCounter, 0x1_0000)
  {
    var count := Inc(s.timerCounter, 0x1_0000);
    if s.timerMode == TMODE_IDLE then
      if count >= IDLE_TIMEOUT_OVERFLOWS then
        s.(timerCounter := count, tccr0b := 0, timsk0 := 0,
           portb := ShowFace(s.portb, 0), sleep := PowerDown)
      else
        s.(timerCounter := count)
    else if s.timerMode == TMODE_TRNG then
      if count >= ANIMATION_TICK_OVERFLOWS then
        var anim := Inc(s.animCounter, 0x100);
        s.(animCounter := anim, portb := ShowFace(s.portb, FaceFromByte(anim)),
           timerCounter := 0)
      else
        s.(timerCounter := count)
    else
      s.(timerCounter := count)
  }

  /** The overflow interrupt can fire: it is enabled and the timer has a clock. */
  predicate OverflowArmed(s: DieState) {
    s.timsk0 & TOIE0 != 0 && ClockSource(s.tccr0b) != Stopped
  }

  /** The phases of the die: asleep with the LEDs off, collecting entropy while the
      button is held, showing a result until the timeout. */
  datatype Phase = DeepSleep | Collecting | CountingDown

  function PhaseOf(s: DieState): Phase {
    if s.timerMode == TMODE_TRNG then Collecting
    else if OverflowArmed(s) then CountingDown
    else DeepSleep
  }

  /** What holds of every state the two handlers can reach from Initial(). */
  predicate Inv(s: DieState) {
    ShownFace(s.portb).Some? &&
    (s.timerMode == TMODE_IDLE || s.timerMode == TMODE_TRNG) &&
    match PhaseOf(s)
    case Collecting =>
      s.tccr0b == CS00 && s.timsk0 == TOIE0 &&
      s.timerCounter < ANIMATION_TICK_OVERFLOWS && s.sleep == Idle
    case CountingDown =>
      s.tccr0b == CS02 | CS00 && s.timsk0 == TOIE0 &&
      s.timerCounter < IDLE_TIMEOUT_OVERFLOWS && s.portb & LED_MASK != 0
    case DeepSleep =>
      s.tccr0b == 0 && s.timsk0 == 0 && s.portb & LED_MASK == 0 && s.sleep == PowerDown
  }

  /** An interrupt the die receives: a level change on PB4, or a timer overflow. */
  datatype Event = PinChangeEvent(pb4High: bool, tcnt0Now: bv8) | OverflowEvent

  /** One event; a masked or stopped timer produces no overflow, so the handler does not run. */
  function Step(s: DieState, e: Event): DieState {
    match e
    case PinChangeEvent(high, now) => PinChange(s, high, now)
    case OverflowEvent => if OverflowArmed(s) then TimerOverflow(s) else s
  }

  /** The events of `es`, one after the other. */
  function Run(s: DieState, es: seq<Event>): DieState
    decreases |es|
  {
    if es == [] then s else Run(Step(s, es[0]), es[1..])
  }

  /** `n` overflow handlers in a row. */
  function Overflows(s: DieState, n: nat): DieState {
    if n == 0 then s else TimerOverflow(Overflows(s, n - 1))
  }
}
