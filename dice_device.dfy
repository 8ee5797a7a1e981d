/** The die as the firmware has it: registers and volatile globals updated in place by
    the two interrupt handlers. Each method is specified by the function of DiceSpec
    that models the same code.
 */
module DiceDevice {
  import opened Display
  import opened DiceSpec
  import DiceProperties

  class Die {
    // Registers of the ATtiny the firmware writes.
    var PORTB: bv8
    var TCCR0B: bv8
    var TIMSK0: bv8
    var TCNT0: bv8
    // The firmware's globals.
    var timerCounter: u16
    var timerUsageMode: u8
    var diceAnimCounter: u8
    var prevDiceRoll: bv8
    // The sleep mode last selected with set_sleep_mode.
    var sleepMode: SleepMode

    ghost function State(): DieState
      reads this
    {
      DieState(PORTB, TCCR0B, TIMSK0, TCNT0, timerCounter, timerUsageMode,
               diceAnimCounter, prevDiceRoll, sleepMode)
    }

    ghost predicate Valid()
      reads this
    {
      Inv(State())
    }

    /** The die after power-on and main's set-up, before interrupts arrive. */
    constructor ()
      ensures State() == Initial()
      ensures Valid() && PhaseOf(State()) == DeepSleep
    {
      PORTB := 0x20;
      TCCR0B := 0;
      TIMSK0 := 0;
      TCNT0 := 0;
      timerCounter := 0;
      timerUsageMode := TMODE_IDLE;
      diceAnimCounter := 0;
      prevDiceRoll := 0;
      sleepMode := PowerDown;
      new;
      DiceProperties.InitialInv();
    }

    /** Show face `zahl` (0 = blank) on the four LED lines, leaving the rest of port B. */
    method DisplayAugenzahl(zahl: bv8)
      modifies this
      ensures State() == old(State()).(portb := ShowFace(old(PORTB), zahl))
      ensures PORTB & !LED_MASK == old(PORTB) & !LED_MASK
      ensures ShownFace(PORTB) == Some(if zahl <= 6 then zahl as nat else 0)
    {
      PORTB := PORTB & !(PB3 | PB2 | PB1 | PB0);
      if zahl == 1 {
        PORTB := PORTB | PB0;
      } else if zahl == 2 {
        PORTB := PORTB | PB1;
      } else if zahl == 3 {
        PORTB := PORTB | (PB1 | PB0);
      } else if zahl == 4 {
        PORTB := PORTB | (PB1 | PB3);
      } else if zahl == 5 {
        PORTB := PORTB | (PB1 | PB3 | PB0);
      } else if zahl == 6 {
        PORTB := PORTB | (PB1 | PB2 | PB3);
      }
    }

    /** Restart timer 0 in `timerMode`, counting from `timerValue`. */
    method ActivateTimer(timerMode: u8, timerValue: bv8)
      modifies this
      ensures State() == DiceSpec.ActivateTimer(old(State()), timerMode, timerValue)
    {
      TCCR0B := 0;
      timerUsageMode := timerMode;
      timerCounter := 0;
      TCNT0 := timerValue;
      TIMSK0 := TOIE0;
      if timerMode == TMODE_IDLE {
        TCCR0B := CS02 | CS00;
      } else if timerMode == TMODE_TRNG {
        TCCR0B := CS00;
      }
    }

    /** The pin-change interrupt: `pb4High` is the button level read by the handler,
        `tcnt0Now` the running timer's value at that moment. */
    method OnPinChange(pb4High: bool, tcnt0Now: bv8)
      requires Valid()
      modifies this
      ensures State() == PinChange(old(State()), pb4High, tcnt0Now)
      ensures Valid()
    {
      if pb4High {
        diceAnimCounter := 0;
        ActivateTimer(TMODE_TRNG, prevDiceRoll);
        sleepMode := Idle;
      } else {
        prevDiceRoll := prevDiceRoll ^ tcnt0Now;
        DisplayAugenzahl(FaceFromByte(prevDiceRoll as int));
        ActivateTimer(TMODE_IDLE, 0);
      }
      DiceProperties.PinChangePreservesInv(old(State()), pb4High, tcnt0Now);
    }

    /** The timer-0 overflow interrupt. */
    method OnTimerOverflow()
      requires Valid()
      modifies this
      ensures State() == TimerOverflow(old(State()))
      ensures Valid()
    {
      timerCounter := Inc(timerCounter, 0x1_0000);
      if timerUsageMode == TMODE_IDLE {
        if timerCounter >= IDLE_TIMEOUT_OVERFLOWS {
          TCCR0B := 0;
          TIMSK0 := 0;
          DisplayAugenzahl(0);
          sleepMode := PowerDown;
        }
      } else if timerUsageMode == TMODE_TRNG {
        if timerCounter >= ANIMATION_TICK_OVERFLOWS {
          diceAnimCounter := Inc(diceAnimCounter, 0x100);
          DisplayAugenzahl(FaceFromByte(diceAnimCounter));
          timerCounter := 0;
        }
      }
      assert State() == TimerOverflow(old(State()));
      DiceProperties.OverflowPreservesInv(old(State()));
    }
  }
}
