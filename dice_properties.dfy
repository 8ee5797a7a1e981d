/** Properties of the die's handlers: what one event does, the invariant every
    reachable state keeps, and the timed scenarios (timeout, rolling animation).
 */
module DiceProperties {
  import opened Display
  import opened DiceSpec

  // ---------------------------------------------------------------------------
  // One event at a time
  // ---------------------------------------------------------------------------

  /** A rising edge restarts the animation, arms the unprescaled timer seeded with the
      stored roll and selects idle sleep; the roll and the LEDs are left as they were. */
  lemma PressArmsCollecting(s: DieState, tcnt0Now: bv8)
    ensures var t := PinChange(s, true, tcnt0Now);
      t.animCounter == 0 && t.timerMode == TMODE_TRNG && t.tcnt0 == s.prevRoll &&
      t.timerCounter == 0 && ClockSource(t.tccr0b) == Prescaled(1) && OverflowArmed(t) &&
      t.sleep == Idle && t.prevRoll == s.prevRoll && t.portb == s.portb &&
      PhaseOf(t) == Collecting
  {
  }

  /** A falling edge mixes the timer value into the stored roll, shows the face derived
      from the new roll, and arms the timer with prescaler 1024 from 0. */
  lemma ReleaseShowsRoll(s: DieState, tcnt0Now: bv8)
    ensures var t := PinChange(s, false, tcnt0Now);
      t.prevRoll == s.prevRoll ^ tcnt0Now &&
      ShownFace(t.portb) == Some(FaceFromByte(t.prevRoll as int) as nat) &&
      1 <= FaceFromByte(t.prevRoll as int) <= 6 &&
      t.portb & !LED_MASK == s.portb & !LED_MASK &&
      t.timerMode == TMODE_IDLE && t.tcnt0 == 0 && t.timerCounter == 0 &&
      ClockSource(t.tccr0b) == Prescaled(1024) && OverflowArmed(t) &&
      t.animCounter == s.animCounter && t.sleep == s.sleep &&
      PhaseOf(t) == CountingDown
  {
  }

  /** With a stored roll of 3 and the timer at 5, the roll becomes 3 XOR 5 = 6 and the
      die shows (6 % 6) + 1 = 1. */
  lemma ReleaseExample(s: DieState)
    requires s.prevRoll == 3
    ensures PinChange(s, false, 5).prevRoll == 6
    ensures ShownFace(PinChange(s, false, 5).portb) == Some(1)
  {
  }

  /** The stored roll is the raw mixed byte, not a face: every byte can be stored. */
  lemma RollIsAnyByte(s: DieState, b: bv8)
    ensures PinChange(s, false, s.prevRoll ^ b).prevRoll == b
  {
  }

  /** An overflow in IDLE mode counts; at 255 overflows it stops and masks the timer,
      blanks the LEDs and selects power-down sleep, below that nothing else changes. */
  lemma IdleOverflow(s: DieState)
    requires s.timerMode == TMODE_IDLE
    ensures var t := TimerOverflow(s);
      t.timerCounter == Inc(s.timerCounter, 0x1_0000) &&
      if t.timerCounter >= IDLE_TIMEOUT_OVERFLOWS then
        t.tccr0b == 0 && t.timsk0 == 0 && ClockSource(t.tccr0b) == Stopped &&
        !OverflowArmed(t) && ShownFace(t.portb) == Some(0) &&
        t.portb & !LED_MASK == s.portb & !LED_MASK && t.sleep == PowerDown &&
        t.timerMode == s.timerMode && t.tcnt0 == s.tcnt0 &&
        t.animCounter == s.animCounter && t.prevRoll == s.prevRoll
      else
        t == s.(timerCounter := Inc(s.timerCounter, 0x1_0000))
  {
  }

  /** An overflow in TRNG mode counts; at 6300 overflows it advances the animation, shows
      its next face and restarts the count, leaving mode and timer registers alone. After
      any such overflow the count is below 6300. */
  lemma TrngOverflow(s: DieState)
    requires s.timerMode == TMODE_TRNG
    ensures var t := TimerOverflow(s);
      t.timerCounter < ANIMATION_TICK_OVERFLOWS &&
      if Inc(s.timerCounter, 0x1_0000) >= ANIMATION_TICK_OVERFLOWS then
        t.animCounter == Inc(s.animCounter, 0x100) &&
        ShownFace(t.portb) == Some(FaceFromByte(t.animCounter) as nat) &&
        t.portb & !LED_MASK == s.portb & !LED_MASK &&
        t.timerCounter == 0 && t.timerMode == s.timerMode && t.tcnt0 == s.tcnt0 &&
        t.tccr0b == s.tccr0b && t.timsk0 == s.timsk0 && t.sleep == s.sleep &&
        t.prevRoll == s.prevRoll
      else
        t == s.(timerCounter := Inc(s.timerCounter, 0x1_0000))
  {
  }

  // ---------------------------------------------------------------------------
  // The invariant of reachable states
  // ---------------------------------------------------------------------------

  lemma InitialInv()
    ensures Inv(Initial())
    ensures PhaseOf(Initial()) == DeepSleep
  {
  }

  lemma PinChangePreservesInv(s: DieState, pb4High: bool, tcnt0Now: bv8)
    requires Inv(s)
    ensures Inv(PinChange(s, pb4High, tcnt0Now))
    ensures PhaseOf(PinChange(s, pb4High, tcnt0Now)) ==
            if pb4High then Collecting else CountingDown
  {
    if !pb4High {
      ReleaseShowsRoll(s, tcnt0Now);
      PatternPips(FaceFromByte((s.prevRoll ^ tcnt0Now) as int));
    }
  }

  lemma OverflowPreservesInv(s: DieState)
    requires Inv(s)
    ensures Inv(TimerOverflow(s))
  {
    if s.timerMode == TMODE_IDLE {
      IdleOverflow(s);
    } else {
      TrngOverflow(s);
    }
  }

  lemma StepPreservesInv(s: DieState, e: Event)
    requires Inv(s)
    ensures Inv(Step(s, e))
  {
    match e
    case PinChangeEvent(high, now) => PinChangePreservesInv(s, high, now);
    case OverflowEvent => if OverflowArmed(s) { OverflowPreservesInv(s); }
  }

  lemma {:induction false} RunPreservesInv(s: DieState, es: seq<Event>)
    requires Inv(s)
    ensures Inv(Run(s, es))
    decreases |es|
  {
    if es != [] {
      StepPreservesInv(s, es[0]);
      RunPreservesInv(Step(s, es[0]), es[1..]);
    }
  }

  /** Whatever the die goes through, its LEDs hold one of the seven face patterns, the
      timer mode is IDLE or TRNG, and in TRNG mode the count is below 6300. */
  lemma Reachable(es: seq<Event>)
    ensures var t := Run(Initial(), es);
      Inv(t) && ShownFace(t.portb).Some? &&
      (t.timerMode == TMODE_IDLE || t.timerMode == TMODE_TRNG) &&
      (t.timerMode == TMODE_TRNG ==> t.timerCounter < ANIMATION_TICK_OVERFLOWS)
  {
    InitialInv();
    RunPreservesInv(Initial(), es);
  }

  /** `n` overflow events in a row. */
  function OverflowEvents(n: nat): (es: seq<Event>)
    ensures |es| == n && forall i :: 0 <= i < n ==> es[i] == OverflowEvent
  {
    seq(n, _ => OverflowEvent)
  }

  /** In deep sleep the LEDs are off, power-down sleep is selected and the overflow
      interrupt is masked, so no number of overflow events changes anything: only a
      pin change wakes the die. */
  lemma {:induction false} DeepSleepIgnoresOverflows(s: DieState, n: nat)
    requires Inv(s) && PhaseOf(s) == DeepSleep
    ensures s.portb & LED_MASK == 0 && ShownFace(s.portb) == Some(0) && s.sleep == PowerDown
    ensures ClockSource(s.tccr0b) == Stopped && s.timsk0 == 0
    ensures Run(s, OverflowEvents(n)) == s
  {
    ShownFaceExact(s.portb, 0);
    if n > 0 {
      assert OverflowEvents(n)[1..] == OverflowEvents(n - 1);
      assert Step(s, OverflowEvent) == s;
      DeepSleepIgnoresOverflows(s, n - 1);
    }
  }

  /** A release seen while the die is in deep sleep arms the countdown but leaves
      power-down sleep selected: only a press selects idle sleep. */
  lemma ReleaseInDeepSleepKeepsPowerDown(s: DieState, tcnt0Now: bv8)
    requires Inv(s) && PhaseOf(s) == DeepSleep
    ensures PhaseOf(PinChange(s, false, tcnt0Now)) == CountingDown
    ensures PinChange(s, false, tcnt0Now).sleep == PowerDown
  {
    ReleaseShowsRoll(s, tcnt0Now);
  }

  // ---------------------------------------------------------------------------
  // Runs of overflows
  // ---------------------------------------------------------------------------

  lemma {:induction false} OverflowsAdd(s: DieState, a: nat, b: nat)
    ensures Overflows(s, a + b) == Overflows(Overflows(s, a), b)
    decreases b
  {
    if b > 0 {
      OverflowsAdd(s, a, b - 1);
      var x, y := Overflows(s, a + b - 1), Overflows(Overflows(s, a), b - 1);
      assert Overflows(s, a + b) == TimerOverflow(x);
      assert Overflows(Overflows(s, a), b) == TimerOverflow(y);
    }
  }

  /** Overflows in IDLE mode that keep the count below 255 only advance it. */
  lemma {:induction false} IdleQuiet(s: DieState, n: nat)
    requires s.timerMode == TMODE_IDLE
    requires s.timerCounter + n < IDLE_TIMEOUT_OVERFLOWS
    ensures Overflows(s, n) == s.(timerCounter := s.timerCounter + n)
  {
    if n > 0 {
      IdleQuiet(s, n - 1);
    }
  }

  /** Counting down from any count below 255, the display stays on until the overflow
      that brings the count to 255; that one blanks it, stops the timer, masks its
      interrupt and selects power-down sleep. */
  lemma IdleTimeout(s: DieState)
    requires Inv(s) && PhaseOf(s) == CountingDown
    ensures var n := IDLE_TIMEOUT_OVERFLOWS - s.timerCounter;
      n >= 1 &&
      (forall k :: 0 <= k < n ==> Overflows(s, k).portb == s.portb &&
                                  PhaseOf(Overflows(s, k)) == CountingDown) &&
      var t := Overflows(s, n);
      PhaseOf(t) == DeepSleep && !OverflowArmed(t) && Inv(t) &&
      ShownFace(t.portb) == Some(0) && t.portb & !LED_MASK == s.portb & !LED_MASK &&
      t.sleep == PowerDown && t.prevRoll == s.prevRoll
  {
    var n := IDLE_TIMEOUT_OVERFLOWS - s.timerCounter;
    forall k | 0 <= k < n
      ensures Overflows(s, k).portb == s.portb && PhaseOf(Overflows(s, k)) == CountingDown
    {
      IdleQuiet(s, k);
    }
    IdleQuiet(s, n - 1);
    IdleOverflow(Overflows(s, n - 1));
  }

  /** A release followed by 255 overflows ends in deep sleep with the LEDs off, the
      result having been shown throughout; further overflows then do nothing. */
  lemma ReleaseThenTimeout(s: DieState, tcnt0Now: bv8)
    requires Inv(s)
    ensures var r := PinChange(s, false, tcnt0Now);
      (forall k :: 0 <= k < 255 ==>
         ShownFace(Overflows(r, k).portb) == Some(FaceFromByte(r.prevRoll as int) as nat)) &&
      var t := Overflows(r, 255);
      PhaseOf(t) == DeepSleep && ShownFace(t.portb) == Some(0) && t.sleep == PowerDown &&
      Step(t, OverflowEvent) == t
  {
    var r := PinChange(s, false, tcnt0Now);
    ReleaseShowsRoll(s, tcnt0Now);
    PinChangePreservesInv(s, false, tcnt0Now);
    IdleTimeout(r);
    DeepSleepIgnoresOverflows(Overflows(r, 255), 1);
    assert OverflowEvents(1) == [OverflowEvent];
  }

  /** Overflows in TRNG mode that keep the count below 6300 only advance it. */
  lemma {:induction false} RollingQuiet(s: DieState, n: nat)
    requires s.timerMode == TMODE_TRNG
    requires s.timerCounter + n < ANIMATION_TICK_OVERFLOWS
    ensures Overflows(s, n) == s.(timerCounter := s.timerCounter + n)
  {
    if n > 0 {
      RollingQuiet(s, n - 1);
    }
  }

  /** One frame of the rolling animation: the next counter value and its face. */
  function Frame(s: DieState): DieState {
    var anim := Inc(s.animCounter, 0x100);
    s.(animCounter := anim, portb := ShowFace(s.portb, FaceFromByte(anim)))
  }

  /** `k` frames in a row. */
  function FrameRun(s: DieState, k: nat): DieState
    decreases k
  {
    if k == 0 then s else FrameRun(Frame(s), k - 1)
  }

  /** The overflow at count 6299 in TRNG mode is one animation frame with the count reset. */
  lemma RollingLastOverflow(t: DieState)
    requires t.timerMode == TMODE_TRNG && t.timerCounter == ANIMATION_TICK_OVERFLOWS - 1
    ensures TimerOverflow(t) == Frame(t).(timerCounter := 0)
  {
    assert Inc(t.timerCounter, 0x1_0000) == ANIMATION_TICK_OVERFLOWS;
  }

  /** The overflow that brings the count to 6300 is one animation frame. */
  lemma RollingTick(s: DieState)
    requires s.timerMode == TMODE_TRNG && s.timerCounter < ANIMATION_TICK_OVERFLOWS
    ensures Overflows(s, ANIMATION_TICK_OVERFLOWS - s.timerCounter) ==
            Frame(s).(timerCounter := 0)
  {
    var n := ANIMATION_TICK_OVERFLOWS - s.timerCounter;
    var last := s.(timerCounter := ANIMATION_TICK_OVERFLOWS - 1);
    RollingQuiet(s, n - 1);
    RollingLastOverflow(last);
  }

  /** From a fresh count, the first 6300 overflows of any longer run are one frame. */
  lemma RollingFirstFrame(s: DieState, m: nat)
    requires s.timerMode == TMODE_TRNG && s.timerCounter == 0
    ensures Overflows(s, ANIMATION_TICK_OVERFLOWS + m) == Overflows(Frame(s), m)
  {
    RollingTick(s);
    OverflowsAdd(s, ANIMATION_TICK_OVERFLOWS - s.timerCounter, m);
  }

  /** Every 6300 overflows from a fresh count are one frame. */
  lemma {:induction false} RollingFrames(s: DieState, k: nat)
    requires s.timerMode == TMODE_TRNG && s.timerCounter == 0
    ensures Overflows(s, 6300 * k) == FrameRun(s, k)
    decreases k
  {
    if k > 0 {
      var m := 6300 * (k - 1);
      assert 6300 * k == ANIMATION_TICK_OVERFLOWS + m;
      RollingFirstFrame(s, m);
      RollingFrames(Frame(s), k - 1);
    }
  }

  /** Advancing an 8-bit counter once and then k - 1 times is advancing it k times. */
  lemma WrapAdd(a: int, k: nat)
    requires k > 0
    ensures ((a + 1) % 0x100 + (k - 1)) % 0x100 == (a + k) % 0x100
  {
  }

  /** After k frames the animation counter has advanced by k (modulo 256), the port
      holds that counter's face written over the LEDs of the start state, and nothing
      else has changed. */
  lemma {:induction false} FrameRunPort(s: DieState, k: nat)
    ensures var a := (s.animCounter + k) % 0x100;
      FrameRun(s, k) ==
        s.(animCounter := a,
           portb := if k == 0 then s.portb else ShowFace(s.portb, FaceFromByte(a)))
    decreases k
  {
    if k > 0 {
      var f := Frame(s);
      var a := (s.animCounter + k) % 0x100;
      assert FrameRun(s, k) == FrameRun(f, k - 1);
      FrameRunPort(f, k - 1);
      WrapAdd(s.animCounter, k);
      if k > 1 {
        ShowFaceIgnoresOldLeds(f.portb, s.portb, FaceFromByte(a));
      } else {
        assert f.animCounter == a;
      }
    }
  }

  /** After k frames the animation counter has advanced by k (modulo 256) and, for k > 0,
      the LEDs show that counter's face; nothing else has changed. */
  lemma FrameRunShows(s: DieState, k: nat)
    ensures var t := FrameRun(s, k);
      t == s.(animCounter := (s.animCounter + k) % 0x100, portb := t.portb) &&
      t.portb & !LED_MASK == s.portb & !LED_MASK &&
      ShownFace(t.portb) ==
        if k == 0 then ShownFace(s.portb)
        else Some(FaceFromByte((s.animCounter + k) % 0x100) as nat)
  {
    FrameRunPort(s, k);
  }

  /** The face the LEDs show after `k` frames of 6300 overflows each. */
  function FaceAfterFrames(s: DieState, k: nat): Option<nat> {
    ShownFace(Overflows(s, 6300 * k).portb)
  }

  lemma FaceAfterFramesIs(s: DieState, k: nat)
    requires s.timerMode == TMODE_TRNG && s.timerCounter == 0 && k >= 1
    ensures FaceAfterFrames(s, k) == Some(FaceFromByte((s.animCounter + k) % 0x100) as nat)
  {
    RollingFrames(s, k);
    FrameRunShows(s, k);
  }

  /** The faces shown at the ends of the next six animation frames. */
  function Frames(s: DieState): (faces: seq<Option<nat>>)
    ensures |faces| == 6
  {
    seq(6, i requires 0 <= i < 6 => FaceAfterFrames(s, i + 1))
  }

  /** The face of a byte as a number. */
  lemma FaceFromByteValue(b: u8)
    ensures FaceFromByte(b) as nat == b % 6 + 1
  {
  }

  lemma FramesAre(s: DieState)
    requires s.timerMode == TMODE_TRNG && s.timerCounter == 0
    ensures forall i :: 0 <= i < 6 ==>
      Frames(s)[i] == Some((s.animCounter + i + 1) % 0x100 % 6 + 1)
  {
    forall i | 0 <= i < 6
      ensures Frames(s)[i] == Some((s.animCounter + i + 1) % 0x100 % 6 + 1)
    {
      FaceAfterFramesIs(s, i + 1);
      FaceFromByteValue((s.animCounter + i + 1) % 0x100);
    }
  }

  /** From a fresh count and animation counter 0 the animation shows 2, 3, 4, 5, 6, 1. */
  lemma FramesFromZero(s: DieState)
    requires s.timerMode == TMODE_TRNG && s.timerCounter == 0 && s.animCounter == 0
    ensures Frames(s) == [Some(2), Some(3), Some(4), Some(5), Some(6), Some(1)]
  {
    FramesAre(s);
  }

  /** Right after a press the animation shows 2, 3, 4, 5, 6, 1: every face once. */
  lemma PressThenSixFrames(s: DieState, tcnt0Now: bv8)
    ensures Frames(PinChange(s, true, tcnt0Now)) ==
            [Some(2), Some(3), Some(4), Some(5), Some(6), Some(1)]
  {
    PressArmsCollecting(s, tcnt0Now);
    FramesFromZero(PinChange(s, true, tcnt0Now));
  }

  /** While the animation counter does not wrap, six frames show every face. */
  lemma SixFramesShowAllFaces(s: DieState, face: nat)
    requires s.timerMode == TMODE_TRNG && s.timerCounter == 0 && s.animCounter <= 249
    requires 1 <= face <= 6
    ensures Some(face) in Frames(s)
  {
    FramesAre(s);
    var a := s.animCounter;
    var i := (face + 10 - (a % 6)) % 6;
    assert (a + i + 1) % 6 + 1 == face;
    assert Frames(s)[i] == Some(face);
  }

  /** At the 8-bit wrap of the animation counter (256 is not a multiple of 6) six frames
      show 2, 3, 4, 1, 2, 3 and skip faces 5 and 6. */
  lemma AnimationWrapSkipsFaces(s: DieState)
    requires s.timerMode == TMODE_TRNG && s.timerCounter == 0 && s.animCounter == 252
    ensures Frames(s) == [Some(2), Some(3), Some(4), Some(1), Some(2), Some(3)]
    ensures Some(5) !in Frames(s) && Some(6) !in Frames(s)
  {
    FramesAre(s);
    var fs := Frames(s);
    assert fs == [Some(2), Some(3), Some(4), Some(1), Some(2), Some(3)];
  }

  /** After a press no number of overflows reaches the timeout: the mode stays TRNG,
      the timer keeps running unprescaled and idle sleep stays selected. */
  lemma {:induction false} PressCancelsTimeout(s: DieState, tcnt0Now: bv8, n: nat)
    ensures var t := Overflows(PinChange(s, true, tcnt0Now), n);
      t.timerMode == TMODE_TRNG && t.tccr0b == CS00 && t.timsk0 == TOIE0 &&
      OverflowArmed(t) && t.sleep == Idle && PhaseOf(t) == Collecting &&
      t.prevRoll == s.prevRoll && t.timerCounter < ANIMATION_TICK_OVERFLOWS
  {
    if n > 0 {
      PressCancelsTimeout(s, tcnt0Now, n - 1);
      TrngOverflow(Overflows(PinChange(s, true, tcnt0Now), n - 1));
    }
  }
}
