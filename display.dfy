/** The die's LED encoder.

    Port B drives four LED groups on PB0..PB3; PB4 is the button input and PB5 the
    reset pin. The seven pips of a die face are wired as four groups:

        LED3 .   LED1         PB3 .   PB1
        LED2 LED4 LED2   =    PB2 PB0 PB2
        LED1 .   LED3         PB1 .   PB3

    so the centre group (PB0) lights one pip and each of the other three lights two.
 */
module Display {

  datatype Option<T> = None | Some(value: T)

  const PB0: bv8 := 0x01  // LED4, the centre pip
  const PB1: bv8 := 0x02  // LED1, top-right and bottom-left pips
  const PB2: bv8 := 0x04  // LED2, the two middle-row side pips
  const PB3: bv8 := 0x08  // LED3, top-left and bottom-right pips
  const LED_MASK: bv8 := 0x0F

  /** The LED bits that face `face` lights; 0 and every value above 6 light nothing. */
  function Pattern(face: bv8): (p: bv8)
    ensures p & !LED_MASK == 0
    ensures p == 0 <==> face == 0 || face > 6
  {
    if face == 1 then PB0
    else if face == 2 then PB1
    else if face == 3 then PB1 | PB0
    else if face == 4 then PB1 | PB3
    else if face == 5 then PB1 | PB3 | PB0
    else if face == 6 then PB1 | PB2 | PB3
    else 0
  }

  /** The number of pips the LED bits of `portb` light (independent of Pattern). */
  function Pips(portb: bv8): (n: nat)
    ensures n <= 7
  {
    (if portb & PB0 != 0 then 1 else 0) +
    (if portb & PB1 != 0 then 2 else 0) +
    (if portb & PB2 != 0 then 2 else 0) +
    (if portb & PB3 != 0 then 2 else 0)
  }

  /** The number of LED groups the LED bits of `portb` light. */
  function Groups(portb: bv8): (n: nat)
    ensures n <= 4
  {
    (if portb & PB0 != 0 then 1 else 0) +
    (if portb & PB1 != 0 then 1 else 0) +
    (if portb & PB2 != 0 then 1 else 0) +
    (if portb & PB3 != 0 then 1 else 0)
  }

  /** The face 0..6 that the LED bits of `portb` show, or None when they hold none of
      the seven patterns. */
  function ShownFace(portb: bv8): (f: Option<nat>)
    ensures f.Some? ==> f.value <= 6
  {
    var n := Pips(portb & LED_MASK);
    if n <= 6 && Pattern(n as bv8) == portb & LED_MASK then Some(n) else None
  }

  /** DisplayAugenzahl on the port value: clear the four LED bits, then light the pattern
      of `face`. */
  function ShowFace(portb: bv8, face: bv8): (r: bv8)
    ensures r & !LED_MASK == portb & !LED_MASK
    ensures ShownFace(r) == Some(if face <= 6 then face as nat else 0)
  {
    PatternPips(face);
    (portb & !LED_MASK) | Pattern(face)
  }

  /** Each of the faces 1..6 lights exactly that many pips. */
  lemma PatternPips(face: bv8)
    ensures Pips(Pattern(face)) == if 1 <= face <= 6 then face as nat else 0
  {
  }

  /** Faces 1, 2 light one group, 3 and 4 two groups, 5 and 6 three groups. */
  lemma PatternGroups(face: bv8)
    requires 1 <= face <= 6
    ensures Groups(Pattern(face)) == (face as nat + 1) / 2
  {
  }

  /** The seven patterns are pairwise distinct. */
  lemma PatternsDistinct(a: bv8, b: bv8)
    requires a <= 6 && b <= 6 && a != b
    ensures Pattern(a) != Pattern(b)
  {
    PatternPips(a);
    PatternPips(b);
  }

  /** ShownFace reads back exactly the face whose pattern the LED bits hold. */
  lemma ShownFaceExact(portb: bv8, face: nat)
    ensures ShownFace(portb) == Some(face) <==>
            face <= 6 && portb & LED_MASK == Pattern(face as bv8)
  {
    if face <= 6 && portb & LED_MASK == Pattern(face as bv8) {
      PatternPips(face as bv8);
    }
  }

  /** The new port value does not depend on the LED bits it had before. */
  lemma ShowFaceIgnoresOldLeds(p: bv8, q: bv8, face: bv8)
    requires p & !LED_MASK == q & !LED_MASK
    ensures ShowFace(p, face) == ShowFace(q, face)
  {
  }

  /** Showing the same face twice is showing it once. */
  lemma ShowFaceIdempotent(portb: bv8, face: bv8)
    ensures ShowFace(ShowFace(portb, face), face) == ShowFace(portb, face)
  {
  }

  /** 0 and every value outside 1..6 leave all four LED bits cleared. */
  lemma ShowFaceBlanks(portb: bv8, face: bv8)
    requires face == 0 || face > 6
    ensures ShowFace(portb, face) & LED_MASK == 0
  {
  }
}
