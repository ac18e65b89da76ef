/** GPIO ports as the teardown sees them: 16 pins per port, a pin mask with bit p
    standing for pin p (GPIO_PIN_p == 1 << p), and the mode each pin is in. */
module Gpio {

  /** A pin number, 0..15, kept as a small bit-vector so that GPIO_PIN_p is a
      bit-vector shift. */
  type PinIndex = p: bv8 | p < 16

  /** The MODER setting of one pin; Analog is the inert, non-driving setting that
      HAL_GPIO_DeInit leaves a pin in. */
  datatype PinMode = Input | Output | AlternateFunction | Analog

  /** The modes of the 16 pins of one port, pin 0 first. */
  type PortModes = s: seq<PinMode> | |s| == 16 witness seq(16, _ => Analog)

  /** GPIO_PIN_p. */
  function PinBit(p: PinIndex): bv16
  {
    (1 as bv16) << p
  }

  predicate HasPin(mask: bv16, p: PinIndex)
  {
    (mask >> p) & 1 == 1
  }

  /** The OR of GPIO_PIN_p over the listed pins: a pin is in the mask exactly when
      it is listed. */
  function PinMask(pins: seq<PinIndex>): (mask: bv16)
    ensures forall p: PinIndex :: HasPin(mask, p) <==> p in pins
  {
    if pins == [] then 0
    else
      var rest := PinMask(pins[1..]);
      assert forall p: PinIndex :: p in pins <==> p == pins[0] || p in pins[1..];
      OrPin(pins[0], rest);
      PinBit(pins[0]) | rest
  }

  /** Adding GPIO_PIN_q to a mask adds pin q and no other. */
  lemma OrPin(q: PinIndex, mask: bv16)
    ensures forall p: PinIndex :: HasPin(PinBit(q) | mask, p) <==> p == q || HasPin(mask, p)
  {
  }

  /** The effect of HAL_GPIO_DeInit(port, mask) on pin modes: every pin in the mask
      is returned to analog, every other pin keeps its mode. */
  function DeInitPins(modes: PortModes, mask: bv16): PortModes
  {
    seq(16, i requires 0 <= i < 16 => if HasPin(mask, i as bv8) then Analog else modes[i])
  }

  /** After DeInitPins the masked pins are inert and the others untouched, and a
      second de-initialisation of the same mask changes nothing. */
  lemma DeInitPinsEffect(modes: PortModes, mask: bv16)
    ensures forall p: PinIndex :: HasPin(mask, p) ==> DeInitPins(modes, mask)[p] == Analog
    ensures forall p: PinIndex :: !HasPin(mask, p) ==> DeInitPins(modes, mask)[p] == modes[p]
    ensures DeInitPins(DeInitPins(modes, mask), mask) == DeInitPins(modes, mask)
  {
  }

  /** De-initialisation forgets the modes of the masked pins: two ports that agree
      on every other pin agree after it. */
  lemma DeInitPinsAgree(m1: PortModes, m2: PortModes, mask: bv16)
    requires forall p: PinIndex :: !HasPin(mask, p) ==> m1[p] == m2[p]
    ensures DeInitPins(m1, mask) == DeInitPins(m2, mask)
  {
    forall i | 0 <= i < 16
      ensures DeInitPins(m1, mask)[i] == DeInitPins(m2, mask)[i]
    {
      var p: PinIndex := i as bv8;
      assert !HasPin(mask, p) ==> m1[p] == m2[p];
    }
  }

  /** A mask with all 16 pins set is the full port, 0xFFFF. */
  lemma FullMask(mask: bv16)
    requires forall p: PinIndex :: HasPin(mask, p)
    ensures mask == 0xFFFF
  {
    assert HasPin(mask, 0) && HasPin(mask, 1) && HasPin(mask, 2) && HasPin(mask, 3);
    assert HasPin(mask, 4) && HasPin(mask, 5) && HasPin(mask, 6) && HasPin(mask, 7);
    assert HasPin(mask, 8) && HasPin(mask, 9) && HasPin(mask, 10) && HasPin(mask, 11);
    assert HasPin(mask, 12) && HasPin(mask, 13) && HasPin(mask, 14) && HasPin(mask, 15);
  }
}
