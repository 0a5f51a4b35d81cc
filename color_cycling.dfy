/** The colour-cycling rings: ring `value` of `steps` gets a hue that runs from 0
    round the colour wheel, shifted by `amount`. Only the hue is modelled; the
    saturation is fixed at 1 and the brightness is passed through unchanged. */
module ColorCycling {

  datatype ColorCyclingCircle = ColorCyclingCircle(amount: real, steps: int) {

    /** The hue of ring `value`: `value / steps + amount`, brought back by one
        whole turn when it is strictly past 1. So the result is always the
        unshifted hue or that hue less one turn, and 1 itself is kept. */
    function TargetHue(value: int): (hue: real)
      requires steps != 0
      ensures var t := value as real / steps as real + amount;
              (hue == t || hue == t - 1.0) && (hue == t <==> t <= 1.0)
    {
      var targetHue := value as real / steps as real + amount;
      if targetHue > 1.0 then targetHue - 1.0 else targetHue
    }
  }

  /** A circle built with only a shift, as the view does: it has 100 rings. */
  function MakeColorCyclingCircle(amount: real): (circle: ColorCyclingCircle)
    ensures circle.amount == amount && circle.steps == 100
  {
    ColorCyclingCircle(amount, 100)
  }

  /** A circle built with no arguments has no shift and 100 rings. */
  function DefaultColorCyclingCircle(): (circle: ColorCyclingCircle)
    ensures circle.amount == 0.0 && circle.steps == 100
  {
    MakeColorCyclingCircle(0.0)
  }

  /** A ring's share of the wheel, `value / steps`, lies in [0, 1) for the rings drawn. */
  lemma RingShare(value: int, steps: int)
    requires 0 <= value < steps
    ensures 0.0 <= value as real / steps as real < 1.0
  {
  }

  /** For every ring drawn and every shift the slider allows, the hue is in [0, 1]. */
  lemma HueInRange(circle: ColorCyclingCircle, value: int)
    requires 0 <= value < circle.steps && 0.0 <= circle.amount <= 1.0
    ensures 0.0 <= circle.TargetHue(value) <= 1.0
  {
    RingShare(value, circle.steps);
  }

  /** Away from exactly one turn, the hue is the fractional part of
      `value / steps + amount`: the cyclic hue the rings are meant to show. */
  lemma HueIsFractionalPart(circle: ColorCyclingCircle, value: int)
    requires 0 <= value < circle.steps && 0.0 <= circle.amount <= 1.0
    requires value as real / circle.steps as real + circle.amount != 1.0
    ensures var t := value as real / circle.steps as real + circle.amount;
            circle.TargetHue(value) == t - t.Floor as real
  {
    RingShare(value, circle.steps);
  }

  /** With the default 100 rings: ring 0 at no shift has hue 0, ring 50 has hue
      0.5, and shifting by 0.7 moves ring 50 to 0.5 + 0.7 - 1 = 0.2, while
      shifting by exactly 0.5 leaves it at 1, unwrapped. */
  lemma HueExamples()
    ensures DefaultColorCyclingCircle().TargetHue(0) == 0.0
    ensures DefaultColorCyclingCircle().TargetHue(50) == 0.5
    ensures MakeColorCyclingCircle(0.7).TargetHue(50) == 0.2
    ensures MakeColorCyclingCircle(0.5).TargetHue(50) == 1.0
  {
  }
}
