/** The effect parameters the controller builds from normalised inputs:
    each input is multiplied by the device's force-feedback gain and
    truncated toward zero. */
module Effects {
  import opened Numerics
  import opened Device

  /** Cached inputs of the last damper request
      (`DamperNegativeResistance` ... `DamperDeadBand`). */
  datatype DamperSettings = DamperSettings(
    negativeResistance: real,
    positiveResistance: real,
    constantForce: real,
    deadBand: real)

  /** Cached inputs of the last spring request
      (`SpringNegativeSaturation` ... `SpringDeadBand`). */
  datatype SpringSettings = SpringSettings(
    negativeSaturation: real,
    positiveSaturation: real,
    negativeGain: real,
    positiveGain: real,
    centerPoint: real,
    deadBand: real)

  const NoDamper := DamperSettings(0.0, 0.0, 0.0, 0.0)
  const NoSpring := SpringSettings(0.0, 0.0, 0.0, 0.0, 0.0, 0.0)

  /** A condition that exerts no force. */
  const ZeroCondition := Condition(0, 0, 0, 0, 0, 0)

  /** The envelope shared by the three effects: the actuator axes, one
      direction 0, and the device gain. */
  function Envelope(gain: int, axes: seq<int>, p: TypeSpecific): EffectParameters
  {
    EffectParameters(axes, [0], gain, p)
  }

  /** `Magnitude = (int)(gain * -magnitude)`: the sign is inverted. The
      effect acts on the actuator axes in direction 0 with the device gain. */
  function ConstantForceParameters(gain: int, axes: seq<int>, magnitude: real): (p: EffectParameters)
    ensures p.axes == axes && p.directions == [0] && p.gain == gain
    ensures p.parameters.ConstantForce?
    ensures magnitude == 0.0 ==> p.parameters.magnitude == 0
  {
    Envelope(gain, axes, ConstantForce(Scale(gain, -magnitude)))
  }

  /** The damper condition: offset from the constant force, saturation and
      coefficient on each side from the resistance on that side. */
  function DamperCondition(gain: int, d: DamperSettings): (c: Condition)
    ensures c.negativeSaturation == c.negativeCoefficient && c.positiveSaturation == c.positiveCoefficient
    ensures d == NoDamper ==> c == ZeroCondition
  {
    Condition(
      Scale(gain, d.constantForce),
      Scale(gain, d.negativeResistance),
      Scale(gain, d.positiveResistance),
      Scale(gain, d.negativeResistance),
      Scale(gain, d.positiveResistance),
      Scale(gain, d.deadBand))
  }

  function DamperParameters(gain: int, axes: seq<int>, d: DamperSettings): EffectParameters
  {
    Envelope(gain, axes, ConditionSet([DamperCondition(gain, d)]))
  }

  /** The spring condition: offset from the centre point, saturations from
      the saturations, coefficients from the gains. */
  function SpringCondition(gain: int, s: SpringSettings): (c: Condition)
    ensures s == NoSpring ==> c == ZeroCondition
  {
    Condition(
      Scale(gain, s.centerPoint),
      Scale(gain, s.negativeSaturation),
      Scale(gain, s.positiveSaturation),
      Scale(gain, s.negativeGain),
      Scale(gain, s.positiveGain),
      Scale(gain, s.deadBand))
  }

  function SpringParameters(gain: int, axes: seq<int>, s: SpringSettings): EffectParameters
  {
    Envelope(gain, axes, ConditionSet([SpringCondition(gain, s)]))
  }

  /** The device magnitude pushes against the requested direction, by the
      same amount either way, and a zero request gives a zero force. */
  lemma ConstantForceInvertsSign(gain: int, axes: seq<int>, m: real)
    requires 0 <= gain
    ensures var mag := ConstantForceParameters(gain, axes, m).parameters.magnitude;
      && mag == -ConstantForceParameters(gain, axes, -m).parameters.magnitude
      && (0.0 <= m ==> mag <= 0)
      && (m <= 0.0 ==> 0 <= mag)
      && (m == 0.0 ==> mag == 0)
  {
    var g := gain as real;
    assert g * -(-m) == -(g * -m);
    TruncOdd(g * -m);
    if 0.0 <= m { MulMonotone(g, 0.0, m); } else { MulMonotone(g, m, 0.0); }
    assert g * -m == -(g * m);
    TruncShrinks(g * -m);
  }

  /** The damper resists the same on each side as its saturation allows:
      saturation and coefficient come from one input. */
  lemma DamperSymmetric(gain: int, d: DamperSettings)
    ensures var c := DamperCondition(gain, d);
      && c.negativeSaturation == c.negativeCoefficient
      && c.positiveSaturation == c.positiveCoefficient
      && (d.negativeResistance == d.positiveResistance ==> c.negativeCoefficient == c.positiveCoefficient)
  {
  }

  /** Inputs in [-1, 1] with a gain in 0..10000 give device values within
      [-gain, gain] in every field of a condition. */
  lemma ConditionWithinGain(gain: int, s: SpringSettings)
    requires 0 <= gain <= 10000
    requires -1.0 <= s.negativeSaturation <= 1.0 && -1.0 <= s.positiveSaturation <= 1.0
    requires -1.0 <= s.negativeGain <= 1.0 && -1.0 <= s.positiveGain <= 1.0
    requires -1.0 <= s.centerPoint <= 1.0 && -1.0 <= s.deadBand <= 1.0
    ensures var c := SpringCondition(gain, s);
      && -gain <= c.offset <= gain
      && -gain <= c.negativeSaturation <= gain && -gain <= c.positiveSaturation <= gain
      && -gain <= c.negativeCoefficient <= gain && -gain <= c.positiveCoefficient <= gain
      && -gain <= c.deadBand <= gain
  {
    ScaleWithinGain(gain, s.centerPoint);
    ScaleWithinGain(gain, s.negativeSaturation);
    ScaleWithinGain(gain, s.positiveSaturation);
    ScaleWithinGain(gain, s.negativeGain);
    ScaleWithinGain(gain, s.positiveGain);
    ScaleWithinGain(gain, s.deadBand);
  }
}
