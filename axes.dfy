/** Turning buffered raw axis samples into the controller's four normalised
    axis readings. */
module Axes {
  import opened Wrappers
  import opened Device

  /** `short.MaxValue`. */
  const ShortMaxValue: int := 32767
  /** `AxisCenter = short.MaxValue + 0.5`. */
  const AxisCenter: real := ShortMaxValue as real + 0.5
  /** Largest raw value a DirectInput axis reports. */
  const RawMax: int := 65535

  /** `(value - AxisCenter) / AxisCenter`. */
  function Normalize(raw: int): (v: real)
    ensures v < 0.0 <==> raw <= ShortMaxValue
  {
    (raw as real - AxisCenter) / AxisCenter
  }

  /** The inverse of `Normalize`: the raw value a reading came from. */
  function Denormalize(v: real): real
  {
    v * AxisCenter + AxisCenter
  }

  lemma NormalizeRoundTrip(raw: int)
    ensures Denormalize(Normalize(raw)) == raw as real
  {
  }

  /** Raw 0 reads -1, raw 65535 reads exactly +1, raw 65534 just under it,
      and every raw value of the axis range reads within [-1, 1]. */
  lemma NormalizeRange(raw: int)
    ensures Normalize(0) == -1.0
    ensures Normalize(RawMax) == 1.0
    ensures Normalize(RawMax - 1) < 1.0
    ensures 0 <= raw <= RawMax ==> -1.0 <= Normalize(raw) <= 1.0
  {
  }

  /** The centre lies between two raw values: no raw value reads 0, and the
      two raw values around the centre read opposite values. */
  lemma NormalizeCenter(raw: int)
    ensures Normalize(raw) != 0.0
    ensures Normalize(ShortMaxValue) == -Normalize(ShortMaxValue + 1)
    ensures Normalize(ShortMaxValue) < 0.0 < Normalize(ShortMaxValue + 1)
  {
  }

  /** A larger raw value reads larger. */
  lemma NormalizeMonotone(a: int, b: int)
    requires a < b
    ensures Normalize(a) < Normalize(b)
  {
  }

  datatype Axis = Steering | Throttle | Brake | Clutch

  /** The four readings, as the properties `SteeringAxis`, `ThrottleAxis`,
      `BrakeAxis` and `ClutchAxis` hold them. */
  datatype AxisReadings = AxisReadings(steering: real, throttle: real, brake: real, clutch: real)

  function Get(r: AxisReadings, a: Axis): real
  {
    match a
    case Steering => r.steering
    case Throttle => r.throttle
    case Brake => r.brake
    case Clutch => r.clutch
  }

  /** The axis an offset is mapped to, if any. */
  function AxisOf(o: Offset): Option<Axis>
  {
    match o
    case X => Some(Steering)
    case Y => Some(Throttle)
    case RotationZ => Some(Brake)
    case Sliders0 => Some(Clutch)
    case OtherOffset(_) => None
  }

  /** The effect of one buffered sample (the `switch` on its offset). */
  function ApplyUpdate(r: AxisReadings, u: JoystickUpdate): (s: AxisReadings)
    ensures AxisOf(u.offset).None? ==> s == r
    ensures AxisOf(u.offset).Some? ==> Get(s, AxisOf(u.offset).value) == Normalize(u.value)
    ensures forall a :: AxisOf(u.offset) != Some(a) ==> Get(s, a) == Get(r, a)
  {
    var v := Normalize(u.value);
    match u.offset
    case X => r.(steering := v)
    case Y => r.(throttle := v)
    case RotationZ => r.(brake := v)
    case Sliders0 => r.(clutch := v)
    case OtherOffset(_) => r
  }

  /** The effect of the buffered samples, in buffer order. */
  function ApplyUpdates(r: AxisReadings, us: seq<JoystickUpdate>): (s: AxisReadings)
    ensures forall a :: Get(s, a) == Get(r, a) || SampledAs(us, a, Get(s, a))
    decreases |us|
  {
    if us == [] then r else ApplyUpdate(ApplyUpdates(r, us[..|us| - 1]), us[|us| - 1])
  }

  /** Some sample in `us` maps to axis a and reads v. */
  predicate SampledAs(us: seq<JoystickUpdate>, a: Axis, v: real)
  {
    exists i :: 0 <= i < |us| && AxisOf(us[i].offset) == Some(a) && Normalize(us[i].value) == v
  }

  /** One sample sets exactly the axis its offset maps to. */
  lemma ApplyUpdateAt(r: AxisReadings, u: JoystickUpdate, a: Axis)
    ensures Get(ApplyUpdate(r, u), a) == if AxisOf(u.offset) == Some(a) then Normalize(u.value) else Get(r, a)
  {
  }

  /** An axis no sample maps to keeps its previous reading. */
  lemma {:induction false} UnsampledAxisKeepsValue(r: AxisReadings, us: seq<JoystickUpdate>, a: Axis)
    requires forall i :: 0 <= i < |us| ==> AxisOf(us[i].offset) != Some(a)
    ensures Get(ApplyUpdates(r, us), a) == Get(r, a)
    decreases |us|
  {
    if us != [] {
      var n := |us| - 1;
      UnsampledAxisKeepsValue(r, us[..n], a);
      ApplyUpdateAt(ApplyUpdates(r, us[..n]), us[n], a);
    }
  }

  /** When several samples hit an axis, the last of them in buffer order
      decides its reading. */
  lemma {:induction false} LastSampleWins(r: AxisReadings, us: seq<JoystickUpdate>, a: Axis, k: nat)
    requires k < |us| && AxisOf(us[k].offset) == Some(a)
    requires forall j :: k < j < |us| ==> AxisOf(us[j].offset) != Some(a)
    ensures Get(ApplyUpdates(r, us), a) == Normalize(us[k].value)
    decreases |us|
  {
    var n := |us| - 1;
    ApplyUpdateAt(ApplyUpdates(r, us[..n]), us[n], a);
    if k < n {
      LastSampleWins(r, us[..n], a, k);
    }
  }

  /** Samples at offsets other than the four mapped ones change nothing. */
  lemma UnmappedSamplesIgnored(r: AxisReadings, us: seq<JoystickUpdate>)
    requires forall i :: 0 <= i < |us| ==> us[i].offset.OtherOffset?
    ensures ApplyUpdates(r, us) == r
  {
    UnsampledAxisKeepsValue(r, us, Steering);
    UnsampledAxisKeepsValue(r, us, Throttle);
    UnsampledAxisKeepsValue(r, us, Brake);
    UnsampledAxisKeepsValue(r, us, Clutch);
  }

  /** Draining the buffer in two polls reads the same as draining it in one. */
  lemma {:induction false} ApplyUpdatesAppend(r: AxisReadings, s: seq<JoystickUpdate>, t: seq<JoystickUpdate>)
    ensures ApplyUpdates(ApplyUpdates(r, s), t) == ApplyUpdates(r, s + t)
    decreases |t|
  {
    if t == [] {
      assert s + t == s;
    } else {
      var n := |t| - 1;
      assert (s + t)[..|s + t| - 1] == s + t[..n];
      ApplyUpdatesAppend(r, s, t[..n]);
    }
  }
}
