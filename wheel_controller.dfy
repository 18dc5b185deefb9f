/** `WheelController`: one force-feedback wheel, its four axis readings, and
    the constant, damper and spring effects with their caches of the last
    requested parameters. */
module Wheel {
  import opened Wrappers
  import opened Device
  import opened Axes
  import opened Effects

  /** The guid the enumeration loop leaves behind: the last enumerated
      device's, or `Guid.Empty` when nothing was enumerated. */
  function ChosenGuid(enumerated: seq<DeviceInstance>): (g: Guid)
    ensures enumerated == [] ==> g == EmptyGuid
    ensures enumerated != [] ==> g == enumerated[|enumerated| - 1].instanceGuid
  {
    if enumerated == [] then EmptyGuid else enumerated[|enumerated| - 1].instanceGuid
  }

  /** The enumeration loop: every device found overwrites `joystickGuid`. */
  method SelectDevice(enumerated: seq<DeviceInstance>) returns (joystickGuid: Guid)
    ensures joystickGuid == ChosenGuid(enumerated)
    ensures joystickGuid != EmptyGuid ==> exists d :: d in enumerated && d.instanceGuid == joystickGuid
  {
    joystickGuid := EmptyGuid;
    for i := 0 to |enumerated|
      invariant joystickGuid == if i == 0 then EmptyGuid else enumerated[i - 1].instanceGuid
    {
      joystickGuid := enumerated[i].instanceGuid;
    }
  }

  /** `GetObjects().First(o => o is a force-feedback actuator)`: the index
      of the first actuator, or None where `First` throws. */
  function FirstActuator(objects: seq<DeviceObject>): (r: Option<nat>)
    ensures r.Some? ==> r.value < |objects| && objects[r.value].isActuator
    ensures r.Some? ==> forall j :: 0 <= j < r.value ==> !objects[j].isActuator
    ensures r.None? <==> forall j :: 0 <= j < |objects| ==> !objects[j].isActuator
  {
    if objects == [] then None
    else if objects[0].isActuator then Some(0)
    else match FirstActuator(objects[1..])
      case None => None
      case Some(i) => Some(i + 1)
  }

  /** The configuration calls the constructor makes after opening the device. */
  function AcquireSteps(): seq<Event>
  {
    [CooperativeLevelSet, BufferSizeSet(BufferSize), Acquired, ActuatorsOn]
  }

  /** The calls `Poll` makes on the device. */
  function PollSteps(buffer: seq<JoystickUpdate>): seq<Event>
  {
    [Polled, BufferRead(buffer)]
  }

  class WheelController {
    const device: Joystick
    /** `axes`: the object id of the force-feedback actuator. */
    const axes: seq<int>

    var steeringAxis: real
    var throttleAxis: real
    var brakeAxis: real
    var clutchAxis: real

    var constantForceMagnitude: real
    var constantForceEffect: Option<Effect>
    var damper: DamperSettings
    var damperEffect: Option<Effect>
    var spring: SpringSettings
    var springEffect: Option<Effect>

    /** Every stored effect is of its slot's kind and was constructed on
        this controller's device. */
    ghost predicate Valid()
      reads this, device
    {
      && |axes| == 1
      && (constantForceEffect.Some? ==> constantForceEffect.value.kind == ConstantForceKind
                                        && constantForceEffect.value.id < device.nextEffectId)
      && (damperEffect.Some? ==> damperEffect.value.kind == DamperKind
                                 && damperEffect.value.id < device.nextEffectId)
      && (springEffect.Some? ==> springEffect.value.kind == SpringKind
                                 && springEffect.value.id < device.nextEffectId)
    }

    function Readings(): AxisReadings
      reads this
    {
      AxisReadings(steeringAxis, throttleAxis, brakeAxis, clutchAxis)
    }

    /** The state of a newly constructed controller: every reading and
        every cache at 0, and no effect stored. */
    predicate Initial()
      reads this
    {
      && Readings() == AxisReadings(0.0, 0.0, 0.0, 0.0)
      && constantForceMagnitude == 0.0 && damper == NoDamper && spring == NoSpring
      && constantForceEffect == None && damperEffect == None && springEffect == None
    }

    /** A controller over an acquired device: every reading and every cache
        starts at 0, and no effect is stored. */
    constructor (device: Joystick, actuatorId: int)
      ensures this.device == device && axes == [actuatorId]
      ensures Readings() == AxisReadings(0.0, 0.0, 0.0, 0.0)
      ensures constantForceMagnitude == 0.0 && damper == NoDamper && spring == NoSpring
      ensures constantForceEffect == None && damperEffect == None && springEffect == None
      ensures Initial() && Valid()
    {
      this.device := device;
      axes := [actuatorId];
      steeringAxis, throttleAxis, brakeAxis, clutchAxis := 0.0, 0.0, 0.0, 0.0;
      constantForceMagnitude := 0.0;
      damper, spring := NoDamper, NoSpring;
      constantForceEffect, damperEffect, springEffect := None, None, None;
    }

    /** One buffered sample, applied to the reading its offset maps to. */
    method ApplySample(u: JoystickUpdate)
      modifies this`steeringAxis, this`throttleAxis, this`brakeAxis, this`clutchAxis
      ensures Readings() == ApplyUpdate(old(Readings()), u)
    {
      var value := (u.value as real - AxisCenter) / AxisCenter;
      match u.offset
      case X => steeringAxis := value;
      case Y => throttleAxis := value;
      case RotationZ => brakeAxis := value;
      case Sliders0 => clutchAxis := value;
      case OtherOffset(_) =>
    }

    /** `Poll`: polls the device and applies every buffered sample in order.
        Any device failure becomes `JoystickNotConnected`, and then no
        reading has changed. */
    method Poll() returns (r: Outcome)
      requires Valid()
      modifies this`steeringAxis, this`throttleAxis, this`brakeAxis, this`clutchAxis, device
      ensures Valid()
      ensures var k := Completed(device.faults, old(device.calls), 2);
        && device.log == old(device.log) + PollSteps(old(device.buffer))[..k]
        && device.calls == old(device.calls) + (if k == 2 then 2 else k + 1)
        && (r == Pass <==> k == 2)
      ensures r == Pass ==> Readings() == ApplyUpdates(old(Readings()), old(device.buffer)) && device.buffer == []
      ensures r != Pass ==> r == Fail(JoystickNotConnected) && Readings() == old(Readings())
                            && device.buffer == old(device.buffer)
      ensures device.nextEffectId == old(device.nextEffectId)
      ensures device.forceFeedbackGain == old(device.forceFeedbackGain)
    {
      var polled := device.Call(Polled);
      if !polled {
        return Fail(JoystickNotConnected);
      }
      var ok, data := device.GetBufferedData();
      if !ok {
        return Fail(JoystickNotConnected);
      }
      ghost var start := old(Readings());
      for i := 0 to |data|
        invariant Readings() == ApplyUpdates(start, data[..i])
        modifies this`steeringAxis, this`throttleAxis, this`brakeAxis, this`clutchAxis
      {
        assert data[..i + 1][..i] == data[..i];
        ApplySample(data[i]);
      }
      assert data[..|data|] == data;
      r := Pass;
    }

    /** The replacement sequence shared by the three effects: construct the
        new effect, dispose the stored one, start the new one, store it.
        Any failure becomes `JoystickNotConnected` and leaves the slot as
        it was. */
    method Replace(kind: EffectKind, p: EffectParameters, current: Option<Effect>)
      returns (r: Outcome, stored: Option<Effect>)
      modifies device
      ensures Replaced(device, kind, p, current, r == Pass, stored)
      ensures r == Pass || r == Fail(JoystickNotConnected)
    {
      var created, e := device.CreateEffect(kind, p);
      if !created {
        return Fail(JoystickNotConnected), current;
      }
      if current.Some? {
        var disposed := device.Call(Disposed(current.value));
        if !disposed {
          return Fail(JoystickNotConnected), current;
        }
      }
      var started := device.Call(Started(e));
      if !started {
        return Fail(JoystickNotConnected), current;
      }
      r, stored := Pass, Some(e);
    }

    /** `PlayConstantForce`: skipped when the magnitude equals the cached one;
        otherwise the cache takes the new magnitude first and the constant
        force is replaced with magnitude `(int)(gain * -magnitude)`. */
    method PlayConstantForce(magnitude: real) returns (r: Outcome)
      requires Valid()
      modifies this`constantForceMagnitude, this`constantForceEffect, device
      ensures Valid()
      ensures constantForceMagnitude == magnitude
      ensures magnitude == old(constantForceMagnitude) ==>
        r == Pass && constantForceEffect == old(constantForceEffect) && unchanged(device)
      ensures magnitude != old(constantForceMagnitude) ==>
        && (r == Pass || r == Fail(JoystickNotConnected))
        && Replaced(device, ConstantForceKind,
                    ConstantForceParameters(old(device.forceFeedbackGain), axes, magnitude),
                    old(constantForceEffect), r == Pass, constantForceEffect)
    {
      if magnitude == constantForceMagnitude {
        return Pass;
      }
      constantForceMagnitude := magnitude;
      var p := ConstantForceParameters(device.forceFeedbackGain, axes, magnitude);
      r, constantForceEffect := Replace(ConstantForceKind, p, constantForceEffect);
    }

    /** `PlayDamperForce`: skipped when all four inputs equal the cached
        ones; otherwise the cache takes the new inputs and the damper is
        replaced. */
    method PlayDamperForce(negativeResistance: real, positiveResistance: real,
                           constantForce: real, deadBand: real) returns (r: Outcome)
      requires Valid()
      modifies this`damper, this`damperEffect, device
      ensures Valid()
      ensures var d := DamperSettings(negativeResistance, positiveResistance, constantForce, deadBand);
        && damper == d
        && (d == old(damper) ==> r == Pass && damperEffect == old(damperEffect) && unchanged(device))
        && (d != old(damper) ==>
            && (r == Pass || r == Fail(JoystickNotConnected))
            && Replaced(device, DamperKind, DamperParameters(old(device.forceFeedbackGain), axes, d),
                        old(damperEffect), r == Pass, damperEffect))
    {
      if negativeResistance == damper.negativeResistance &&
         positiveResistance == damper.positiveResistance &&
         constantForce == damper.constantForce &&
         deadBand == damper.deadBand {
        return Pass;
      }
      damper := DamperSettings(negativeResistance, positiveResistance, constantForce, deadBand);
      var p := DamperParameters(device.forceFeedbackGain, axes, damper);
      r, damperEffect := Replace(DamperKind, p, damperEffect);
    }

    /** `PlaySpringForce`: skipped when all six inputs equal the cached
        ones; otherwise the cache takes the new inputs and the spring is
        replaced. */
    method PlaySpringForce(negativeSaturation: real, positiveSaturation: real,
                           negativeGain: real, positiveGain: real,
                           centerPoint: real, deadBand: real) returns (r: Outcome)
      requires Valid()
      modifies this`spring, this`springEffect, device
      ensures Valid()
      ensures var s := SpringSettings(negativeSaturation, positiveSaturation, negativeGain,
                                      positiveGain, centerPoint, deadBand);
        && spring == s
        && (s == old(spring) ==> r == Pass && springEffect == old(springEffect) && unchanged(device))
        && (s != old(spring) ==>
            && (r == Pass || r == Fail(JoystickNotConnected))
            && Replaced(device, SpringKind, SpringParameters(old(device.forceFeedbackGain), axes, s),
                        old(springEffect), r == Pass, springEffect))
    {
      if negativeSaturation == spring.negativeSaturation &&
         positiveSaturation == spring.positiveSaturation &&
         negativeGain == spring.negativeGain &&
         positiveGain == spring.positiveGain &&
         centerPoint == spring.centerPoint &&
         deadBand == spring.deadBand {
        return Pass;
      }
      spring := SpringSettings(negativeSaturation, positiveSaturation, negativeGain,
                               positiveGain, centerPoint, deadBand);
      var p := SpringParameters(device.forceFeedbackGain, axes, spring);
      r, springEffect := Replace(SpringKind, p, springEffect);
    }

    /** `Dispose`: releases the device. */
    method Dispose()
      modifies device
      ensures device.log == old(device.log) + [Released]
      ensures device.calls == old(device.calls) && device.nextEffectId == old(device.nextEffectId)
      ensures device.buffer == old(device.buffer)
      ensures device.forceFeedbackGain == old(device.forceFeedbackGain)
    {
      device.Dispose();
    }
  }

  /** Two identical constant-force requests make the device calls of at
      most one replacement: the second request is skipped by the cache and
      touches neither the device nor the effect slot. */
  method PlayConstantForceTwice(w: WheelController, m: real) returns (first: Outcome, second: Outcome)
    requires w.Valid()
    modifies w`constantForceMagnitude, w`constantForceEffect, w.device
    ensures second == Pass
    ensures w.constantForceMagnitude == m
    ensures m == old(w.constantForceMagnitude) ==>
      unchanged(w.device) && first == Pass && w.constantForceEffect == old(w.constantForceEffect)
    ensures m != old(w.constantForceMagnitude) ==>
      && (first == Pass || first == Fail(JoystickNotConnected))
      && Replaced(w.device, ConstantForceKind,
                  ConstantForceParameters(old(w.device.forceFeedbackGain), w.axes, m),
                  old(w.constantForceEffect), first == Pass, w.constantForceEffect)
  {
    first := w.PlayConstantForce(m);
    second := w.PlayConstantForce(m);
  }

  /** The configuration calls of the constructor, in order, up to the
      first one that throws. */
  method Acquire(device: Joystick) returns (ok: bool)
    modifies device
    ensures var k := Completed(device.faults, old(device.calls), |AcquireSteps()|);
      && device.log == old(device.log) + AcquireSteps()[..k]
      && device.calls == old(device.calls) + (if k == |AcquireSteps()| then k else k + 1)
      && device.buffer == old(device.buffer) && device.nextEffectId == old(device.nextEffectId)
      && device.forceFeedbackGain == old(device.forceFeedbackGain)
      && ok == (k == |AcquireSteps()|)
  {
    ok := device.Call(CooperativeLevelSet);
    if !ok {
      return;
    }
    ok := device.Call(BufferSizeSet(BufferSize));
    if !ok {
      return;
    }
    ok := device.Call(Acquired);
    if !ok {
      return;
    }
    ok := device.Call(ActuatorsOn);
  }

  /** What an attempt to open a controller does to the attached devices:
      the chosen device makes the configuration calls of `AcquireSteps` up
      to the first one that throws, and no other device is touched. When
      no device is chosen, or the chosen one is not attached, nothing is. */
  twostate predicate OpenCalls(enumerated: seq<DeviceInstance>, attached: map<Guid, Joystick>)
    reads attached.Values
  {
    var g := ChosenGuid(enumerated);
    if g != EmptyGuid && g in attached then
      var dev := attached[g];
      var k := Completed(dev.faults, old(dev.calls), |AcquireSteps()|);
      && dev.log == old(dev.log) + AcquireSteps()[..k]
      && dev.calls == old(dev.calls) + (if k == |AcquireSteps()| then k else k + 1)
      && dev.buffer == old(dev.buffer) && dev.nextEffectId == old(dev.nextEffectId)
      && dev.forceFeedbackGain == old(dev.forceFeedbackGain)
      && (forall d :: d in attached.Values && d != dev ==> unchanged(d))
    else
      forall d :: d in attached.Values ==> unchanged(d)
  }

  /** The constructor: pick the last enumerated device, open it, configure it
      (exclusive background access, a 128-sample buffer), acquire it, turn
      the actuators on and find its first actuator. Only "no device" is
      reported as `JoystickNotConnected`; a failing configuration call or a
      missing actuator surfaces as its own exception. */
  method Open(enumerated: seq<DeviceInstance>, attached: map<Guid, Joystick>)
    returns (r: Result<WheelController, Exception>)
    modifies attached.Values
    ensures var g := ChosenGuid(enumerated);
      && (g == EmptyGuid ==> r == Err(JoystickNotConnected))
      && (g != EmptyGuid && g !in attached ==> r == Err(DeviceFailure))
    ensures OpenCalls(enumerated, attached)
    ensures var g := ChosenGuid(enumerated);
      g != EmptyGuid && g in attached ==>
        var dev := attached[g];
        var k := Completed(dev.faults, old(dev.calls), |AcquireSteps()|);
        && (k < |AcquireSteps()| ==> r == Err(DeviceFailure))
        && (k == |AcquireSteps()| && FirstActuator(dev.objects).None? ==> r == Err(NoActuator))
        && (k == |AcquireSteps()| && FirstActuator(dev.objects).Some? ==>
            && r.Ok? && fresh(r.value) && r.value.Valid() && r.value.Initial()
            && r.value.device == dev
            && r.value.axes == [dev.objects[FirstActuator(dev.objects).value].objectId])
  {
    var joystickGuid := SelectDevice(enumerated);
    if joystickGuid == EmptyGuid {
      return Err(JoystickNotConnected);
    }
    if joystickGuid !in attached {
      return Err(DeviceFailure);
    }
    var wheel := attached[joystickGuid];
    var ok := Acquire(wheel);
    if !ok {
      return Err(DeviceFailure);
    }
    var actuator := FirstActuator(wheel.objects);
    if actuator.None? {
      return Err(NoActuator);
    }
    var controller := new WheelController(wheel, wheel.objects[actuator.value].objectId);
    r := Ok(controller);
  }
}
