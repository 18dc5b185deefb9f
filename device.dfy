/** The DirectInput force-feedback device as the wheel controller sees it:
    an abstract object whose calls may throw, with a ghost log of the calls
    that went through. Which calls throw is an input: `faults[n]` says
    whether the device's call number n fails. */
module Device {
  import opened Wrappers

  /** Device instance identity; 0 plays the role of `Guid.Empty`. */
  type Guid = nat
  const EmptyGuid: Guid := 0

  /** Input buffer size the controller requests (`Properties.BufferSize`). */
  const BufferSize: nat := 128

  /** One enumerated device instance (`DeviceInstance`). */
  datatype DeviceInstance = DeviceInstance(instanceName: string, instanceGuid: Guid)

  /** `JoystickOffset`: the four offsets the controller maps, and any other. */
  datatype Offset = X | Y | RotationZ | Sliders0 | OtherOffset(code: int)

  /** One buffered axis sample (`JoystickUpdate`). */
  datatype JoystickUpdate = JoystickUpdate(offset: Offset, value: int)

  /** One object of the device (`DeviceObjectInstance`), with the one flag
      the controller inspects. */
  datatype DeviceObject = DeviceObject(objectId: int, isActuator: bool)

  datatype EffectKind = ConstantForceKind | DamperKind | SpringKind

  /** A DirectInput condition, in device units. */
  datatype Condition = Condition(
    offset: int,
    negativeSaturation: int,
    positiveSaturation: int,
    negativeCoefficient: int,
    positiveCoefficient: int,
    deadBand: int)

  datatype TypeSpecific = ConstantForce(magnitude: int) | ConditionSet(conditions: seq<Condition>)

  /** The parts of `EffectParameters` that depend on the controller's state. */
  datatype EffectParameters = EffectParameters(
    axes: seq<int>,
    directions: seq<int>,
    gain: int,
    parameters: TypeSpecific)

  /** A device effect object; `id` tells apart effects with equal parameters. */
  datatype Effect = Effect(id: nat, kind: EffectKind, parameters: EffectParameters)

  /** The device calls that can be observed. */
  datatype Event =
    | CooperativeLevelSet      // exclusive | background
    | BufferSizeSet(size: nat)
    | Acquired
    | ActuatorsOn
    | Polled
    | BufferRead(updates: seq<JoystickUpdate>)
    | Created(effect: Effect)
    | Disposed(effect: Effect)
    | Started(effect: Effect)
    | Released

  /** The exceptions of the core: the controller's own
      `JoystickNotConnectedException`, a failing DirectInput call, and the
      `InvalidOperationException` of `First` when no actuator exists. */
  datatype Exception = JoystickNotConnected | DeviceFailure | NoActuator

  datatype Outcome = Pass | Fail(error: Exception)

  /** Whether call number i fails under the fault schedule f. */
  predicate Fails(f: seq<bool>, i: nat)
  {
    i < |f| && f[i]
  }

  /** How many of the n calls numbered start, start + 1, ... go through before
      the first one that fails (n when none fails). */
  function Completed(f: seq<bool>, start: nat, n: nat): (k: nat)
    ensures k <= n
    ensures forall j :: start <= j < start + k ==> !Fails(f, j)
    ensures k < n ==> Fails(f, start + k)
    decreases n
  {
    if n == 0 || Fails(f, start) then 0 else 1 + Completed(f, start + 1, n - 1)
  }

  /** The calls that replace `current` by the new effect e, in the order the
      controller makes them: construct new, dispose old (if any), start new. */
  function ReplacementSteps(e: Effect, current: Option<Effect>): seq<Event>
  {
    [Created(e)] + (if current.Some? then [Disposed(current.value)] else []) + [Started(e)]
  }

  /** The new effect is constructed before the old one is disposed, and
      started only after that; the old effect is never started again. */
  lemma ReplacementOrder(e: Effect, current: Option<Effect>)
    ensures var s := ReplacementSteps(e, current);
      && s[0] == Created(e) && s[|s| - 1] == Started(e)
      && (current.Some? ==> |s| == 3 && s[1] == Disposed(current.value))
      && (current.None? ==> |s| == 2)
      && (forall i :: 0 <= i < |s| ==> s[i] != Started(e) || i == |s| - 1)
    ensures current.Some? && current.value.id < e.id ==> Started(current.value) !in ReplacementSteps(e, current)
  {
  }

  class Joystick {
    /** Objects reported by `GetObjects()`. */
    const objects: seq<DeviceObject>
    /** The fault schedule: call number n throws iff `Fails(faults, n)`. */
    const faults: seq<bool>
    /** `Properties.ForceFeedbackGain`. */
    var forceFeedbackGain: int
    /** Samples buffered since the last `GetBufferedData()`. */
    var buffer: seq<JoystickUpdate>
    /** Number of calls made so far. */
    var calls: nat
    /** Identity of the next effect object constructed on this device. */
    var nextEffectId: nat
    /** The calls that went through, in order. */
    ghost var log: seq<Event>

    /** One device call: it throws or goes through according to the fault
        schedule, and is logged when it goes through. */
    method Call(e: Event) returns (ok: bool)
      modifies this
      ensures ok == !Fails(faults, old(calls))
      ensures calls == old(calls) + 1
      ensures log == if ok then old(log) + [e] else old(log)
      ensures buffer == old(buffer) && nextEffectId == old(nextEffectId)
      ensures forceFeedbackGain == old(forceFeedbackGain)
    {
      ok := !Fails(faults, calls);
      calls := calls + 1;
      if ok {
        log := log + [e];
      }
    }

    /** `new Effect(wheel, guid, parameters)`. */
    method CreateEffect(kind: EffectKind, p: EffectParameters) returns (ok: bool, e: Effect)
      modifies this
      ensures e == Effect(old(nextEffectId), kind, p)
      ensures ok == !Fails(faults, old(calls))
      ensures calls == old(calls) + 1
      ensures log == if ok then old(log) + [Created(e)] else old(log)
      ensures nextEffectId == if ok then old(nextEffectId) + 1 else old(nextEffectId)
      ensures buffer == old(buffer) && forceFeedbackGain == old(forceFeedbackGain)
    {
      e := Effect(nextEffectId, kind, p);
      ok := Call(Created(e));
      if ok {
        nextEffectId := nextEffectId + 1;
      }
    }

    /** `GetBufferedData()`: hands over and clears the buffered samples. */
    method GetBufferedData() returns (ok: bool, data: seq<JoystickUpdate>)
      modifies this
      ensures ok == !Fails(faults, old(calls))
      ensures calls == old(calls) + 1
      ensures log == if ok then old(log) + [BufferRead(old(buffer))] else old(log)
      ensures ok ==> data == old(buffer) && buffer == []
      ensures !ok ==> buffer == old(buffer)
      ensures nextEffectId == old(nextEffectId) && forceFeedbackGain == old(forceFeedbackGain)
    {
      ok := Call(BufferRead(buffer));
      data := [];
      if ok {
        data := buffer;
        buffer := [];
      }
    }

    /** `Dispose()` of the device itself; releasing does not throw. */
    method Dispose()
      modifies this
      ensures log == old(log) + [Released]
      ensures calls == old(calls) && buffer == old(buffer)
      ensures nextEffectId == old(nextEffectId) && forceFeedbackGain == old(forceFeedbackGain)
    {
      log := log + [Released];
    }
  }

  /** What replacing `current` by a new effect of the given kind and
      parameters does to the device: the steps of `ReplacementSteps` are made
      in order up to the first one that throws; `ok` says whether all went
      through, and `stored` is the new effect then, and `current` otherwise. */
  twostate predicate Replaced(dev: Joystick, kind: EffectKind, p: EffectParameters,
                              current: Option<Effect>, ok: bool, new stored: Option<Effect>)
    reads dev
  {
    var e := Effect(old(dev.nextEffectId), kind, p);
    var steps := ReplacementSteps(e, current);
    var k := Completed(dev.faults, old(dev.calls), |steps|);
    && dev.log == old(dev.log) + steps[..k]
    && ok == (k == |steps|)
    && stored == (if ok then Some(e) else current)
    && dev.calls == old(dev.calls) + (if ok then k else k + 1)
    && dev.nextEffectId == old(dev.nextEffectId) + (if k == 0 then 0 else 1)
    && dev.buffer == old(dev.buffer)
    && dev.forceFeedbackGain == old(dev.forceFeedbackGain)
  }
}
