# ForceFeedbackRelay device relay engine in Dafny

This project models the core of ForceFeedbackRelay, a Windows tool that drives
a force-feedback steering wheel through DirectInput and shows its axes. There
are two parts.

- **`WheelController`** (`wheel_controller.dfy`, with `axes.dfy`,
  `effects.dfy`, `device.dfy`, `numerics.dfy`). It picks the last enumerated
  wheel, configures and acquires it, and finds its actuator. It turns buffered
  raw samples into four readings, `(raw - 32767.5) / 32767.5`. It also keeps a
  cache of the last requested parameters for the constant, damper and spring
  effects. A device effect is rebuilt only when the request differs from the
  cache. A rebuild goes: construct new, dispose old, start new, store new.
  Every input is scaled as `(int)(gain * x)`, which truncates toward zero.
- **`MainWindow`** (`main_window.dfy`, with `team_number.dfy`). The wheel
  field is null while Disconnected. The connection tick reconnects only a
  Disconnected window. The poll tick drops the wheel when a poll fails. A
  change of the team-number text restarts the NetworkTables client, by team
  number when the text is an integer (`int.TryParse`) and by IP address
  otherwise. The UI tick mirrors the connection state and the axes.

The device is an abstract `Joystick` object. It has a fixed fault schedule:
`faults[n]` says whether its call number n throws. It also keeps a ghost log
of the calls that went through. So the contracts of the `Joystick` and
`WheelController` methods, and of the `MainWindow` ticks, state exactly
which device calls happen, in which order, and where a failure stops them.
NetworkTables calls and the team-number file write go into a ghost `busLog`.
Doubles are `real`. The device gain is an `int`. `(int)` is `Numerics.Trunc`,
which truncates toward zero.

The model follows the code as written. Behaviour a reader may not expect:
- The old effect is disposed **before** the new one is started.
- `JoystickNotConnectedException` is raised only when the chosen guid is
  `Guid.Empty`, normally because no device was enumerated. A
  failing `SetCooperativeLevel`/`Acquire`/`SendForceFeedbackCommand` call,
  or a device with no actuator (`First` throws), raises a different
  exception. `MainWindow` does not catch it, so the tick ends with it
  (`Relay.TickOutcome.Unhandled`).
- The device opened is the last one enumerated.
- When force feedback is enabled, the poll tick does nothing more (its block
  is empty). Effects are not zeroed when the remote side disengages.
- Raw 65535 maps to exactly +1.0, and 65534 to just under it. No integer raw
  value maps to 0.
- If `Start` throws after the old effect was disposed, the effect field
  still holds the disposed effect, and the cache already holds the new
  request. `Device.Replaced` states this.
- The `PlayConstantForce(0)` after construction is always skipped, because
  the fresh cache holds 0. So the `JoystickNotConnectedException` handler
  around the connection attempt is reached only from the constructor (chosen
  guid `Guid.Empty`), never from that request; `Relay.MainWindow.ConnectWheel`
  asserts this.

## Model

| member | source | states |
|---|---|---|
| `Numerics.Trunc` | WheelController.cs:126 | `(int)` of a double is the integer between 0 and x that is less than 1 away from x (truncation toward zero, not floor) |
| `Numerics.TruncOdd` | WheelController.cs:126 | truncation commutes with negation: `Trunc(-x) == -Trunc(x)` |
| `Numerics.ScaleWithinGain` | WheelController.cs:179-184 | with gain in 0..10000 and input in [-1, 1], `(int)(gain * x)` lies in [-gain, gain] and inside the 32-bit range |
| `Device.Completed` | WheelController.cs:129-140 | number of leading device calls that go through before the first throwing one, and that call throws |
| `Device.Replaced` | WheelController.cs:129-140 | a replacement makes its construct/dispose/start calls in order up to the first that throws; the slot takes the new effect exactly when all went through, and otherwise keeps the old one (already disposed if the dispose went through); the buffer and gain are untouched |
| `Device.Joystick.Dispose` | WheelController.cs:275 | releasing the device is logged and changes no other device state (call count, buffer, effect counter, gain) |
| `Device.ReplacementOrder` | WheelController.cs:132-135 | a replacement constructs the new effect first, disposes the old one (if any) second, and starts the new one last |
| `Device.Joystick.Call` | WheelController.cs:41-47 | a device call throws per the fault schedule and is logged only when it goes through |
| `Device.Joystick.CreateEffect` | WheelController.cs:132 | `new Effect` yields an effect with a fresh identity, the requested kind and parameters; logged when it goes through |
| `Device.Joystick.GetBufferedData` | WheelController.cs:76 | hands over exactly the buffered samples and empties the buffer; on failure the buffer is kept |
| `Axes.Normalize` | WheelController.cs:79 | a reading is negative exactly when the raw value is at most `short.MaxValue` |
| `Axes.NormalizeRange` | WheelController.cs:62 | raw 0 reads -1, raw 65535 reads exactly +1, raw 65534 reads below +1, raw in 0..65535 reads within [-1, 1] |
| `Axes.NormalizeRoundTrip` | WheelController.cs:79 | the raw sample is recovered from its reading: `reading * 32767.5 + 32767.5 == raw` |
| `Axes.NormalizeCenter` | WheelController.cs:62 | no raw value reads 0; raw 32767 and 32768 read opposite values |
| `Axes.NormalizeMonotone` | WheelController.cs:79 | a larger raw value gives a larger reading |
| `Axes.ApplyUpdate` | WheelController.cs:80-94 | a sample at an unmapped offset changes nothing; a mapped one sets its axis to the normalised value and leaves the other three |
| `Axes.ApplyUpdates` | WheelController.cs:77-95 | after the loop every reading is either its previous value or the normalised value of some sample mapped to that axis |
| `Axes.ApplyUpdateAt` | WheelController.cs:80-94 | a sample sets exactly the axis its offset maps to (X steering, Y throttle, RotationZ brake, Sliders0 clutch) and leaves the others |
| `Axes.UnsampledAxisKeepsValue` | WheelController.cs:77-95 | an axis that no buffered sample maps to keeps its previous reading |
| `Axes.LastSampleWins` | WheelController.cs:77-95 | when several samples hit an axis, the last one in buffer order decides its reading |
| `Axes.UnmappedSamplesIgnored` | WheelController.cs:80-94 | samples at any other offset leave all four readings unchanged |
| `Axes.ApplyUpdatesAppend` | WheelController.cs:76-95 | applying two buffers one after the other equals applying their concatenation |
| `Effects.ConstantForceParameters` | WheelController.cs:113-127 | the constant force acts on the actuator axes in direction 0 with the device gain, and a zero request gives magnitude 0 |
| `Effects.DamperCondition` | WheelController.cs:177-185 | each side's saturation equals its coefficient, and the cached zero settings give a condition with no force |
| `Effects.SpringCondition` | WheelController.cs:246-254 | the cached zero settings give a condition with no force |
| `Effects.ConstantForceInvertsSign` | WheelController.cs:124-127 | the device magnitude is `(int)(gain * -m)`: opposite in sign to m, antisymmetric in m, and 0 for m = 0 |
| `Effects.DamperSymmetric` | WheelController.cs:179-184 | each damper side's saturation and coefficient come from the same resistance input |
| `Effects.ConditionWithinGain` | WheelController.cs:248-253 | every spring condition field is `(int)(gain * input)` and stays within [-gain, gain] for inputs in [-1, 1] |
| `Wheel.ChosenGuid` | WheelController.cs:25-35 | `Guid.Empty` when nothing was enumerated, else the guid of the last enumerated device (which may itself be `Guid.Empty`) |
| `Wheel.SelectDevice` | WheelController.cs:25-30 | the enumeration loop leaves the last enumerated device's guid, or `Guid.Empty` when none was found |
| `Wheel.FirstActuator` | WheelController.cs:57-58 | the first object flagged as a force-feedback actuator, or none exactly when no object is one |
| `Wheel.Acquire` | WheelController.cs:40-47 | cooperative level, buffer size, acquire and actuators-on are issued in order up to the first that throws; success exactly when all four went through; the call count advances past the throwing call; buffer, effect counter and gain are untouched |
| `Wheel.Open` | WheelController.cs:21-60 | chosen guid `Guid.Empty` (normally no device enumerated): `JoystickNotConnected`, no device touched; a failing configuration call or no actuator: another exception; otherwise a fresh controller on the chosen device with zero readings, zero caches and no effects; the chosen device gets exactly the configuration calls (log, call count) and keeps its buffer, effect counter and gain, and no other device changes |
| `Wheel.WheelController.constructor` | WheelController.cs:57-68 | a new controller has axes `[actuator id]`, zero readings, zero caches and no stored effects |
| `Wheel.WheelController.ApplySample` | WheelController.cs:79-94 | one sample updates the readings as `ApplyUpdate` says |
| `Wheel.WheelController.Poll` | WheelController.cs:70-101 | on success the readings are the old ones updated by the whole buffer in order; any device failure is `JoystickNotConnected` and leaves the readings as they were |
| `Wheel.WheelController.Replace` | WheelController.cs:129-140 | construct, dispose, start, store, each stopping at the first throwing call; the slot changes only when all went through; failures become `JoystickNotConnected` |
| `Wheel.WheelController.PlayConstantForce` | WheelController.cs:103-141 | an equal magnitude touches nothing; otherwise the cache holds the new magnitude even if the device then fails, and the effect is replaced with magnitude `(int)(gain * -m)` |
| `Wheel.WheelController.PlayDamperForce` | WheelController.cs:143-202 | skipped exactly when all four inputs equal the cache; otherwise the cache updates first and the damper is replaced with the scaled condition |
| `Wheel.WheelController.PlaySpringForce` | WheelController.cs:204-271 | skipped exactly when all six inputs equal the cache; otherwise the cache updates first and the spring is replaced with the scaled condition |
| `Wheel.WheelController.Dispose` | WheelController.cs:273-276 | releases the device and makes no other call; the device's buffer and gain are unchanged |
| `Wheel.PlayConstantForceTwice` | WheelController.cs:106-111 | two identical constant-force requests make exactly the device calls of one replacement (none when m equals the cache); the second one succeeds without a device call and leaves the effect slot alone |
| `TeamNumber.TryParseInt` | MainWindow.xaml.cs:168 | a parsed value is within the 32-bit range, and text that is empty or only white space does not parse |
| `TeamNumber.TrimStart` | MainWindow.xaml.cs:168 | removes exactly the leading white space that `int.TryParse` accepts |
| `TeamNumber.TrimEnd` | MainWindow.xaml.cs:168 | removes exactly the trailing white space that `int.TryParse` accepts |
| `TeamNumber.ParseFormatRoundTrip` | MainWindow.xaml.cs:168 | every 32-bit integer parses back from its decimal text |
| `TeamNumber.ParseIgnoresSurroundingWhite` | MainWindow.xaml.cs:168 | white space of any kind and length before and after the text does not change the parse |
| `TeamNumber.ParsedCharacters` | MainWindow.xaml.cs:168 | text that parses contains only white space, signs and digits |
| `TeamNumber.TargetOf` | MainWindow.xaml.cs:168-171 | a team number exactly when the text parses as an int (with that value); otherwise the address is the text unchanged |
| `TeamNumber.TeamTextSelectsTeam` | MainWindow.xaml.cs:168-169 | the decimal text of a team number selects that team |
| `TeamNumber.DottedTextSelectsAddress` | MainWindow.xaml.cs:170-171 | text containing a '.' is always used as an IP address |
| `Relay.Reconfiguration` | MainWindow.xaml.cs:166-179 | five client calls: shutdown, client mode, the target, initialize, and the save of the text |
| `Relay.ReconfigurationOnChange` | MainWindow.xaml.cs:160-180 | no client call exactly when the text equals the last one; otherwise one full reconfiguration for the new text |
| `Relay.ReconfigurationTarget` | MainWindow.xaml.cs:166-179 | a reconfiguration is shutdown, client mode, team or address, initialize, then one save of the text; team exactly when the text parses |
| `Relay.MainWindow.constructor` | MainWindow.xaml.cs:43 | a new window is Disconnected, with no connection flags, an empty last text and the client in client mode |
| `Relay.MainWindow.ConnectWheel` | MainWindow.xaml.cs:50-60 | the window is Connected exactly when opening succeeds, with a fresh controller on the chosen device with zero readings, zero caches and no effect created; only exceptions other than `JoystickNotConnected` escape; the chosen device gets the configuration calls up to the first that throws (log and call count) and keeps its buffer, effect counter and gain; no other device is touched; the client and the last text are unchanged |
| `Relay.Launch` | MainWindow.xaml.cs:32-60 | start-up puts the client in client mode with an empty last text and makes one connection attempt: Connected exactly when opening succeeds, with a fresh controller on the chosen device with zero readings and caches; the devices see exactly the calls of that attempt |
| `Relay.MainWindow.Poll` | MainWindow.xaml.cs:106-133 | the robot flag mirrors the LiveWindow connection; `forceFeedbackConnected` is exactly "enabled" in the ForceFeedback table; a Disconnected window stays so; a successful wheel poll makes the two poll calls, empties the buffer and applies it to the readings; a failed one disposes the wheel, keeps the buffer and disconnects, and nothing propagates; the gain, the effect counter, the caches and the effect slots never change |
| `Relay.MainWindow.PollConnections` | MainWindow.xaml.cs:137-183 | a Connected wheel is never replaced and no device is touched; a Disconnected one is reconnected as in `ConnectWheel`: a fresh controller on the chosen device with zero readings, no damper and no spring, and the same device calls; a changed text is recorded and reconfigures once, an equal one does nothing; an escaping exception skips the text check |
| `Relay.MainWindow.CheckTeamNumber` | MainWindow.xaml.cs:159-181 | the text becomes the last text, and the client is reconfigured for it exactly when it differs from the previous one |
| `Relay.MainWindow.Reconfigure` | MainWindow.xaml.cs:163-180 | appends exactly the reconfiguration events for the text |
| `Relay.MainWindow.UiUpdate` | MainWindow.xaml.cs:186-200 | the indicators are green exactly when the wheel, robot and force-feedback flags are set; the bars follow the axes (throttle, brake and clutch negated) only while Connected |
| `Relay.RepeatedTextReconfiguresOnce` | MainWindow.xaml.cs:160-162 | two ticks with the same text reconfigure the client at most once: if the first ends normally so does the second, and together they append one `ReconfigurationOnChange` for the text; if the first ends with an exception, nothing is appended |

## Left out

- DirectInput internals are not modelled: device enumeration and its filter,
  the window handle, `GetEffects`, and the `EffectParameters` fields that
  do not depend on state (flags, start delay, sample period, duration,
  trigger button). The enumeration result and the openable devices are
  inputs. `new Joystick` with a guid that cannot be opened counts as a
  failing DirectInput call.
- Reading `Properties.ForceFeedbackGain` and `Capabilities` never fails in
  the model. In the source these reads sit outside the `try`, so a failure
  there would escape without being wrapped.
- `Joystick.Dispose` is modelled as a call that never throws.
- IEEE-754 behaviour is not modelled: values are reals, with no NaN
  inequality, no signed zero and no rounding in the division or
  multiplication.
- Numerics.Trunc: does not model the C# result for doubles outside the
  32-bit range. `ScaleWithinGain` shows the scaled values stay in range for
  nominal inputs.
- TeamNumber.TryParseInt: uses fixed ASCII signs instead of the culture's
  sign strings, and does not accept trailing NUL characters. The text box
  never yields a null string.
- `ReadTeamNumber` and the async file API are left out. Only the one save of
  the new text is recorded, as `TeamNumberSaved`.
- NetworkTables is left out except for the client calls in the bus log:
  connection listeners, and the table reads, which are inputs to `Poll`.
- Dispatcher threads and timers are left out. Each tick is one atomic
  sequential method. The reconfiguration work item that `PollConnections`
  enqueues runs at the end of the same tick. Sharing `wheel` across threads
  is not modelled.
- `Debug.WriteLine` output, the Mica backdrop, `AxisBar` layout and `App`
  window set-up are left out.
- The `if (wheel == null) return;` guard in `WheelController.Poll` is not
  modelled. The device field is set by the constructor and is never null.
