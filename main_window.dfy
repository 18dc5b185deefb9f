/** `MainWindow`: the timer callbacks that keep one wheel controller
    connected, poll it, reconfigure the NetworkTables client when the team
    number text changes, and refresh the indicators. Each callback runs as
    one sequential step. NetworkTables calls and the team-number file are
    recorded in a ghost log. */
module Relay {
  import opened Wrappers
  import opened Device
  import opened Axes
  import opened Wheel
  import opened TeamNumber

  /** The NetworkTables client calls and the team-number file write. */
  datatype BusEvent =
    | ClientModeSet
    | Shutdown
    | TeamSet(team: int)
    | IPAddressSet(address: string)
    | Initialized
    | TeamNumberSaved(text: string)

  datatype Color = GreenYellow | Red

  /** How a timer callback ends: normally, or with an exception nothing
      catches. */
  datatype TickOutcome = Handled | Unhandled(error: Exception)

  /** The reconfiguration for a new team-number text: shut the client down,
      set client mode, point it at the team or the address, start it, and
      save the text. */
  function Reconfiguration(text: string): (r: seq<BusEvent>)
    ensures |r| == 5 && r[0] == Shutdown && r[1] == ClientModeSet
    ensures r[3] == Initialized && r[4] == TeamNumberSaved(text)
  {
    [Shutdown, ClientModeSet, TargetSet(text), Initialized, TeamNumberSaved(text)]
  }

  /** The call that points the client at the team or the address. */
  function TargetSet(text: string): BusEvent
  {
    match TargetOf(text)
    case Team(n) => TeamSet(n)
    case IPAddress(a) => IPAddressSet(a)
  }

  /** What a connection tick appends when the last text seen was `last`:
      a reconfiguration for a changed text, nothing for an equal one. */
  function ReconfigurationOnChange(last: string, text: string): (r: seq<BusEvent>)
    ensures text == last <==> r == []
    ensures text != last ==> r == Reconfiguration(text)
  {
    if text != last then Reconfiguration(text) else []
  }

  /** A reconfiguration connects by team number exactly when the text is an
      integer, and otherwise passes the text on unchanged as the address. */
  lemma ReconfigurationTarget(text: string)
    ensures |Reconfiguration(text)| == 5
    ensures Reconfiguration(text)[0] == Shutdown && Reconfiguration(text)[1] == ClientModeSet
    ensures Reconfiguration(text)[3] == Initialized && Reconfiguration(text)[4] == TeamNumberSaved(text)
    ensures Reconfiguration(text)[2].TeamSet? <==> TryParseInt(text).Some?
    ensures TryParseInt(text).Some? ==> Reconfiguration(text)[2] == TeamSet(TryParseInt(text).value)
    ensures TryParseInt(text).None? ==> Reconfiguration(text)[2] == IPAddressSet(text)
  {
  }

  function IndicatorColor(on: bool): Color
  {
    if on then GreenYellow else Red
  }

  /** Whether opening a controller over these devices succeeds. */
  ghost predicate Opens(enumerated: seq<DeviceInstance>, attached: map<Guid, Joystick>)
    reads attached.Values
  {
    var g := ChosenGuid(enumerated);
    && g != EmptyGuid && g in attached
    && Completed(attached[g].faults, attached[g].calls, |AcquireSteps()|) == |AcquireSteps()|
    && FirstActuator(attached[g].objects).Some?
  }

  /** Whether opening fails with an exception other than
      `JoystickNotConnected`, which no caller catches. */
  ghost predicate OpenThrowsUncaught(enumerated: seq<DeviceInstance>, attached: map<Guid, Joystick>)
    reads attached.Values
  {
    ChosenGuid(enumerated) != EmptyGuid && !Opens(enumerated, attached)
  }

  class MainWindow {
    /** The controller; null while Disconnected. */
    var wheel: WheelController?
    var robotConnected: bool
    var forceFeedbackConnected: bool
    var lastTeamNumberText: string

    var controllerIndicator: Color
    var robotIndicator: Color
    var forceFeedbackIndicator: Color
    var steeringBar: real
    var throttleBar: real
    var brakeBar: real
    var clutchBar: real

    ghost var busLog: seq<BusEvent>

    ghost predicate Valid()
      reads this, wheel, if wheel != null then {wheel.device} else {}
    {
      wheel != null ==> wheel.Valid()
    }

    /** The window before any connection attempt: the client is in client
        mode and nothing is connected. */
    constructor ()
      ensures Valid() && wheel == null
      ensures !robotConnected && !forceFeedbackConnected && lastTeamNumberText == ""
      ensures busLog == [ClientModeSet]
    {
      wheel := null;
      robotConnected, forceFeedbackConnected := false, false;
      lastTeamNumberText := "";
      controllerIndicator, robotIndicator, forceFeedbackIndicator := Red, Red, Red;
      steeringBar, throttleBar, brakeBar, clutchBar := 0.0, 0.0, 0.0, 0.0;
      busLog := [ClientModeSet];
    }

    /** The connection attempt: build a controller and ask it for a zero
        constant force; `JoystickNotConnected` leaves the window
        Disconnected, any other exception escapes. The zero request is
        skipped by the fresh controller's cache, so no effect is created. */
    method ConnectWheel(enumerated: seq<DeviceInstance>, attached: map<Guid, Joystick>)
      returns (r: TickOutcome)
      requires Valid() && wheel == null
      modifies this`wheel, attached.Values
      ensures Valid()
      ensures (wheel != null) == old(Opens(enumerated, attached))
      ensures r.Unhandled? == old(OpenThrowsUncaught(enumerated, attached))
      ensures r.Unhandled? ==> r.error != JoystickNotConnected
      ensures busLog == old(busLog) && lastTeamNumberText == old(lastTeamNumberText)
      ensures OpenCalls(enumerated, attached)
      ensures wheel != null ==>
        var dev := attached[ChosenGuid(enumerated)];
        && fresh(wheel) && wheel.device == dev && wheel.Initial()
        && dev.log == old(dev.log) + AcquireSteps()
    {
      var attempt := Open(enumerated, attached);
      match attempt
      case Err(e) =>
        if e == JoystickNotConnected {
          wheel := null;
          r := Handled;
        } else {
          r := Unhandled(e);
        }
      case Ok(controller) =>
        wheel := controller;
        var played := controller.PlayConstantForce(0.0);
        // The fresh cache already holds 0, so the request is skipped and
        // the handler that would disconnect again is never reached.
        assert played == Pass;
        r := Handled;
    }

    /** The device-poll tick: refresh the two NetworkTables flags, then poll
        the wheel if there is one; a `JoystickNotConnected` from the poll
        disposes the wheel and leaves the window Disconnected. */
    method Poll(liveWindowConnected: bool, forceFeedbackKeys: set<string>)
      requires Valid()
      modifies this`robotConnected, this`forceFeedbackConnected, this`wheel
      modifies wheel, if wheel != null then {wheel.device} else {}
      ensures Valid()
      ensures robotConnected == liveWindowConnected
      ensures forceFeedbackConnected == ("enabled" in forceFeedbackKeys)
      ensures old(wheel) == null ==> wheel == null
      ensures old(wheel) != null ==>
        var dev := old(wheel).device;
        var k := Completed(dev.faults, old(dev.calls), 2);
        && dev.nextEffectId == old(dev.nextEffectId)
        && dev.forceFeedbackGain == old(dev.forceFeedbackGain)
        && (k == 2 ==> wheel == old(wheel) && dev.log == old(dev.log) + PollSteps(old(dev.buffer))
                       && dev.calls == old(dev.calls) + 2 && dev.buffer == []
                       && wheel.Readings() == ApplyUpdates(old(wheel.Readings()), old(dev.buffer)))
        && (k < 2 ==> wheel == null && dev.log == old(dev.log) + PollSteps(old(dev.buffer))[..k] + [Released]
                      && dev.calls == old(dev.calls) + k + 1 && dev.buffer == old(dev.buffer))
      ensures old(wheel) != null ==>
        var w := old(wheel);
        && w.constantForceMagnitude == old(w.constantForceMagnitude)
        && w.damper == old(w.damper) && w.spring == old(w.spring)
        && w.constantForceEffect == old(w.constantForceEffect)
        && w.damperEffect == old(w.damperEffect) && w.springEffect == old(w.springEffect)
    {
      robotConnected := liveWindowConnected;
      forceFeedbackConnected := "enabled" in forceFeedbackKeys;
      if wheel != null {
        var polled := wheel.Poll();
        if polled == Fail(JoystickNotConnected) {
          wheel.Dispose();
          wheel := null;
        }
      }
    }

    /** The connection tick: a Disconnected window tries to connect (a
        Connected one keeps its wheel); then a team-number text that differs
        from the last one seen is recorded and reconfigures the client. An
        exception escaping the connection attempt ends the tick. */
    method PollConnections(teamNumberText: string, enumerated: seq<DeviceInstance>,
                           attached: map<Guid, Joystick>) returns (r: TickOutcome)
      requires Valid()
      modifies this`wheel, this`lastTeamNumberText, this`busLog, attached.Values
      ensures Valid()
      ensures old(wheel) != null ==>
        r == Handled && wheel == old(wheel) && forall d :: d in attached.Values ==> unchanged(d)
      ensures old(wheel) == null ==>
        && (wheel != null) == old(Opens(enumerated, attached))
        && r.Unhandled? == old(OpenThrowsUncaught(enumerated, attached))
        && OpenCalls(enumerated, attached)
        && (wheel != null ==> fresh(wheel) && wheel.device == attached[ChosenGuid(enumerated)]
                              && wheel.Initial())
      ensures r.Unhandled? ==> lastTeamNumberText == old(lastTeamNumberText) && busLog == old(busLog)
      ensures r == Handled ==> lastTeamNumberText == teamNumberText
      ensures r == Handled ==>
        busLog == old(busLog) + ReconfigurationOnChange(old(lastTeamNumberText), teamNumberText)
    {
      r := Handled;
      if wheel == null {
        r := ConnectWheel(enumerated, attached);
        if r.Unhandled? {
          return;
        }
      }
      CheckTeamNumber(teamNumberText);
    }

    /** The team-number half of the connection tick: a text that differs
        from the last one seen is recorded and reconfigures the client. */
    method CheckTeamNumber(teamNumberText: string)
      modifies this`lastTeamNumberText, this`busLog
      ensures lastTeamNumberText == teamNumberText
      ensures busLog == old(busLog) + ReconfigurationOnChange(old(lastTeamNumberText), teamNumberText)
    {
      if teamNumberText != lastTeamNumberText {
        lastTeamNumberText := teamNumberText;
        Reconfigure(teamNumberText);
      }
    }

    /** Restart the NetworkTables client for a new team number or address,
        and save the text. */
    method Reconfigure(text: string)
      modifies this`busLog
      ensures busLog == old(busLog) + Reconfiguration(text)
    {
      var target := TargetOf(text);
      var point := if target.Team? then TeamSet(target.number) else IPAddressSet(target.address);
      busLog := busLog + [Shutdown, ClientModeSet, point, Initialized, TeamNumberSaved(text)];
    }

    /** The UI tick: the three indicators show the connection flags, and the
        axis bars follow the wheel, with throttle, brake and clutch negated,
        only while it is connected. */
    method UiUpdate()
      modifies this`controllerIndicator, this`robotIndicator, this`forceFeedbackIndicator
      modifies this`steeringBar, this`throttleBar, this`brakeBar, this`clutchBar
      ensures controllerIndicator == IndicatorColor(wheel != null)
      ensures robotIndicator == IndicatorColor(robotConnected)
      ensures forceFeedbackIndicator == IndicatorColor(forceFeedbackConnected)
      ensures wheel != null ==>
        && steeringBar == wheel.steeringAxis && throttleBar == -wheel.throttleAxis
        && brakeBar == -wheel.brakeAxis && clutchBar == -wheel.clutchAxis
      ensures wheel == null ==>
        && steeringBar == old(steeringBar) && throttleBar == old(throttleBar)
        && brakeBar == old(brakeBar) && clutchBar == old(clutchBar)
    {
      controllerIndicator := IndicatorColor(wheel != null);
      robotIndicator := IndicatorColor(robotConnected);
      forceFeedbackIndicator := IndicatorColor(forceFeedbackConnected);
      if wheel != null {
        steeringBar := wheel.steeringAxis;
        throttleBar := -wheel.throttleAxis;
        brakeBar := -wheel.brakeAxis;
        clutchBar := -wheel.clutchAxis;
      }
    }
  }

  /** Two connection ticks that see the same text reconfigure the client
      at most once: only when the text differs from the last one seen. */
  method RepeatedTextReconfiguresOnce(w: MainWindow, text: string, enumerated: seq<DeviceInstance>,
                                      attached: map<Guid, Joystick>) returns (r1: TickOutcome, r2: TickOutcome)
    requires w.Valid()
    modifies w`wheel, w`lastTeamNumberText, w`busLog, attached.Values
    ensures r1 == Handled && r2 == Handled ==>
      w.busLog == old(w.busLog) + ReconfigurationOnChange(old(w.lastTeamNumberText), text)
    ensures r1 == Handled ==> r2 == Handled
    ensures || w.busLog == old(w.busLog) + ReconfigurationOnChange(old(w.lastTeamNumberText), text)
            || (r1.Unhandled? && w.busLog == old(w.busLog))
  {
    r1 := w.PollConnections(text, enumerated, attached);
    r2 := w.PollConnections(text, enumerated, attached);
  }

  /** Window start-up: construct the window, then make the first connection
      attempt. */
  method Launch(enumerated: seq<DeviceInstance>, attached: map<Guid, Joystick>)
    returns (w: MainWindow, r: TickOutcome)
    modifies attached.Values
    ensures fresh(w) && w.Valid()
    ensures w.lastTeamNumberText == "" && w.busLog == [ClientModeSet]
    ensures (w.wheel != null) == old(Opens(enumerated, attached))
    ensures r.Unhandled? == old(OpenThrowsUncaught(enumerated, attached))
    ensures OpenCalls(enumerated, attached)
    ensures w.wheel != null ==>
      && fresh(w.wheel) && w.wheel.device == attached[ChosenGuid(enumerated)] && w.wheel.Initial()
  {
    w := new MainWindow();
    r := w.ConnectWheel(enumerated, attached);
  }
}
