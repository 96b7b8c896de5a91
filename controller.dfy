/** The Fortius trainer controller: per-tick telemetry relay and button
    dispatch, mode translation, the zero-offset calibration procedure and the
    constant capability queries. */
module Controller {
  import opened FortiusTypes
  import opened CalibrationMachine
  import opened FortiusDriver
  import opened Host

  /** The text of the connection-lost notification; it is shown with severity 2. */
  const CannotConnect: string := "Cannot Connect to Fortius"

  /** setMode's translation from application modes to driver modes: a total
      three-way mapping that never selects calibration. */
  function TranslateMode(mode: RealtimeMode): (r: FortiusMode)
    ensures r == FtErgoMode <==> mode == RtModeErgo
    ensures r == FtSsMode <==> mode == RtModeSpin
    ensures r == FtIdle <==> !(mode == RtModeErgo || mode == RtModeSpin)
    ensures r != FtCalibrate
  {
    if mode == RtModeErgo then FtErgoMode
    else if mode == RtModeSpin then FtSsMode
    else FtIdle
  }

  /** The position of a button action in the fixed dispatch order. */
  function ButtonRank(a: HostAction): nat
  {
    match a
    case Higher => 0
    case Lower => 1
    case NewLap => 2
    case Stop(_) => 3
    case Notify(_, _) => 4
  }

  /** One step of the dispatch: a pressed button appends its action. */
  function Fire(acts: seq<HostAction>, pressed: bool, action: HostAction): seq<HostAction>
  {
    if pressed then acts + [action] else acts
  }

  /** The host actions the buttons of one sample request, in dispatch order:
      PLUS, MINUS, ENTER, CANCEL. */
  function ButtonActions(buttons: bv32): (acts: seq<HostAction>)
    ensures HostAction.Higher in acts <==> buttons & FtPlus != 0
    ensures HostAction.Lower in acts <==> buttons & FtMinus != 0
    ensures HostAction.NewLap in acts <==> buttons & FtEnter != 0
    ensures HostAction.Stop(0) in acts <==> buttons & FtCancel != 0
    ensures forall a :: a in acts ==>
      a == HostAction.Higher || a == HostAction.Lower || a == HostAction.NewLap || a == HostAction.Stop(0)
    ensures buttons & (FtPlus | FtMinus | FtEnter | FtCancel) == 0 ==> acts == []
  {
    var afterPlus := Fire([], buttons & FtPlus != 0, HostAction.Higher);
    var afterMinus := Fire(afterPlus, buttons & FtMinus != 0, HostAction.Lower);
    var afterEnter := Fire(afterMinus, buttons & FtEnter != 0, HostAction.NewLap);
    Fire(afterEnter, buttons & FtCancel != 0, HostAction.Stop(0))
  }

  /** Actions strictly ordered by dispatch rank: each at most once, in order. */
  ghost predicate RankSorted(acts: seq<HostAction>)
  {
    forall i, j :: 0 <= i < j < |acts| ==> ButtonRank(acts[i]) < ButtonRank(acts[j])
  }

  ghost predicate RanksBelow(acts: seq<HostAction>, bound: nat)
  {
    forall i :: 0 <= i < |acts| ==> ButtonRank(acts[i]) < bound
  }

  lemma FireKeepsOrder(acts: seq<HostAction>, pressed: bool, action: HostAction)
    requires RankSorted(acts) && RanksBelow(acts, ButtonRank(action))
    ensures RankSorted(Fire(acts, pressed, action))
    ensures RanksBelow(Fire(acts, pressed, action), ButtonRank(action) + 1)
  {
  }

  /** However many buttons are held, their actions fire each once and in the
      order PLUS, MINUS, ENTER, CANCEL. */
  lemma ButtonActionsInOrder(buttons: bv32)
    ensures RankSorted(ButtonActions(buttons))
  {
    var afterPlus := Fire([], buttons & FtPlus != 0, HostAction.Higher);
    FireKeepsOrder([], buttons & FtPlus != 0, HostAction.Higher);
    var afterMinus := Fire(afterPlus, buttons & FtMinus != 0, HostAction.Lower);
    FireKeepsOrder(afterPlus, buttons & FtMinus != 0, HostAction.Lower);
    var afterEnter := Fire(afterMinus, buttons & FtEnter != 0, HostAction.NewLap);
    FireKeepsOrder(afterMinus, buttons & FtEnter != 0, HostAction.NewLap);
    FireKeepsOrder(afterEnter, buttons & FtCancel != 0, HostAction.Stop(0));
  }

  /** PLUS and MINUS held together raise, then lower, each exactly once. */
  lemma PlusAndMinusTogether(buttons: bv32)
    requires buttons & FtPlus != 0 && buttons & FtMinus != 0
    ensures |ButtonActions(buttons)| >= 2
    ensures ButtonActions(buttons)[0] == HostAction.Higher && ButtonActions(buttons)[1] == HostAction.Lower
  {
  }

  class FortiusController {
    const device: Fortius
    const parent: SessionHost
    var calibrationState: CalibrationState
    /** The tick counter of the STARTED state. Nothing resets it. */
    var c: nat
    /** How often the inherited post-processing hook has run. */
    var postProcessCalls: nat

    /** PENDING is never left standing: setCalibrationState moves on at once. */
    ghost predicate Valid()
      reads this
    {
      calibrationState != Pending
    }

    /** The calibration machine and the driver's side of it. */
    ghost function Calibration(): Trace
      reads this, device
    {
      Trace(Machine(calibrationState, c), device.polls, device.commands)
    }

    constructor (parent: SessionHost, device: Fortius)
      ensures Valid() && this.parent == parent && this.device == device
      ensures calibrationState == Idle && c == 0 && postProcessCalls == 0
    {
      this.parent, this.device := parent, device;
      calibrationState, c, postProcessCalls := Idle, 0, 0;
    }

    method Start() returns (status: int)
      modifies device`commands
      ensures status == device.reply(DevStart) && device.commands == old(device.commands) + [DevStart]
    {
      status := device.Lifecycle(DevStart);
    }

    method Restart() returns (status: int)
      modifies device`commands
      ensures status == device.reply(DevRestart) && device.commands == old(device.commands) + [DevRestart]
    {
      status := device.Lifecycle(DevRestart);
    }

    method Pause() returns (status: int)
      modifies device`commands
      ensures status == device.reply(DevPause) && device.commands == old(device.commands) + [DevPause]
    {
      status := device.Lifecycle(DevPause);
    }

    method Stop() returns (status: int)
      modifies device`commands
      ensures status == device.reply(DevStop) && device.commands == old(device.commands) + [DevStop]
    {
      status := device.Lifecycle(DevStop);
    }

    method Find() returns (found: bool)
      modifies device`commands
      ensures found == device.found && device.commands == old(device.commands) + [DevFind]
    {
      found := device.Find();
    }

    /** Device discovery is not implemented: it always reports failure. */
    static function Discover(identifier: string): (found: bool)
      ensures !found
    {
      false
    }

    static function DoesPush(): (r: bool)
      ensures !r
    {
      false
    }

    static function DoesPull(): (r: bool)
      ensures r
    {
      true
    }

    static function DoesLoad(): (r: bool)
      ensures r
    {
      true
    }

    /** The inherited post-processing hook: it runs, with no effect on the record. */
    method ProcessRealtimeData(rtData: RealtimeData)
      modifies this`postProcessCalls
      ensures postProcessCalls == old(postProcessCalls) + 1
    {
      postProcessCalls := postProcessCalls + 1;
    }

    /** One polling tick: relay the sample into the record, dispatch the
        buttons unless the host is calibrating, then show the driver's
        effective load and gradient. */
    method GetRealtimeData(rtData: RealtimeData)
      modifies rtData, device`polls, parent`actions, this`postProcessCalls
      // connection lost: notify and stop with code 1, and nothing else
      ensures !device.running ==>
        parent.actions == old(parent.actions) + [HostAction.Notify(CannotConnect, 2), HostAction.Stop(1)] &&
        unchanged(rtData) && device.polls == old(device.polls) &&
        postProcessCalls == old(postProcessCalls)
      // running: exactly one poll, relayed, and one run of the hook
      ensures device.running ==>
        var s := device.telemetry(old(device.polls));
        device.polls == old(device.polls) + 1 &&
        postProcessCalls == old(postProcessCalls) + 1 &&
        rtData.watts == s.power && rtData.hr == s.heartRate &&
        rtData.cadence == s.cadence && rtData.speed == s.speed
      // calibrating: no button fires and load and slope are left as they were
      ensures device.running && parent.calibrating ==>
        parent.actions == old(parent.actions) &&
        rtData.load == old(rtData.load) && rtData.slope == old(rtData.slope)
      // otherwise the buttons fire in order and the record shows the
      // driver's effective setpoints, read after them
      ensures device.running && !parent.calibrating ==>
        var s := device.telemetry(old(device.polls));
        parent.actions == old(parent.actions) + ButtonActions(s.buttons) &&
        rtData.load == device.GetLoad() && rtData.slope == device.GetGradient()
    {
      if !device.IsRunning() {
        parent.Notify(CannotConnect, 2);
        parent.Stop(1);
        return;
      }
      var s := device.GetTelemetry();

      rtData.watts := s.power;
      rtData.hr := s.heartRate;
      rtData.cadence := s.cadence;
      rtData.speed := s.speed;

      ProcessRealtimeData(rtData);

      if parent.calibrating {
        return;
      }

      DispatchButtons(s.buttons);

      rtData.load := device.GetLoad();
      rtData.slope := device.GetGradient();
    }

    /** The button half of a tick: PLUS, MINUS, ENTER, CANCEL in that order. */
    method DispatchButtons(buttons: bv32)
      modifies parent`actions
      ensures parent.actions == old(parent.actions) + ButtonActions(buttons)
    {
      ghost var log := parent.actions;
      ghost var afterPlus := Fire([], buttons & FtPlus != 0, HostAction.Higher);
      DispatchOne(buttons & FtPlus != 0, HostAction.Higher, log, []);
      ghost var afterMinus := Fire(afterPlus, buttons & FtMinus != 0, HostAction.Lower);
      DispatchOne(buttons & FtMinus != 0, HostAction.Lower, log, afterPlus);
      ghost var afterEnter := Fire(afterMinus, buttons & FtEnter != 0, HostAction.NewLap);
      DispatchOne(buttons & FtEnter != 0, HostAction.NewLap, log, afterMinus);
      DispatchOne(buttons & FtCancel != 0, HostAction.Stop(0), log, afterEnter);
    }

    /** One button: call the host action that it requests, if pressed. */
    method DispatchOne(pressed: bool, action: HostAction, ghost log: seq<HostAction>, ghost acts: seq<HostAction>)
      requires action == HostAction.Higher || action == HostAction.Lower ||
               action == HostAction.NewLap || action == HostAction.Stop(0)
      requires parent.actions == log + acts
      modifies parent`actions
      ensures parent.actions == log + Fire(acts, pressed, action)
    {
      if pressed {
        match action
        case Higher => parent.Higher();
        case Lower => parent.Lower();
        case NewLap => parent.NewLap();
        case Stop(code) => parent.Stop(code);
      }
    }

    /** The outbound direction is a deliberate no-op for this device. */
    method PushRealtimeData(rtData: RealtimeData)
      ensures unchanged(rtData, device, parent, this)
    {
    }

    method SetLoad(load: real)
      modifies device`load, device`commands
      ensures device.load == device.clampLoad(load)
      ensures device.commands == old(device.commands) + [DevSetLoad(load)]
    {
      device.SetLoad(load);
    }

    method SetGradient(grade: real, resistanceWatts: real)
      modifies device`gradient, device`commands
      ensures device.gradient == device.clampGradient(grade)
      ensures device.commands == old(device.commands) + [DevSetGradient(grade, resistanceWatts)]
    {
      device.SetGradient(grade, resistanceWatts);
    }

    method SetMode(mode: RealtimeMode)
      modifies device`commands
      ensures device.commands == old(device.commands) + [DevSetMode(TranslateMode(mode))]
    {
      device.SetMode(TranslateMode(mode));
    }

    method SetWeight(weight: real)
      modifies device`commands
      ensures device.commands == old(device.commands) + [DevSetWeight(weight)]
    {
      device.SetWeight(weight);
    }

    static function GetCalibrationType(): (t: CalibrationType)
      ensures t == ZeroOffset
    {
      ZeroOffset
    }

    static function GetCalibrationTargetSpeed(): (speed: real)
      ensures speed == 20.0
    {
      20.0
    }

    /** The state as the host reads it: never PENDING. */
    function GetCalibrationState(): (s: CalibrationState)
      reads this
      requires Valid()
      ensures s != Pending
    {
      calibrationState
    }

    method SetCalibrationState(state: CalibrationState)
      modifies this`calibrationState, device`commands
      ensures Valid()
      ensures Calibration() == SetState(old(Calibration()), state)
    {
      calibrationState := state;
      if calibrationState == Pending {
        device.SetMode(FtCalibrate);
        calibrationState := Starting;
      }
    }

    /** One tick of the calibration procedure; the return value is always 0. */
    method GetCalibrationZeroOffset() returns (r: int)
      requires Valid()
      modifies this`calibrationState, this`c, device`polls, device`commands
      ensures Valid()
      ensures r == 0
      ensures Calibration() == Tick(old(Calibration()), device.telemetry)
    {
      r := 0;
      match calibrationState
      case Starting =>
        device.SetMode(FtCalibrate);
        var speed := ReadCurrentSpeedValue();
        if speed > 0.0 {
          calibrationState := Started;
        }
      case Started =>
        var calVal := ReadCurrentCalibrationValue();
        c := c + 1;
        if c > Threshold {
          calibrationState := Success;
          device.SetMode(FtIdle);
          device.SetCalibrationValue(calVal);
        }
      case _ =>
    }

    method ResetCalibrationState()
      modifies this`calibrationState, device`commands
      ensures Valid()
      ensures Calibration() == Reset(old(Calibration()))
    {
      calibrationState := Idle;
      device.SetMode(FtIdle);
    }

    /** Polls one sample and keeps only its calibration reading. */
    method ReadCurrentCalibrationValue() returns (value: real)
      modifies device`polls
      ensures value == device.telemetry(old(device.polls)).resistance
      ensures device.polls == old(device.polls) + 1
    {
      var s := device.GetTelemetry();
      value := s.resistance;
    }

    /** Polls one sample and keeps only its speed. */
    method ReadCurrentSpeedValue() returns (speed: real)
      modifies device`polls
      ensures speed == device.telemetry(old(device.polls)).speed
      ensures device.polls == old(device.polls) + 1
    {
      var s := device.GetTelemetry();
      speed := s.speed;
    }
  }
}
