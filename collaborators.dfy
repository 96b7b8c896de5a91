/** The Fortius driver as the controller sees it: a running flag, a scripted
    stream of telemetry samples, the effective (possibly clamped) load and
    gradient setpoints, and a log of the commands it received. Its protocol,
    threads and clamping rules are not part of this model; the clamps are
    opaque functions fixed when the driver is built. */
module FortiusDriver {
  import opened FortiusTypes

  class Fortius {
    var running: bool
    /** `telemetry(k)` is the sample handed out by the k-th poll. */
    const telemetry: nat -> Sample
    /** How many samples have been handed out. */
    var polls: nat
    var load: real
    var gradient: real
    const clampLoad: real -> real
    const clampGradient: real -> real
    /** Status codes returned by start, restart, pause and stop. */
    const reply: DeviceCommand -> int
    const found: bool
    var commands: seq<DeviceCommand>

    constructor (running: bool, telemetry: nat -> Sample, load: real, gradient: real,
                 clampLoad: real -> real, clampGradient: real -> real,
                 reply: DeviceCommand -> int, found: bool)
      ensures this.running == running && this.telemetry == telemetry
      ensures this.load == load && this.gradient == gradient
      ensures this.clampLoad == clampLoad && this.clampGradient == clampGradient
      ensures this.reply == reply && this.found == found
      ensures polls == 0 && commands == []
    {
      this.running, this.telemetry := running, telemetry;
      this.load, this.gradient := load, gradient;
      this.clampLoad, this.clampGradient := clampLoad, clampGradient;
      this.reply, this.found := reply, found;
      polls, commands := 0, [];
    }

    predicate IsRunning()
      reads this
    {
      running
    }

    function GetLoad(): real
      reads this
    {
      load
    }

    function GetGradient(): real
      reads this
    {
      gradient
    }

    method GetTelemetry() returns (s: Sample)
      modifies this`polls
      ensures s == telemetry(old(polls)) && polls == old(polls) + 1
    {
      s := telemetry(polls);
      polls := polls + 1;
    }

    /** A command that only reports a status code. */
    method Lifecycle(cmd: DeviceCommand) returns (status: int)
      requires cmd == DevStart || cmd == DevRestart || cmd == DevPause || cmd == DevStop
      modifies this`commands
      ensures status == reply(cmd) && commands == old(commands) + [cmd]
    {
      status := reply(cmd);
      commands := commands + [cmd];
    }

    method Find() returns (r: bool)
      modifies this`commands
      ensures r == found && commands == old(commands) + [DevFind]
    {
      r := found;
      commands := commands + [DevFind];
    }

    method SetLoad(requested: real)
      modifies this`load, this`commands
      ensures load == clampLoad(requested) && commands == old(commands) + [DevSetLoad(requested)]
    {
      load := clampLoad(requested);
      commands := commands + [DevSetLoad(requested)];
    }

    method SetGradient(grade: real, resistanceWatts: real)
      modifies this`gradient, this`commands
      ensures gradient == clampGradient(grade)
      ensures commands == old(commands) + [DevSetGradient(grade, resistanceWatts)]
    {
      gradient := clampGradient(grade);
      commands := commands + [DevSetGradient(grade, resistanceWatts)];
    }

    method SetMode(mode: FortiusMode)
      modifies this`commands
      ensures commands == old(commands) + [DevSetMode(mode)]
    {
      commands := commands + [DevSetMode(mode)];
    }

    method SetWeight(weight: real)
      modifies this`commands
      ensures commands == old(commands) + [DevSetWeight(weight)]
    {
      commands := commands + [DevSetWeight(weight)];
    }

    method SetCalibrationValue(value: real)
      modifies this`commands
      ensures commands == old(commands) + [DevSetCalibrationValue(value)]
    {
      commands := commands + [DevSetCalibrationValue(value)];
    }
  }
}

/** The session host (the training sidebar): its `calibrating` flag and a log
    of the actions the controller asks of it. What the host does in response
    is not part of this model. */
module Host {
  import opened FortiusTypes

  class SessionHost {
    var calibrating: bool
    var actions: seq<HostAction>

    constructor (calibrating: bool)
      ensures this.calibrating == calibrating && actions == []
    {
      this.calibrating := calibrating;
      actions := [];
    }

    method Notify(message: string, severity: int)
      modifies this`actions
      ensures actions == old(actions) + [HostAction.Notify(message, severity)]
    {
      actions := actions + [HostAction.Notify(message, severity)];
    }

    method Stop(code: int)
      modifies this`actions
      ensures actions == old(actions) + [HostAction.Stop(code)]
    {
      actions := actions + [HostAction.Stop(code)];
    }

    method Higher()
      modifies this`actions
      ensures actions == old(actions) + [HostAction.Higher]
    {
      actions := actions + [HostAction.Higher];
    }

    method Lower()
      modifies this`actions
      ensures actions == old(actions) + [HostAction.Lower]
    {
      actions := actions + [HostAction.Lower];
    }

    method NewLap()
      modifies this`actions
      ensures actions == old(actions) + [HostAction.NewLap]
    {
      actions := actions + [HostAction.NewLap];
    }
  }

  /** The application's telemetry record, written by the controller. */
  class RealtimeData {
    var watts: real
    var hr: real
    var cadence: real
    var speed: real
    var load: real
    var slope: real

    constructor ()
      ensures watts == 0.0 && hr == 0.0 && cadence == 0.0 && speed == 0.0
      ensures load == 0.0 && slope == 0.0
    {
      watts, hr, cadence, speed, load, slope := 0.0, 0.0, 0.0, 0.0, 0.0, 0.0;
    }
  }
}
