/** The zero-offset calibration procedure of the Fortius controller as a pure
    state machine: the state, the tick counter that the controller never
    resets, and what the driver sees of it (samples handed out, commands
    received). The class in controller.dfy is proved to move exactly along
    these functions. */
module CalibrationMachine {
  import opened FortiusTypes

  /** The counter must exceed this before a STARTED tick commits. */
  const Threshold: nat := 100

  /** The calibration state and the function-static tick counter. */
  datatype Machine = Machine(state: CalibrationState, counter: nat)

  /** A machine together with the driver's side of the run: how many
      telemetry samples it has handed out and the commands it has received. */
  datatype Trace = Trace(machine: Machine, polls: nat, commands: seq<DeviceCommand>)

  /** The states in which a tick does anything at all. */
  predicate Active(s: CalibrationState)
  {
    s == Starting || s == Started
  }

  /** setCalibrationState: store the requested state; a request for PENDING
      commands calibration mode and moves on to STARTING in the same call. */
  function SetState(t: Trace, requested: CalibrationState): (u: Trace)
    ensures u.machine.counter == t.machine.counter && u.polls == t.polls
    ensures u.machine.state != Pending
    ensures requested == Pending ==>
      u.machine.state == Starting && u.commands == t.commands + [DevSetMode(FtCalibrate)]
    ensures requested != Pending ==> u.machine.state == requested && u.commands == t.commands
  {
    if requested == Pending then
      Trace(Machine(Starting, t.machine.counter), t.polls, t.commands + [DevSetMode(FtCalibrate)])
    else
      Trace(Machine(requested, t.machine.counter), t.polls, t.commands)
  }

  /** One call of getCalibrationZeroOffset; `telemetry(t.polls)` is the sample
      the driver hands out next. */
  function Tick(t: Trace, telemetry: nat -> Sample): (u: Trace)
    // outside STARTING and STARTED nothing happens, not even a poll
    ensures !Active(t.machine.state) ==> u == t
    ensures Active(t.machine.state) ==> u.polls == t.polls + 1
    // the counter is never reset, and commands are only ever appended
    ensures u.machine.counter >= t.machine.counter
    ensures |t.commands| <= |u.commands| && u.commands[..|t.commands|] == t.commands
    // STARTING re-asserts calibration mode and waits for the wheel to turn
    ensures t.machine.state == Starting ==>
      u.commands == t.commands + [DevSetMode(FtCalibrate)] &&
      u.machine.counter == t.machine.counter &&
      (u.machine.state == Started <==> telemetry(t.polls).speed > 0.0) &&
      (u.machine.state == Started || u.machine.state == Starting)
    // STARTED counts, and commits exactly when the count exceeds the threshold
    ensures t.machine.state == Started ==>
      u.machine.counter == t.machine.counter + 1 &&
      (u.machine.state == Success <==> u.machine.counter > Threshold) &&
      (u.machine.state == Success || u.machine.state == Started) &&
      u.commands == t.commands + (if u.machine.state == Success
                                  then [DevSetMode(FtIdle), DevSetCalibrationValue(telemetry(t.polls).resistance)]
                                  else [])
  {
    match t.machine.state
    case Starting =>
      var next := if telemetry(t.polls).speed > 0.0 then Started else Starting;
      Trace(Machine(next, t.machine.counter), t.polls + 1, t.commands + [DevSetMode(FtCalibrate)])
    case Started =>
      var reading := telemetry(t.polls).resistance;
      var count := t.machine.counter + 1;
      if count > Threshold then
        Trace(Machine(Success, count), t.polls + 1,
              t.commands + [DevSetMode(FtIdle), DevSetCalibrationValue(reading)])
      else
        Trace(Machine(Started, count), t.polls + 1, t.commands)
    case _ => t
  }

  /** resetCalibrationState: back to IDLE with the driver idle, from any
      state; the counter keeps its value. */
  function Reset(t: Trace): (u: Trace)
    ensures u.machine.state == Idle
    ensures u.machine.counter == t.machine.counter && u.polls == t.polls
    ensures u.commands == t.commands + [DevSetMode(FtIdle)]
  {
    Trace(Machine(Idle, t.machine.counter), t.polls, t.commands + [DevSetMode(FtIdle)])
  }

  /** `n` consecutive ticks. */
  function Ticks(t: Trace, telemetry: nat -> Sample, n: nat): Trace
    decreases n
  {
    if n == 0 then t else Ticks(Tick(t, telemetry), telemetry, n - 1)
  }

  /** `n` copies of one command. */
  function Repeat(cmd: DeviceCommand, n: nat): (r: seq<DeviceCommand>)
    ensures |r| == n && forall i :: 0 <= i < n ==> r[i] == cmd
  {
    if n == 0 then [] else Repeat(cmd, n - 1) + [cmd]
  }

  /** How many calibration values the commands commit to the driver. */
  function Commits(cmds: seq<DeviceCommand>): nat
  {
    if cmds == [] then 0
    else Commits(cmds[..|cmds| - 1]) + (if cmds[|cmds| - 1].DevSetCalibrationValue? then 1 else 0)
  }

  lemma {:induction false} TicksSplit(t: Trace, telemetry: nat -> Sample, a: nat, b: nat)
    ensures Ticks(t, telemetry, a + b) == Ticks(Ticks(t, telemetry, a), telemetry, b)
    decreases a
  {
    if a > 0 {
      TicksSplit(Tick(t, telemetry), telemetry, a - 1, b);
    }
  }

  /** IDLE, SUCCESS and every state other than STARTING and STARTED are
      fixed points: any number of ticks changes, polls and commands nothing. */
  lemma {:induction false} InertStatesStay(t: Trace, telemetry: nat -> Sample, n: nat)
    requires !Active(t.machine.state)
    ensures Ticks(t, telemetry, n) == t
    decreases n
  {
    if n > 0 {
      InertStatesStay(Tick(t, telemetry), telemetry, n - 1);
    }
  }

  /** A state other than PENDING never becomes PENDING through ticks. */
  lemma {:induction false} NeverPending(t: Trace, telemetry: nat -> Sample, n: nat)
    requires t.machine.state != Pending
    ensures Ticks(t, telemetry, n).machine.state != Pending
    decreases n
  {
    if n > 0 {
      NeverPending(Tick(t, telemetry), telemetry, n - 1);
    }
  }

  /** The counter is never reset by ticks, and commands are only appended. */
  lemma {:induction false} CounterNeverReset(t: Trace, telemetry: nat -> Sample, n: nat)
    ensures Ticks(t, telemetry, n).machine.counter >= t.machine.counter
    ensures var u := Ticks(t, telemetry, n);
      |t.commands| <= |u.commands| && u.commands[..|t.commands|] == t.commands
    decreases n
  {
    if n > 0 {
      var t1 := Tick(t, telemetry);
      CounterNeverReset(t1, telemetry, n - 1);
    }
  }

  /** While the wheel does not turn, STARTING waits forever: every tick polls
      once and re-issues calibration mode, and there is no timeout. */
  lemma {:induction false} StartingWaits(t: Trace, telemetry: nat -> Sample, n: nat)
    requires t.machine.state == Starting
    requires forall p :: t.polls <= p < t.polls + n ==> telemetry(p).speed <= 0.0
    ensures Ticks(t, telemetry, n)
         == Trace(t.machine, t.polls + n, t.commands + Repeat(DevSetMode(FtCalibrate), n))
    decreases n
  {
    if n > 0 {
      var t1 := Tick(t, telemetry);
      assert telemetry(t.polls).speed <= 0.0;
      StartingWaits(t1, telemetry, n - 1);
      assert t.commands + Repeat(DevSetMode(FtCalibrate), n)
          == t1.commands + Repeat(DevSetMode(FtCalibrate), n - 1);
    }
  }

  /** Below the threshold, a STARTED tick only polls and counts. */
  lemma {:induction false} StartedCounts(t: Trace, telemetry: nat -> Sample, n: nat)
    requires t.machine.state == Started
    requires t.machine.counter + n <= Threshold
    ensures Ticks(t, telemetry, n)
         == Trace(Machine(Started, t.machine.counter + n), t.polls + n, t.commands)
    decreases n
  {
    if n > 0 {
      StartedCounts(Tick(t, telemetry), telemetry, n - 1);
    }
  }

  /** From STARTED with the counter at most the threshold, the machine stays
      STARTED for exactly `Threshold - counter` ticks and commits on the next
      one: driver idle, then the reading of that very tick. */
  lemma StartedCommits(t: Trace, telemetry: nat -> Sample)
    requires t.machine.state == Started && t.machine.counter <= Threshold
    ensures var n := Threshold + 1 - t.machine.counter;
      (forall k :: 0 <= k < n ==> Ticks(t, telemetry, k).machine.state == Started) &&
      Ticks(t, telemetry, n)
        == Trace(Machine(Success, Threshold + 1), t.polls + n,
                 t.commands + [DevSetMode(FtIdle), DevSetCalibrationValue(telemetry(t.polls + n - 1).resistance)])
  {
    var n := Threshold + 1 - t.machine.counter;
    forall k | 0 <= k < n
      ensures Ticks(t, telemetry, k).machine.state == Started
    {
      StartedCounts(t, telemetry, k);
    }
    StartedCounts(t, telemetry, n - 1);
    TicksSplit(t, telemetry, n - 1, 1);
  }

  /** Once the counter has passed the threshold (a later session on the same
      controller), the very first STARTED tick commits. */
  lemma LaterSessionCommitsAtOnce(t: Trace, telemetry: nat -> Sample)
    requires t.machine.counter >= Threshold + 1
    requires telemetry(t.polls).speed > 0.0
    ensures var u := SetState(Reset(t), Pending);
      Tick(u, telemetry).machine.state == Started &&
      Ticks(u, telemetry, 2)
        == Trace(Machine(Success, t.machine.counter + 1), t.polls + 2,
                 t.commands + [DevSetMode(FtIdle), DevSetMode(FtCalibrate), DevSetMode(FtCalibrate),
                               DevSetMode(FtIdle), DevSetCalibrationValue(telemetry(t.polls + 1).resistance)])
  {
  }

  /** From STARTING with a turning wheel: one tick to STARTED, then STARTED
      ticks until the counter exceeds the threshold, then the commit. */
  lemma StartingCommits(t: Trace, telemetry: nat -> Sample)
    requires t.machine.state == Starting && t.machine.counter <= Threshold
    requires telemetry(t.polls).speed > 0.0
    ensures var n := Threshold + 2 - t.machine.counter;
      (forall k :: 1 <= k < n ==>
         Ticks(t, telemetry, k).machine == Machine(Started, t.machine.counter + k - 1)) &&
      Ticks(t, telemetry, n)
        == Trace(Machine(Success, Threshold + 1), t.polls + n,
                 t.commands + [DevSetMode(FtCalibrate), DevSetMode(FtIdle),
                               DevSetCalibrationValue(telemetry(t.polls + n - 1).resistance)])
  {
    var n := Threshold + 2 - t.machine.counter;
    var t1 := Tick(t, telemetry);
    assert t1 == Trace(Machine(Started, t.machine.counter), t.polls + 1, t.commands + [DevSetMode(FtCalibrate)]);
    forall k | 1 <= k < n
      ensures Ticks(t, telemetry, k).machine == Machine(Started, t.machine.counter + k - 1)
    {
      assert Ticks(t, telemetry, k) == Ticks(t1, telemetry, k - 1);
      StartedCounts(t1, telemetry, k - 1);
    }
    StartedCommits(t1, telemetry);
    assert Ticks(t, telemetry, n) == Ticks(t1, telemetry, n - 1);
    var reading := telemetry(t.polls + n - 1).resistance;
    assert t1.commands + [DevSetMode(FtIdle), DevSetCalibrationValue(reading)]
        == t.commands + [DevSetMode(FtCalibrate), DevSetMode(FtIdle), DevSetCalibrationValue(reading)];
  }

  /** A first session on a fresh controller whose wheel turns at once: after
      the request, one STARTING tick, then 101 STARTED ticks of which only the
      last commits, with the reading of that tick. */
  lemma FreshSession(polls: nat, commands: seq<DeviceCommand>, telemetry: nat -> Sample)
    requires telemetry(polls).speed > 0.0
    ensures var u := SetState(Trace(Machine(Idle, 0), polls, commands), Pending);
      u.machine.state == Starting &&
      (forall k :: 1 <= k <= Threshold + 1 ==>
         Ticks(u, telemetry, k).machine == Machine(Started, k - 1)) &&
      Ticks(u, telemetry, Threshold + 2)
        == Trace(Machine(Success, Threshold + 1), polls + Threshold + 2,
                 commands + [DevSetMode(FtCalibrate), DevSetMode(FtCalibrate),
                             DevSetMode(FtIdle), DevSetCalibrationValue(telemetry(polls + Threshold + 1).resistance)])
  {
    var u := SetState(Trace(Machine(Idle, 0), polls, commands), Pending);
    StartingCommits(u, telemetry);
    var reading := telemetry(polls + Threshold + 1).resistance;
    assert u.commands + [DevSetMode(FtCalibrate), DevSetMode(FtIdle), DevSetCalibrationValue(reading)]
        == commands + [DevSetMode(FtCalibrate), DevSetMode(FtCalibrate), DevSetMode(FtIdle), DevSetCalibrationValue(reading)];
  }

  /** Appending a mode command commits no calibration value. */
  lemma CommitsOfMode(a: seq<DeviceCommand>, m: FortiusMode)
    ensures Commits(a + [DevSetMode(m)]) == Commits(a)
  {
    assert (a + [DevSetMode(m)])[..|a|] == a;
  }

  /** Appending a mode command and a calibration value commits one value. */
  lemma CommitsOfCommit(a: seq<DeviceCommand>, m: FortiusMode, v: real)
    ensures Commits(a + [DevSetMode(m), DevSetCalibrationValue(v)]) == Commits(a) + 1
  {
    assert (a + [DevSetMode(m), DevSetCalibrationValue(v)])[..|a| + 1] == a + [DevSetMode(m)];
    CommitsOfMode(a, m);
  }

  /** Over any run of ticks, the calibration value is committed exactly once
      if the run enters SUCCESS, and never otherwise. */
  lemma {:induction false} CommitExactlyOnce(t: Trace, telemetry: nat -> Sample, n: nat)
    ensures var u := Ticks(t, telemetry, n);
      Commits(u.commands)
        == Commits(t.commands) + (if t.machine.state != Success && u.machine.state == Success then 1 else 0)
    decreases n
  {
    if n > 0 && Active(t.machine.state) {
      var t1 := Tick(t, telemetry);
      assert Ticks(t, telemetry, n) == Ticks(t1, telemetry, n - 1);
      CommitExactlyOnce(t1, telemetry, n - 1);
      if t1.machine.state == Success {
        CommitsOfCommit(t.commands, FtIdle, telemetry(t.polls).resistance);
        InertStatesStay(t1, telemetry, n - 1);
      } else if t.machine.state == Starting {
        CommitsOfMode(t.commands, FtCalibrate);
      }
    } else if !Active(t.machine.state) {
      InertStatesStay(t, telemetry, n);
    }
  }
}
