# Fortius trainer controller

A Dafny model of `FortiusController`. This is the part of GoldenCheetah's training
mode that sits between a Tacx Fortius resistance trainer and the training
window (the session host). It is modelled as four parts:

- **Telemetry relay and button dispatch.** On every polling tick,
  `GetRealtimeData` first checks that the driver is running. If it is, the
  controller polls one telemetry sample, copies power, heart rate, cadence and
  speed into the application's record, and runs the post-processing hook.
  Unless the host is calibrating, it then turns the head unit's buttons into
  host actions (raise load, lower load, new lap, stop) in a fixed order.
  Finally it shows the driver's effective load and gradient, which the driver
  may have clamped.
- **Calibration.** A zero-offset calibration state machine has three entry
  points: `SetCalibrationState`, the per-tick `GetCalibrationZeroOffset` and
  `ResetCalibrationState`. Its tick counter is function-static in the source.
  Here it is a controller field that nothing resets.
- **Mode translation.** `SetMode` maps application modes to driver modes.
- **The rest.** The constant capability queries, and the thin wrappers that
  forward to the driver.

Files:

- `fortius_types.dfy`, module `FortiusTypes`: telemetry samples, button bits,
  modes, calibration states, and the driver commands and host actions the
  controller issues.
- `collaborators.dfy`, modules `FortiusDriver` and `Host`: the two
  collaborators and the record.
  - The driver is abstract. It has a running flag and a scripted telemetry
    stream (`telemetry(k)` is the sample of the k-th poll). It holds the
    effective load and gradient, set through opaque clamps, and keeps a
    command log.
  - The session host holds the `calibrating` flag and an action log.
  - `RealtimeData` is the record that the controller writes.
- `calibration_machine.dfy`, module `CalibrationMachine`: the calibration
  procedure as pure functions over a `Trace`. A `Trace` holds the state, the
  counter, the number of samples polled and the command log. The module also
  holds the multi-tick lemmas.
- `controller.dfy`, module `Controller`: the class `FortiusController`.
  - Each calibration method is proved to move the controller and its driver
    exactly as the matching pure function says:
    `Calibration() == Tick(old(Calibration()), device.telemetry)`.
  - `Valid()` says that PENDING is never left standing. Every calibration
    method keeps it.
  - The relay method states its effect on the record, the host's action log
    and the driver's poll count for each case.

The code is modelled as written:

- The calibration counter is never reset. So a second calibration session on
  the same controller commits on its first STARTED tick. The source marks
  this counter as wrong in a comment at line 213.
- There is no calibration timeout. A wheel that never turns keeps the machine
  in STARTING forever.
- The first session commits on the 101st STARTED tick, not the 100th, because
  the test is `++c > 100`.

## Model

| member | source | states |
|---|---|---|
| `Controller.TranslateMode` | src/Train/FortiusController.cpp:147-155 | ERGO gives the ergo driver mode and SPIN gives the slope mode, each if and only if. Every other mode gives idle. Calibration mode is never selected. |
| `Controller.FortiusController.SetMode` | src/Train/FortiusController.cpp:147-155 | Sends exactly one mode command to the driver, with the translated mode. |
| `Controller.ButtonActions` | src/Train/FortiusController.cpp:117-126 | Each of higher, lower, new lap and stop(0) is requested if and only if its button bit (PLUS, MINUS, ENTER, CANCEL) is set. No other action is requested. With none of the four bits set, nothing fires. |
| `Controller.ButtonActionsInOrder` | src/Train/FortiusController.cpp:117-126 | The requested actions are strictly ordered PLUS, MINUS, ENTER, CANCEL. So each fires at most once, in that order, whatever combination is held. |
| `Controller.PlusAndMinusTogether` | src/Train/FortiusController.cpp:118-120 | With PLUS and MINUS both held, higher fires first and lower second. |
| `Controller.FortiusController.DispatchButtons` | src/Train/FortiusController.cpp:117-126 | The host's action log grows by exactly the requested actions, in order. |
| `Controller.FortiusController.DispatchOne` | src/Train/FortiusController.cpp:118-126 | One button call: if pressed, the host receives exactly its action; otherwise nothing. |
| `Controller.FortiusController.GetRealtimeData` | src/Train/FortiusController.cpp:76-131 | Driver not running: exactly one notification (severity 2) and one stop(1); the record is untouched, nothing is polled and the hook does not run. Running: exactly one poll; watts, hr, cadence and speed come from that sample; the hook runs once. While calibrating, no host action fires and load and slope keep their old values. Otherwise the buttons' actions fire in order, then load and slope equal the driver's effective setpoints. |
| `Controller.FortiusController.ProcessRealtimeData` | src/Train/FortiusController.cpp:102-108 | The post-processing hook runs exactly once for each call. It leaves the record as it is. |
| `Controller.FortiusController.PushRealtimeData` | src/Train/FortiusController.cpp:133 | A no-op: the record, driver, host and controller are unchanged. |
| `Controller.FortiusController.Start` | src/Train/FortiusController.cpp:29-33 | Forwards one start to the driver and returns the driver's status code. |
| `Controller.FortiusController.Restart` | src/Train/FortiusController.cpp:36-40 | Forwards one restart and returns the driver's status code. |
| `Controller.FortiusController.Pause` | src/Train/FortiusController.cpp:43-47 | Forwards one pause and returns the driver's status code. |
| `Controller.FortiusController.Stop` | src/Train/FortiusController.cpp:50-54 | Forwards one stop and returns the driver's status code. |
| `Controller.FortiusController.Find` | src/Train/FortiusController.cpp:56-60 | Forwards one find and returns the driver's answer. |
| `Controller.FortiusController.Discover` | src/Train/FortiusController.cpp:62-63 | Discovery is not implemented and always reports failure. |
| `Controller.FortiusController.DoesPush` | src/Train/FortiusController.cpp:66 | The controller does not accept pushed telemetry. |
| `Controller.FortiusController.DoesPull` | src/Train/FortiusController.cpp:67 | The controller supplies telemetry on request. |
| `Controller.FortiusController.DoesLoad` | src/Train/FortiusController.cpp:68 | The controller supports load control. |
| `Controller.FortiusController.SetLoad` | src/Train/FortiusController.cpp:135-139 | Forwards one load request. The driver's effective load becomes its clamp of the request. |
| `Controller.FortiusController.SetGradient` | src/Train/FortiusController.cpp:141-145 | Forwards one gradient request. The driver's effective gradient becomes its clamp of the grade. |
| `Controller.FortiusController.SetWeight` | src/Train/FortiusController.cpp:157-161 | Forwards one weight command. |
| `Controller.FortiusController.GetCalibrationType` | src/Train/FortiusController.cpp:165-169 | The calibration method is always zero offset. |
| `Controller.FortiusController.GetCalibrationTargetSpeed` | src/Train/FortiusController.cpp:171-175 | The target speed is always 20. |
| `Controller.FortiusController.GetCalibrationState` | src/Train/FortiusController.cpp:177-181 | The state reported to the host is never PENDING. |
| `Controller.FortiusController.constructor` | src/Train/FortiusController.cpp:23-26 | A new controller is idle, its counter is 0 and the hook has not run. Its invariant holds. |
| `Controller.FortiusController.SetCalibrationState` | src/Train/FortiusController.cpp:183-193 | Moves the controller and driver exactly as `SetState`, and leaves the invariant holding. |
| `Controller.FortiusController.GetCalibrationZeroOffset` | src/Train/FortiusController.cpp:195-231 | Always returns 0. Moves the controller and driver exactly as one `Tick` on the driver's next sample, and keeps the invariant. |
| `Controller.FortiusController.ResetCalibrationState` | src/Train/FortiusController.cpp:233-240 | Moves the controller and driver exactly as `Reset`. |
| `Controller.FortiusController.ReadCurrentCalibrationValue` | src/Train/FortiusController.cpp:242-250 | Polls exactly one sample and returns its resistance channel. |
| `Controller.FortiusController.ReadCurrentSpeedValue` | src/Train/FortiusController.cpp:252-259 | Polls exactly one sample and returns its speed. |
| `CalibrationMachine.SetState` | src/Train/FortiusController.cpp:183-193 | A PENDING request sends exactly one calibration-mode command and leaves STARTING. Any other state is stored as given, with no command. The counter is untouched, nothing is polled, and PENDING never remains. |
| `CalibrationMachine.Tick` | src/Train/FortiusController.cpp:195-231 | Outside STARTING and STARTED, nothing changes and nothing is polled. Otherwise exactly one sample is polled. The counter never decreases and commands are only appended. STARTING re-sends calibration mode, and moves to STARTED if and only if the polled speed is positive. STARTED adds one to the counter and moves to SUCCESS if and only if the counter then exceeds 100. Only then does it send idle mode followed by that tick's reading. |
| `CalibrationMachine.Reset` | src/Train/FortiusController.cpp:233-240 | From any state: IDLE, exactly one idle-mode command, the counter kept and nothing polled. |
| `CalibrationMachine.InertStatesStay` | src/Train/FortiusController.cpp:199-230 | From IDLE, SUCCESS or any state other than STARTING/STARTED, any number of ticks changes, polls and sends nothing. |
| `CalibrationMachine.NeverPending` | src/Train/FortiusController.cpp:195-231 | Ticks never lead into PENDING. |
| `CalibrationMachine.CounterNeverReset` | src/Train/FortiusController.cpp:218-219 | Over any run of ticks the counter never decreases, and the earlier commands stay a prefix. |
| `CalibrationMachine.StartingWaits` | src/Train/FortiusController.cpp:201-208 | While the polled speed stays at or below 0, STARTING stays put for any number of ticks. It polls once and re-sends calibration mode on every tick, with no timeout. |
| `CalibrationMachine.StartedCounts` | src/Train/FortiusController.cpp:211-225 | While the counter stays within 100, STARTED ticks only poll and count; no command is sent. |
| `CalibrationMachine.StartedCommits` | src/Train/FortiusController.cpp:211-225 | From STARTED with counter c at most 100, the machine stays STARTED for 100 - c ticks. It reaches SUCCESS on tick 101 - c, sending idle mode and then that tick's reading. |
| `CalibrationMachine.StartingCommits` | src/Train/FortiusController.cpp:201-225 | From STARTING with a turning wheel and counter c at most 100: STARTED for ticks 1 to 101 - c, then SUCCESS one tick later. Exactly calibration mode, idle mode and the last reading are sent. |
| `CalibrationMachine.FreshSession` | src/Train/FortiusController.cpp:183-231 | From a fresh IDLE controller with counter 0 whose wheel turns at once, a PENDING request is followed by 101 STARTED ticks. SUCCESS comes on tick 102. The commands are exactly calibration, calibration, idle and the reading of the 101st STARTED tick. |
| `CalibrationMachine.LaterSessionCommitsAtOnce` | src/Train/FortiusController.cpp:218-240 | Once the counter has passed 100, a reset, a new request and a turning wheel lead to success on the first STARTED tick. |
| `CalibrationMachine.CommitExactlyOnce` | src/Train/FortiusController.cpp:216-225 | Over any run of ticks the calibration value is sent exactly once if the run enters SUCCESS, and never otherwise. |

## Left out

- The Fortius driver (`Fortius.h`/`Fortius.cpp`) is not part of this model. Its USB protocol, threads, clamping rules and lifecycle are left out. Its running flag is an input that nothing in the model changes. The clamps are opaque functions.
- The header constants are not part of this model. `FT_*` modes, `RT_MODE_*` modes, `CALIBRATION_STATE_*` states and `CALIBRATION_TYPE_*` types are distinct constructors. The other 8-bit state codes are `OtherState(code)`, with `code` below 256. The four button bits are given the single-bit values 1, 2, 4 and 8; the properties hold for any four distinct single bits.
- What the session host does after higher, lower, new lap or stop is not modelled. In particular it may change the driver's load. Host actions are only logged, so the driver's setpoint does not change during a tick in the model.
- `processRealtimeData` is inherited from a base class that is not part of this model. It is modelled as a call that runs once per running tick and leaves the record unchanged.
- Qt signal delivery and the `tr()` translation of the notification text are left out. The notification is a host action that carries the untranslated text and severity 2.
- Distance, steering and status are polled but never relayed, as in the source.
- Controller.FortiusController.GetCalibrationZeroOffset: the counter is an unbounded natural. The model does not capture the 32-bit signed overflow of `++c`, which needs more than two billion STARTED ticks.
- Controller.FortiusController.constructor: in the source `c` is function-static and shared by every controller in the process. In the model each controller has its own counter. The constructor also receives the driver instead of creating it. It starts in IDLE, because the header that sets the initial state is not part of this model.
- Controller.FortiusController.GetCalibrationZeroOffset: the 16-bit unsigned return value is modelled as an integer that is always 0.
- Floating point: telemetry values are reals. The code only copies them or compares speed with 0.
