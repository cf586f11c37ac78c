# On-board liveness, telemetry fusion and command decision, in Dafny

This project models three small pieces of a drone-bootcamp ground program that talks MAVLink to a vehicle. The surrounding loop runs each piece once per tick.

- **Heartbeat receiver** (`Heartbeat`). It counts consecutive ticks without a HEARTBEAT and reports `"Connected"` until five in a row are missed. From then on it reports `"Disconnected"` until the next heartbeat. It logs `"Connected"` when its flag goes from false to true, and logs `"Disconnected"` when the flag goes from true to false.
- **Telemetry fuser** (`Telemetry`). It keeps the latest LOCAL_POSITION_NED (message 32) and the latest ATTITUDE (message 30). Once both have arrived, every received message yields one fused `TelemetryData`. Its time is the later of the two `time_boot_ms`.
- **Command decision** (`Command`). It compares a fused record with a fixed target. Sending MAV_CMD_CONDITION_CHANGE_ALT (command 113) takes priority when the altitude is off by more than 0.5. Otherwise it sends MAV_CMD_CONDITION_YAW (command 115) when the heading is off by more than 5 degrees. Otherwise it sends nothing.

Files:

- `wrappers.dfy` holds `Option`.
- `mavlink.dfy` holds the messages received and the COMMAND_LONG record sent.
- `heartbeat.dfy`, `telemetry.dfy` and `command.dfy` each model one source file.

The two stateful components are classes whose `Run` methods update their fields as the source does. Each `Run` is proved equal to a pure `Step` function on the old state. The lemmas about whole runs of ticks are stated over that function, through `After` (the state after a sequence of ticks) and `LastStatus`/`LastOutput` (what the last tick returned).

The receive on the connection (`recv_match` with a one-second timeout) is an input: `Some(message)` or `None` for a timeout. The command the decision sends through `command_long_send` is part of its result. `math.atan2` and the formatting of a float into the yaw text are not modelled. They are fields of a `Host` parameter. `math.pi` is the real constant 3.141592653589793. `math.degrees` is multiplication by 180/pi. Python's float `%` is modelled as a floor modulo on reals.

Two points where the code's behaviour may surprise:

- The normalised yaw error is often stated as lying in (-pi, pi]. `(e + pi) % (2 pi) - pi` with Python's `%` gives [-pi, pi), and that is what `NormalizeAngle` proves.
- While no heartbeat has ever arrived, the receiver reports `"Connected"` during the first four missed ticks, exactly as the code does. `MissStreak` and `GraceWindow` state this.

## Model

| member | source | states |
|---|---|---|
| `Heartbeat.Step` | modules/heartbeat/heartbeat_receiver.py:54-85 | The status is `"Connected"` or `"Disconnected"`. It is `"Disconnected"` exactly when the counter reaches 5. A heartbeat resets the counter to 0, sets the flag and returns `"Connected"`. A miss adds exactly 1 to the counter. A miss below 5 returns `"Connected"` and leaves the flag alone. A miss at or past 5 returns `"Disconnected"` and clears the flag. The logger is called at most once per tick: Info on a false-to-true change, Error on a true-to-false change, nothing otherwise. |
| `Heartbeat.StepCoherent` | modules/heartbeat/heartbeat_receiver.py:77-83 | Every state a tick produces is connected only while its counter is below 5. |
| `Heartbeat.AfterMissed` | modules/heartbeat/heartbeat_receiver.py:67-77 | After any sequence of ticks, the counter is the number of misses since the last heartbeat. With no heartbeat yet, it is the starting counter plus the number of ticks. |
| `Heartbeat.AfterConnected` | modules/heartbeat/heartbeat_receiver.py:67-83 | After any sequence of ticks from a coherent state, the flag is set exactly when a heartbeat has come and fewer than 5 misses follow it. With no heartbeat yet, it is set exactly when the flag was set at the start and the counter stayed below 5. |
| `Heartbeat.GraceWindow` | modules/heartbeat/heartbeat_receiver.py:77-85 | A tick returns `"Disconnected"` exactly when it ends a streak of at least 5 misses since the last heartbeat. With no heartbeat yet, the streak is counted from the starting counter. |
| `Heartbeat.MissStreak` | modules/heartbeat/heartbeat_receiver.py:77-85 | Start from a reset counter: the initial state, or any state right after a heartbeat. Then the n-th consecutive miss returns `"Disconnected"` exactly when n >= 5, and every later miss does too. From the 5th miss on the receiver is disconnected. Before that its flag is unchanged. |
| `Heartbeat.StepKeepsLog` | modules/heartbeat/heartbeat_receiver.py:70-82 | One tick keeps the log alternating between Info `"Connected"` and Error `"Disconnected"`. The flag stays set exactly when the log has odd length. |
| `Heartbeat.LogAlternates` | modules/heartbeat/heartbeat_receiver.py:67-85 | From the initial state, whatever arrives, the log alternates, starting with `"Connected"`. So a transition is never logged twice in a row. |
| `Heartbeat.HeartbeatReceiver.constructor` | modules/heartbeat/heartbeat_receiver.py:41-52 | A new receiver has counter 0, flag false and an empty log. |
| `Heartbeat.HeartbeatReceiver.Run` | modules/heartbeat/heartbeat_receiver.py:54-85 | Updating the two fields in place gives the next state, status and log calls of `Step`. The receiver invariant (coherent, alternating log) is kept. |
| `Telemetry.Fuse` | modules/telemetry/telemetry.py:104-121 | The fused time is at least each boot time and equal to one of them, so it is their maximum. Position and velocity come from LOCAL_POSITION_NED. Angles and rates come from ATTITUDE. |
| `Telemetry.Step` | modules/telemetry/telemetry.py:83-127 | A timeout returns nothing and leaves both slots unchanged. A position message overwrites only the position slot. An attitude message overwrites only the attitude slot. A filled slot stays filled. After a message, a record is returned exactly when both slots are filled, and it is the fusion of what they hold. |
| `Telemetry.AfterHoldsLatest` | modules/telemetry/telemetry.py:99-102 | After any sequence of ticks, each slot holds the most recent message of its kind, or its earlier contents if no message of that kind came. |
| `Telemetry.FusesLatestPair` | modules/telemetry/telemetry.py:99-121 | From a new fuser, a tick that receives a message returns a record exactly when a position and an attitude have each arrived at least once. The record fuses the two latest, and its time is the later of their boot times. |
| `Telemetry.NothingBeforeBoth` | modules/telemetry/telemetry.py:104-127 | From a new fuser, no tick returns a record while either kind has yet to arrive. |
| `Telemetry.StaysFull` | modules/telemetry/telemetry.py:83-122 | Slots are never cleared: once both are filled, they stay filled over any further ticks. |
| `Telemetry.AlwaysFusesOnceFull` | modules/telemetry/telemetry.py:99-121 | Once both slots are filled, every later tick that receives a message returns a record. |
| `Telemetry.Telemetry.constructor` | modules/telemetry/telemetry.py:69-81 | A new fuser has both slots empty. |
| `Telemetry.Telemetry.Run` | modules/telemetry/telemetry.py:83-127 | Overwriting the slots in place gives the slots and the result of `Step`. |
| `Command.FloorMod` | modules/command/command.py:111 | Python's float `%` with a positive divisor gives a remainder in [0, m) that differs from the dividend by a whole multiple of m. |
| `Command.NormalizeAngle` | modules/command/command.py:111 | The normalised yaw error lies in [-pi, pi) and differs from the raw error by whole turns. |
| `Command.YawErrorDeg` | modules/command/command.py:105-112 | The heading error to the target, in degrees, lies in [-180, 180). It differs from degrees(atan2(dy, dx) - yaw) by whole turns of 360 degrees. |
| `Command.Run` | modules/command/command.py:72-134 | A text is returned exactly when a command is sent. If the altitude error is over 0.5, the result is one CHANGE_ALT command: climb rate 1.0, param7 the target altitude, text `"CHANGE_ALTITUDE: 1"` above / `"CHANGE_ALTITUDE: -1"` below. Otherwise at most a yaw command is sent; an error of exactly 0.5 also leads to the yaw check. If the yaw error is over 5 degrees, the result is one relative CONDITION_YAW command: param1 = size of the error (in (5, 180]), param2 = 5, param3 = its direction ±1 (so param3 × param1 = the error), param4 = 1, text `"CHANGE YAW: "` plus the error. In both deadzones nothing is sent or returned. |
| `Command.ClimbScenario` | modules/command/command.py:80-100 | Target (10, 20, 30), altitude 29: the result is `"CHANGE_ALTITUDE: 1"` with param7 = 30. |
| `Command.TurnScenario` | modules/command/command.py:105-132 | Target (10, 20, 30), vehicle at the origin, 30.2 high, heading 0, with `atan2(20, 10)` = 1.1071487177940904: a turn to the right of between 63.43 and 63.44 degrees. |
| `Command.OnTargetScenario` | modules/command/command.py:80-134 | At the target with heading 0, and `atan2(0, 0)` = 0: nothing is sent or returned. |

## Left out

- The `create` factories and their private-key guard: they only wrap the constructors in exception handling. The constructors always succeed, so the factories are not modelled.
- The MAVLink connection is a foreign library. `recv_match` is not modelled; its result is the input of each tick.
- The type filter of `recv_match` is not modelled. The receiver, like its code (`msg is not None`), treats any received message as a heartbeat. The fuser, like its `if`/`elif` without `else`, leaves both slots alone for a message of another kind.
- `command_long_send` is not modelled; the command it would send is part of the decision's result.
- The fields of HEARTBEAT and the header fields of the other messages are not modelled: nothing reads them.
- Logging: only the HeartbeatReceiver's two transition log calls are modelled, as its `log` field. The logger objects and the other components' error logs are not modelled.
- The exception path of the fuser's `run` (modules/telemetry/telemetry.py:124-125), with its error log, is not modelled. The `try` also wraps the receive, so the path fires when the receive raises; the slots then stay as they were and `None` comes back, which the `None` input covers. It also fires when a message lacks a field, which the message datatypes cannot express. Both cases return `None`.
- Message objects are taken to be always truthy, so the test `if self.last_position and self.last_attitude` becomes "both slots are filled".
- `TelemetryData`'s fields default to `None` in the source. The model gives every field a value, because every record is built with all of them.
- The `Command` object holds the connection, the target and a logger, and `run` assigns none of them. The decision is therefore a function of the target and the record. Determinism and the unchanged target follow from that, with no lemma needed.
- Floating point: all floats are reals. IEEE rounding of `%`, `atan2` and `degrees` is not modelled. `math.atan2` and the text of a formatted float are parameters (`Host`).
- The worker loops, the queues, pausing and exit signalling, process start and shutdown in the main program (bootcamp_main.py and the `*_worker.py` files) are not modelled. They are process orchestration around cross-process objects that are not part of this model.
- The heartbeat sender and the integration tests are not part of this model.
