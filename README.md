# Gyro chassis suspension controller — Dafny model

This project models the control core of an ESP32 four-corner suspension rig. It has two parts.

The control tick in `main.c` takes the roll and pitch angles from the accelerometer and clamps
them to ±30°. It normalises them to [-1, 1] and mixes them, per axle, into four corner mixes in
[-1, 1]. Each mix becomes an absolute servo target `offset + mix * suspHalf`. Each servo then
advances towards its target by one semi-implicit (symplectic) Euler step of a unit-mass
spring-damper: the velocity is updated first, and the position moves with the new velocity.
There are two clamps after the step. The travel end-stops `offset ± suspHalf` pin the position and zero the
velocity. The hard servo bounds [0, 180] pin the position and keep the velocity. The truncated
positions are what the servos are sent.

The save handler in `web_server.cpp` overwrites only the parameters the request supplies. It
saturates `share` into [0.01, 1] and then recomputes the derived travel `suspRange` and
`suspHalf`.

All quantities are Dafny `real`s, not IEEE floats.

There are three modules, one per source concern:

- `Arduino` (`arduino.dfy`) holds Arduino's `constrain` macro and C's `(int)` conversion, which
  truncates toward zero.
- `MainLoop` (`main_loop.dfy`) holds the pure pieces of the tick:
  - `EffectiveDt`, `TiltFromAngles`, `CornerMix`, `CornerTargets` and `SpringStep`;
  - the whole tick as a function, `TickServos`;
  - runs of ticks, `RunTicks`;
  - the two classes that hold main.c's global state: `SpringServo`, whose `x` and `v` change in
    place, and `Controller`, which holds the parameters and four distinct servos.

  `Controller.Loop` updates the four servos in place. It is proved equal to `TickServos` applied
  to the old state. `Controller.Valid` is the invariant every operation keeps: the servos are
  distinct, the derived range is never stale, `share` lies in [0.01, 1] and every servo lies in
  [0, 180].
- `WebServer` (`web_server.dfy`) holds `ApplySave`, the save as a function on a parameter record,
  and `HandleSave`, the method that updates a `Controller` in place and is proved equal to
  `ApplySave`.

Inputs that come from outside the core are parameters:
- the step time `dt`, in seconds;
- the two angles `atan2(...)` produces, in degrees, as arbitrary reals;
- the request's arguments, as a map from argument name to the value `toFloat` returned.

Behaviour of the code worth knowing:
- The dt guard only replaces `dt <= 0` by 0.001 and `dt > 0.05` by 0.05. A step in (0, 0.001)
  passes unchanged. The code only measures whole milliseconds, so that case cannot occur
  (`DtFromMillisInRange`).
- The [0, 180] safety clamp does not zero the velocity; only the travel end-stops do.
- Stiffness, damping, balance and offset values are stored exactly as sent, negative ones
  included. Only `share` is saturated, and it is saturated rather than rejected.
- A save that moves `offset` can leave a servo outside the new travel. When the new travel meets
  [0, 180], the next tick clamps the servo into the travel. When it does not (an offset of 300,
  say), the servo stays at the [0, 180] bound, outside the travel. It stays within [0, 180]
  throughout.
- The body of `updateSuspensionRange` is not part of this model. `suspRange = totalRange * share`
  comes from the initialiser at main.c:40, and `suspHalf = suspRange / 2` from the one at
  main.c:43.

## Model

| member | source | states |
|---|---|---|
| Arduino.Constrain | main.c:155-156 | `constrain(x, lo, hi)` returns lo below the interval and hi above it, and x itself inside; for lo <= hi the result lies in [lo, hi] |
| Arduino.TruncToInt | main.c:194-197 | `(int)x` truncates toward zero: for x >= 0 the result n satisfies n <= x < n + 1, for x <= 0 it satisfies n - 1 < x <= n |
| MainLoop.EffectiveDt | main.c:128-132 | the guarded step lies in (0, 0.05]; dt <= 0 becomes exactly 0.001, dt > 0.05 becomes exactly 0.05, and any other dt is kept |
| MainLoop.DtFromMillisInRange | main.c:127-132 | when dt is a whole number of milliseconds divided by 1000, the guarded step lies in [0.001, 0.05] |
| MainLoop.TiltFromAngles | main.c:149-161 | for every raw angle, roll and pitch lie in [-30, 30] and the normalised values in [-1, 1]; the normalised values are exactly roll/30 and pitch/30 of the clamped angles (the second clamp never fires); angles inside ±30° pass unchanged, and angles beyond it saturate to ±1 |
| MainLoop.CornerMix | main.c:165-176 | all four corner mixes lie in [-1, 1] for every tilt and every balance factor |
| MainLoop.PureRollMix | main.c:173-176 | full roll with no pitch gives FL=-1, FR=+1, RL=-1, RR=+1 (and the mirror image for the opposite roll), whatever the balances |
| MainLoop.PurePitchMix | main.c:165-176 | with no roll, both corners of an axle get the same mix, and the rear axle's mix is the negation of the saturated rear pitch |
| MainLoop.MirrorRoll | main.c:169-176 | negating the roll swaps the left and right corners' mixes |
| MainLoop.Target | main.c:180-183 | a mix in [-1, 1] with suspHalf >= 0 gives a target in [offset - suspHalf, offset + suspHalf]; mixes -1, 0 and +1 give the bottom of the travel, the offset and the top |
| MainLoop.CornerTargets | main.c:180-183 | when suspHalf >= 0, four mixes in [-1, 1] give four targets inside the travel |
| MainLoop.TickTargets | main.c:155-183 | for every pair of raw angles, every target lies in [offset - suspHalf, offset + suspHalf] when suspHalf >= 0 |
| MainLoop.LevelTargets | main.c:155-183 | a level reading (both angles 0) targets the offset at all four corners |
| MainLoop.PureRollTargets | main.c:155-183 | a roll of at least 30° with no pitch targets offset - suspHalf on the left and offset + suspHalf on the right |
| MainLoop.EndStops | main.c:85-89 | a position inside [offset - suspHalf, offset + suspHalf] is kept with its velocity; one below or above the travel is pinned to that end-stop with velocity 0, so the result lies inside the travel |
| MainLoop.SpringStep | main.c:73-95 | after one step the position lies in [0, 180]; an integrated position outside [offset - suspHalf, offset + suspHalf] zeroes the velocity and is pinned to exactly that bound clamped into [0, 180] (so an end-stop at -12.5 gives exactly 0); inside the travel the velocity is kept and only the [0, 180] clamp applies; whenever the travel overlaps [0, 180] the position ends inside the overlap [max(offset - suspHalf, 0), min(offset + suspHalf, 180)], so inside the whole travel when it fits |
| MainLoop.SpringStepAtRest | main.c:74-94 | a servo at its target with zero velocity stays exactly there when the target lies inside the travel and inside [0, 180] |
| MainLoop.TickServos | main.c:185-190 | after a tick all four positions lie in [0, 180]; when suspHalf >= 0 and the travel overlaps [0, 180] they lie in the overlap [max(offset - suspHalf, 0), min(offset + suspHalf, 180)], and inside the travel when it fits |
| MainLoop.FrontIgnoresRearAxle | main.c:187-188 | the front corners' new states do not depend on kRear, cRear or rearBalance (they step with kFront/cFront) |
| MainLoop.RearIgnoresFrontAxle | main.c:189-190 | the rear corners' new states do not depend on kFront, cFront or frontBalance (they step with kRear/cRear) |
| MainLoop.LevelTickKeepsRest | main.c:118-119 | a level rig whose servos start at the offset with zero velocity is unchanged by one tick |
| MainLoop.LevelRigStaysAtRest | main.c:118-119 | a level rig starting at rest at the offset stays there for any number of ticks, whatever the step times |
| MainLoop.RunTicks | main.c:124-198 | `loop()` called once per tick input: after at least one tick, and from any start in [0, 180], every position lies in [0, 180] |
| MainLoop.RunTicksStayInTravel | main.c:85-94 | when the travel fits in [0, 180], a rig that starts inside its travel stays inside it for any sequence of ticks: an end-stop is never overshot |
| MainLoop.ServoCommands | main.c:194-197 | the value written to each servo is the truncation of its position, and it lies in [0, 180] whenever the positions do |
| MainLoop.SpringServo.constructor | main.c:18-25 | `struct SpringServo` holds a position and a velocity; a new one holds exactly the given pair |
| MainLoop.Controller.constructor | main.c:33-67 | the parameters start at main.c's initial values (suspRange 45, suspHalf 22.5), and all four servos start at offset 90 with velocity 0 |
| MainLoop.Controller.UpdateSuspensionRange | main.c:40-43 | recomputes suspRange = totalRange * share and suspHalf = suspRange / 2 and changes no other parameter |
| MainLoop.Controller.UpdateSpringServo | main.c:73-95 | the servo's new position and velocity are SpringStep of its old ones, with the current offset and suspHalf |
| MainLoop.Controller.Loop | main.c:124-198 | the four servos' new states are TickServos of their old states under the current parameters; the returned commands are their truncated positions; the invariant (every servo in [0, 180], range derived, share in range) is kept |
| WebServer.ApplySave | web_server.cpp:143-153 | each supplied field is stored exactly as given and each absent one keeps its value; a supplied share is saturated into [0.01, 1]; the range is recomputed from the resulting share |
| WebServer.SaveKeepsShareInRange | web_server.cpp:145 | starting from a share in [0.01, 1], a save leaves it in [0.01, 1], so suspHalf >= 0.005 * totalRange > 0 and the travel is never empty |
| WebServer.SaveSaturatesShare | web_server.cpp:145 | a share below 0.01 is stored as 0.01, one above 1 as 1, and one in between exactly |
| WebServer.EmptySaveChangesNothing | web_server.cpp:143-153 | a save with no arguments leaves consistent parameters unchanged |
| WebServer.SavesCompose | web_server.cpp:143-153 | two saves in a row equal one save of the merged arguments, the later values winning |
| WebServer.SaveIdempotent | web_server.cpp:143-153 | repeating a save changes nothing further |
| WebServer.ApplySaves | web_server.cpp:143-153 | over any number of saves in a row, a share that starts in [0.01, 1] stays there, and after at least one save the range is derived from the share |
| WebServer.SavesMerge | web_server.cpp:143-153 | on consistent parameters, a run of saves equals one save of all their arguments merged, the last value sent for each field winning |
| WebServer.HandleSave | web_server.cpp:143-156 | the controller's parameters become ApplySave of the old ones; every servo keeps its position and velocity; the controller invariant is kept, so the next tick uses the new suspHalf |

## Left out

- MainLoop.EffectiveDt: for an arbitrary real dt it promises only (0, 0.05]. The code lets a
  step in (0, 0.001) through unchanged. The [0.001, 0.05] bound is `DtFromMillisInRange`, for
  the millisecond-resolution step the loop actually measures.
- MainLoop.SpringStepAtRest: it also requires the target to lie in [0, 180]. Otherwise the
  safety clamp moves a resting servo whose travel extends beyond the servo range.
- Reading the MPU6050 over I2C and scaling raw counts to g (main.c:137-144) are hardware I/O. The
  angles are inputs instead.
- The numerical content of `atan2` and `sqrt` (main.c:149-151) is floating-point library code.
  The model takes the resulting angles in degrees as arbitrary reals.
- `millis()`, the `lastUpdate` bookkeeping and `delay(5)` (main.c:121, main.c:127, main.c:133,
  main.c:210) are scheduling. `dt` is an input instead.
- Servo attach and write transport (main.c:111-114, main.c:194-197) are hardware output. Only the
  integer value written is modelled.
- IEEE single-precision rounding, NaN and infinities are not modelled. All arithmetic is exact
  over the reals. In the code, `toFloat` is built on `atof`, which accepts "nan". `constrain` lets
  NaN through because both of its comparisons are false (web_server.cpp:145). So a saved NaN share
  makes `suspHalf` and then every position NaN, and NaN also gets past the [0, 180] clamp at
  main.c:93-94.
- WebServer.SaveKeepsShareInRange: holds only for non-NaN input; a NaN share is not saturated.
- MainLoop.SpringStep: its [0, 180] bound holds only for non-NaN values; a NaN position gets
  past the safety clamp.
- Parsing with `toFloat` (web_server.cpp:144-151) is not modelled. The arguments arrive already
  converted.
- `saveConfig`, `loadConfig` and the HTTP reply (web_server.cpp:154-155, config.h:19-20) are
  persistence and network I/O whose bodies are not part of this model.
- WiFi setup, routing, the HTML page, `buildPage` and `handleImu` (web_server.cpp:1-141,
  web_server.cpp:158-193) are UI and serialisation. `telemetry.h` declares only variables.
- Concurrency between the web handler and the loop is not modelled. A save is an atomic step
  between two ticks.
- Convergence and monotonic settling of the damped response are not modelled. They are
  properties of the real-valued dynamics, and the code does not promise them.
