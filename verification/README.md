# Laser tower controller — Dafny model

A model of `control_laser_tower/controller.py`, the controller for a pan/tilt
laser tower built from two servos (base and top) and a laser LED on a
Raspberry Pi. The hardware is replaced by plain state. A `Tower` record holds
three things: the last normalised value written to each servo, whether the
LED is lit, and which devices have been released.

- `Configuration` holds the process-wide pin configuration: the built-in
  defaults (base 23, top 24, laser 17), the global copy of them, and the
  overlay that `set_config` applies. Any pin argument left as `None` keeps its
  current value.
- `ServoMap` holds the two angle-to-servo-value maps and their inverses. The
  base uses `a/180 - 1` over [0, 360]; the top uses `a/90 - 1` over [0, 180].
- `Controller` holds the tower itself: constructor pin resolution, the two
  angle setters (which raise `ValueError` outside their range), `laser_on` /
  `laser_off`, and the best-effort `close`. Which devices fail to close is an
  input. `Apply` / `Run` describe a caller that issues calls one after the
  other and catches each `ValueError`.
- `Session` is the module-level view. It tracks the global configuration and
  the towers built so far, so a property like "later `set_config` calls do not
  affect an existing tower" can be stated.

Angles and servo values are Dafny `real`s, i.e. exact rationals. The global
mutable configuration becomes an explicit value threaded through `Session.Step`.

## Model

| member | source | states |
|---|---|---|
| Configuration.InitialConfigIsDefault | control_laser_tower/controller.py:19-26 | the defaults are base 23, top 24, laser 17, and the global configuration starts equal to them |
| Configuration.Overlay | control_laser_tower/controller.py:36-41 | each pin whose argument is given takes that value; each pin whose argument is `None` keeps its current value |
| Configuration.OverlayNothingIsIdentity | control_laser_tower/controller.py:29-41 | `set_config()` with no arguments leaves the configuration unchanged |
| Configuration.OverlayUnchangedIff | control_laser_tower/controller.py:36-41 | a call leaves the configuration unchanged exactly when every pin it names already holds the requested value |
| Configuration.OverlayIdempotent | control_laser_tower/controller.py:36-41 | repeating a `set_config` call has no further effect |
| Configuration.OverlayCompose | control_laser_tower/controller.py:36-41 | two calls in a row act as one call with merged arguments, the later call winning on shared pins |
| Configuration.OverlayCompleteIgnoresBase | control_laser_tower/controller.py:64-70 | when all three pins are passed explicitly, the global configuration has no influence on the result |
| ServoMap.BaseServoValue | control_laser_tower/controller.py:88-90 | the base value lies in [-1, 1] exactly for angles in [0, 360]; 0 maps to -1, 180 to 0 and 360 to 1, and only those angles |
| ServoMap.TopServoValue | control_laser_tower/controller.py:98-100 | the top value lies in [-1, 1] exactly for angles in [0, 180]; 0 maps to -1, 90 to 0 and 180 to 1, and only those angles |
| ServoMap.BaseAngleOf | control_laser_tower/controller.py:83-84 | the inverse base map sends [-1, 1] into [0, 360] and no other value lands there; the angle it gives is one the base map sends back to the value |
| ServoMap.TopAngleOf | control_laser_tower/controller.py:96 | the inverse top map sends [-1, 1] into [0, 180] and no other value lands there; the angle it gives is one the top map sends back to the value |
| ServoMap.BaseAngleOfOnto | control_laser_tower/controller.py:83-84 | every angle in [0, 360] is the inverse of some value in [-1, 1], so the inverse base map is onto [0, 360] |
| ServoMap.TopAngleOfOnto | control_laser_tower/controller.py:96 | every angle in [0, 180] is the inverse of some value in [-1, 1], so the inverse top map is onto [0, 180] |
| ServoMap.BaseRoundTrip | control_laser_tower/controller.py:90 | the angle can be recovered from the written base value |
| ServoMap.BaseRoundTripValue | control_laser_tower/controller.py:90 | every servo value is written by the base angle `BaseAngleOf` names and by no other angle |
| ServoMap.TopRoundTrip | control_laser_tower/controller.py:100 | the angle can be recovered from the written top value |
| ServoMap.TopRoundTripValue | control_laser_tower/controller.py:100 | every servo value is written by the top angle `TopAngleOf` names and by no other angle |
| ServoMap.BaseStrictlyIncreasing | control_laser_tower/controller.py:90 | the base map is strictly increasing and one-to-one |
| ServoMap.TopStrictlyIncreasing | control_laser_tower/controller.py:100 | the top map is strictly increasing and one-to-one |
| ServoMap.BaseIsHalfSpeedTop | control_laser_tower/controller.py:90-100 | a base angle drives its servo to the value that half that angle gives the top servo |
| Controller.Construct | control_laser_tower/controller.py:63-78 | an explicit pin wins, otherwise the pin comes from the global configuration at construction; the new tower has servo values in range, the laser off and every device open |
| Controller.SetBaseAngle | control_laser_tower/controller.py:80-91 | fails with the base `ValueError` exactly when the angle is below 0 or above 360; otherwise the new base value is in [-1, 1], encodes the angle, and nothing else changes |
| Controller.SetTopAngle | control_laser_tower/controller.py:93-101 | fails with the top `ValueError` exactly when the angle is below 0 or above 180; otherwise the new top value is in [-1, 1], encodes the angle, and nothing else changes |
| Controller.LaserOn | control_laser_tower/controller.py:103-104 | the laser is on afterwards and nothing else changes |
| Controller.LaserOff | control_laser_tower/controller.py:106-107 | the laser is off afterwards and nothing else changes |
| Controller.AllDevicesListsEachOnce | control_laser_tower/controller.py:111 | `close` visits every device exactly once |
| Controller.CloseEach | control_laser_tower/controller.py:111-115 | after trying each listed device in turn, exactly the listed devices that did not fail are newly released; nothing else changes |
| Controller.Close | control_laser_tower/controller.py:109-115 | close is attempted on base, top and laser in that order whatever `Exception` a device's close raises; afterwards a device is still open exactly when it was open and its close raised; no such error reaches the caller |
| Controller.Apply | control_laser_tower/controller.py:80-115 | a call raises exactly when it is an angle setter given an out-of-range angle; a raising call leaves the tower unchanged; no call changes the pins or takes a servo value out of [-1, 1] |
| Controller.RunKeepsPins | control_laser_tower/controller.py:76-78 | no sequence of calls on a tower changes the pins it was built on |
| Controller.RunKeepsServoRange | control_laser_tower/controller.py:80-101 | servo values stay in [-1, 1] under any sequence of calls |
| Controller.RejectedAngleChangesNothing | control_laser_tower/controller.py:88-89 | a rejected base angle has no effect on the rest of the run |
| Controller.AngleBoundaries | control_laser_tower/controller.py:88-100 | each domain's endpoints are accepted and map to -1 and 1; -0.001, 360.001 and 180.001 are rejected |
| Controller.LaserSwitching | control_laser_tower/controller.py:103-107 | `laser_on` and `laser_off` are idempotent, and the last switch wins |
| Controller.CloseTwice | control_laser_tower/controller.py:109-115 | a clean second close releases every device; a clean close after a clean close changes nothing |
| Session.Step | control_laser_tower/controller.py:29-70 | `set_config` changes only the configuration; a new tower snapshots the current configuration; no step changes an existing tower's pins |
| Session.PinsFixedAtConstruction | control_laser_tower/controller.py:64-70 | no later operation of any kind changes the pins of an existing tower |
| Session.ConfigOnlyChangedBySetConfig | control_laser_tower/controller.py:29-41 | without `set_config` calls the global configuration stays the same |
| Session.OverrideScenario | control_laser_tower/controller.py:64-70 | with `set_config(base_pin=5)`, a tower built earlier keeps pin 23, a later tower with no base argument gets pin 5, and a later tower given base pin 7 gets 7 |
| Session.UsageExample | control_laser_tower/controller.py:47-53 | the class's usage example ends with a tower on pins 5, 6 and 13, base value -0.5 (90 degrees), top value -0.5 (45 degrees) and the laser on |

## Left out

- Importing `gpiozero` lazily and wrapping its absence in `ImportError` (controller.py:57-61) is left out. The `Servo` and `LED` objects are hardware-library objects, so the model keeps their state as plain fields.
- `servo_pulse_settings` and its default timings (controller.py:72-74) are left out. They are passed straight to the hardware library and no logic depends on them.
- The starting servo value (0, centred) and LED state (off) are the hardware library's defaults, not something controller.py sets. `Controller.Construct` assumes them.
- Angles are exact rationals. IEEE-754 rounding in `float(servo_value)` is not modelled. Neither is a NaN angle, which passes both range checks because every comparison with NaN is false.
- Python's `int()` coercion of pin arguments (controller.py:37-41, 66-70) is not modelled; pins are already `int`. The model therefore leaves out three effects. A non-numeric string raises `ValueError` (`int("abc")`), and an object that is neither a number nor a string, such as a list, raises `TypeError`. A float is silently truncated (`int(5.9)` is 5). And `set_config` assigns pin by pin, so `set_config(base_pin=5, top_pin="x")` changes the base pin and then raises, leaving a partial update.
- Some pin values are not checked. Negative, zero or duplicate pins are accepted here, just as controller.py accepts them. Pins are meant to be positive hardware addresses, but the code does not enforce that.
- Setters and laser switches have no closed-state check, because the code has none. After `close`, the model still updates the values. What the hardware library does with a write to a released device is not part of this model.
- `Session.Step` ignores a `Drive` that names no existing tower. Python has no way to express such a call, so ignoring it costs nothing.
- Concurrency and the thread-safety of the global configuration are not modelled. The configuration is an explicit value passed from one step to the next.
- `control_laser_tower/__init__.py` is left out. It only re-exports names and sets a version string.
- Controller.Close: `failing` stands only for devices whose `close()` raises an `Exception` subclass, which controller.py:114 swallows. A `BaseException` that is not an `Exception` (`KeyboardInterrupt`, `SystemExit`) raised by a device's close is not caught: it ends `close` early, skips the devices after it and reaches the caller. The model does not represent such interrupts.
