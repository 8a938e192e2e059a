/** The `LaserTower` controller lifted off the hardware: two servos and a
    laser LED held as plain state, the constructor's pin resolution, the
    two angle setters, the laser switches and the best-effort `close`. */
module Controller {
  import opened Wrappers
  import opened Configuration
  import opened ServoMap

  /** The three devices a tower owns, in the order `close` visits them. */
  datatype Device = BaseServo | TopServo | LaserLed

  const AllDevices: seq<Device> := [BaseServo, TopServo, LaserLed]

  /** `close` visits every device the tower owns, each exactly once. */
  lemma AllDevicesListsEachOnce(d: Device)
    ensures d in AllDevices
    ensures multiset(AllDevices)[d] == 1
  {
  }

  /** Python's `ValueError`, with its message. */
  datatype TowerError = ValueError(message: string)

  const BaseAngleMessage: string := "base angle must be between 0 and 360 degrees"
  const TopAngleMessage: string := "top angle must be between 0 and 180 degrees"

  /** A tower: the pins it was built on, the last value written to each
      servo, whether the laser is lit, and the devices already released. */
  datatype Tower = Tower(
    pins: PinConfig,
    baseValue: real,
    topValue: real,
    laserOn: bool,
    released: set<Device>)

  predicate IsOpen(t: Tower, d: Device) {
    d !in t.released
  }

  /** Both servos hold a value the hardware accepts. */
  predicate ServoValuesInRange(t: Tower) {
    ServoValueInRange(t.baseValue) && ServoValueInRange(t.topValue)
  }

  /** `LaserTower(base_pin, top_pin, laser_pin)` against the global
      configuration `global` as it is at construction time. Both servos
      start centred and the LED off, as the hardware library sets them up. */
  function Construct(global: PinConfig, o: PinOverrides): (t: Tower)
    ensures o.base.Some? ==> t.pins.basePin == o.base.value
    ensures o.top.Some? ==> t.pins.topPin == o.top.value
    ensures o.laser.Some? ==> t.pins.laserPin == o.laser.value
    ensures o.base.None? ==> t.pins.basePin == global.basePin
    ensures o.top.None? ==> t.pins.topPin == global.topPin
    ensures o.laser.None? ==> t.pins.laserPin == global.laserPin
    ensures ServoValuesInRange(t) && !t.laserOn
    ensures forall d :: IsOpen(t, d)
  {
    Tower(Overlay(global, o), 0.0, 0.0, false, {})
  }

  /** `set_base_angle(angle)`. */
  function SetBaseAngle(t: Tower, angle: real): (r: Result<Tower, TowerError>)
    ensures r.Failure? <==> angle < 0.0 || angle > 360.0
    ensures r.Failure? ==> r.error == ValueError(BaseAngleMessage)
    ensures r.Success? ==> ServoValueInRange(r.value.baseValue)
    ensures r.Success? ==> BaseAngleOf(r.value.baseValue) == angle
    ensures r.Success? ==> r.value.(baseValue := t.baseValue) == t
  {
    if angle < 0.0 || angle > 360.0 then
      Failure(ValueError(BaseAngleMessage))
    else
      Success(t.(baseValue := BaseServoValue(angle)))
  }

  /** `set_top_angle(angle)`. */
  function SetTopAngle(t: Tower, angle: real): (r: Result<Tower, TowerError>)
    ensures r.Failure? <==> angle < 0.0 || angle > 180.0
    ensures r.Failure? ==> r.error == ValueError(TopAngleMessage)
    ensures r.Success? ==> ServoValueInRange(r.value.topValue)
    ensures r.Success? ==> TopAngleOf(r.value.topValue) == angle
    ensures r.Success? ==> r.value.(topValue := t.topValue) == t
  {
    if angle < 0.0 || angle > 180.0 then
      Failure(ValueError(TopAngleMessage))
    else
      Success(t.(topValue := TopServoValue(angle)))
  }

  /** `laser_on()`. */
  function LaserOn(t: Tower): (r: Tower)
    ensures r.laserOn
    ensures r.(laserOn := t.laserOn) == t
  {
    t.(laserOn := true)
  }

  /** `laser_off()`. */
  function LaserOff(t: Tower): (r: Tower)
    ensures !r.laserOn
    ensures r.(laserOn := t.laserOn) == t
  {
    t.(laserOn := false)
  }

  /** The devices among `devs` whose close attempt succeeds. */
  function ClosedBy(devs: seq<Device>, failing: set<Device>): set<Device>
  {
    set d | d in devs && d !in failing
  }

  /** Reference definition of `close`: visit `devs` in order, try to close
      each one, and go on to the next whatever happened. A device whose
      close raises (it is in `failing`) stays as it was. */
  function CloseEach(t: Tower, devs: seq<Device>, failing: set<Device>): (r: Tower)
    ensures r.released == t.released + ClosedBy(devs, failing)
    ensures r.(released := t.released) == t
    decreases |devs|
  {
    if devs == [] then t
    else
      var d := devs[0];
      var t' := if d in failing then t else t.(released := t.released + {d});
      assert devs == [d] + devs[1..];
      CloseEach(t', devs[1..], failing)
  }

  /** `close()`: the loop of the source. `attempts` records the devices
      whose `close` was called, in order. A device's close that raises an
      `Exception` (it is in `failing`) is swallowed: it neither stops the
      loop nor reaches the caller. */
  method Close(t: Tower, failing: set<Device>) returns (r: Tower, attempts: seq<Device>)
    ensures attempts == [BaseServo, TopServo, LaserLed]
    ensures r == CloseEach(t, AllDevices, failing)
    ensures forall d :: IsOpen(r, d) <==> IsOpen(t, d) && d in failing
  {
    r := t;
    attempts := [];
    var i := 0;
    while i < |AllDevices|
      invariant 0 <= i <= |AllDevices|
      invariant attempts == AllDevices[..i]
      invariant r == t.(released := t.released + ClosedBy(AllDevices[..i], failing))
    {
      var dev := AllDevices[i];
      assert AllDevices[..i + 1] == AllDevices[..i] + [dev];
      attempts := attempts + [dev];
      if dev !in failing {
        r := r.(released := r.released + {dev});
      }
      i := i + 1;
    }
    assert AllDevices[..i] == AllDevices;
    forall d: Device ensures d in AllDevices {
      AllDevicesListsEachOnce(d);
    }
  }

  /** One call on a tower as a caller sees it: the tower afterwards and the
      error the call raised, if any. */
  datatype Command =
    | SetBase(angle: real)
    | SetTop(angle: real)
    | TurnLaserOn
    | TurnLaserOff
    | Shutdown(failing: set<Device>)

  datatype Outcome = Outcome(tower: Tower, raised: Option<TowerError>)

  function Apply(t: Tower, c: Command): (r: Outcome)
    ensures r.raised.Some? <==>
      (c.SetBase? && !BaseAngleInRange(c.angle)) || (c.SetTop? && !TopAngleInRange(c.angle))
    ensures r.raised.Some? ==> r.tower == t
    ensures r.tower.pins == t.pins
    ensures ServoValuesInRange(t) ==> ServoValuesInRange(r.tower)
  {
    match c
    case SetBase(a) =>
      (match SetBaseAngle(t, a)
       case Success(t') => Outcome(t', None)
       case Failure(e) => Outcome(t, Some(e)))
    case SetTop(a) =>
      (match SetTopAngle(t, a)
       case Success(t') => Outcome(t', None)
       case Failure(e) => Outcome(t, Some(e)))
    case TurnLaserOn => Outcome(LaserOn(t), None)
    case TurnLaserOff => Outcome(LaserOff(t), None)
    case Shutdown(failing) => Outcome(CloseEach(t, AllDevices, failing), None)
  }

  /** The tower after a caller issues `cmds` in turn, catching every
      `ValueError` and carrying on. */
  function Run(t: Tower, cmds: seq<Command>): Tower
    decreases |cmds|
  {
    if cmds == [] then t else Run(Apply(t, cmds[0]).tower, cmds[1..])
  }

  /** No call ever changes the pins a tower was built on. */
  lemma {:induction false} RunKeepsPins(t: Tower, cmds: seq<Command>)
    ensures Run(t, cmds).pins == t.pins
    decreases |cmds|
  {
    if cmds != [] {
      RunKeepsPins(Apply(t, cmds[0]).tower, cmds[1..]);
    }
  }

  /** Once both servos hold accepted values, they keep doing so whatever
      the caller does. */
  lemma {:induction false} RunKeepsServoRange(t: Tower, cmds: seq<Command>)
    requires ServoValuesInRange(t)
    ensures ServoValuesInRange(Run(t, cmds))
    decreases |cmds|
  {
    if cmds != [] {
      RunKeepsServoRange(Apply(t, cmds[0]).tower, cmds[1..]);
    }
  }

  /** A rejected angle leaves the tower exactly as it was. */
  lemma RejectedAngleChangesNothing(t: Tower, cmds: seq<Command>, a: real)
    requires !BaseAngleInRange(a)
    ensures Run(t, [SetBase(a)] + cmds) == Run(t, cmds)
  {
  }

  /** The boundary angles: the ends of each domain are accepted and map to
      -1 and 1; just past either end is rejected. */
  lemma AngleBoundaries(t: Tower)
    ensures SetBaseAngle(t, 0.0) == Success(t.(baseValue := -1.0))
    ensures SetBaseAngle(t, 360.0) == Success(t.(baseValue := 1.0))
    ensures SetBaseAngle(t, -0.001).Failure? && SetBaseAngle(t, 360.001).Failure?
    ensures SetTopAngle(t, 0.0) == Success(t.(topValue := -1.0))
    ensures SetTopAngle(t, 180.0) == Success(t.(topValue := 1.0))
    ensures SetTopAngle(t, -0.001).Failure? && SetTopAngle(t, 180.001).Failure?
  {
  }

  /** Switching the laser is idempotent and the last switch wins. */
  lemma LaserSwitching(t: Tower)
    ensures LaserOn(LaserOn(t)) == LaserOn(t)
    ensures LaserOff(LaserOff(t)) == LaserOff(t)
    ensures LaserOff(LaserOn(t)) == LaserOff(t)
    ensures LaserOn(LaserOff(t)) == LaserOn(t)
  {
  }

  /** Closing twice with no failure the second time releases everything,
      and a second clean close after a clean close changes nothing. */
  lemma CloseTwice(t: Tower, failing: set<Device>)
    ensures CloseEach(CloseEach(t, AllDevices, failing), AllDevices, {}).released
      == t.released + {BaseServo, TopServo, LaserLed}
    ensures CloseEach(CloseEach(t, AllDevices, {}), AllDevices, {}) == CloseEach(t, AllDevices, {})
  {
  }
}
