/** The module-level view: the global configuration together with the
    towers built so far. `set_config` changes only the configuration, a
    new tower snapshots it, and a tower once built never looks at it
    again. */
module Session {
  import opened Wrappers
  import opened Configuration
  import opened Controller

  datatype World = World(config: PinConfig, towers: seq<Tower>)

  /** The state at import time: the global configuration is a copy of the
      defaults and no tower exists. */
  const InitialWorld: World := World(InitialGlobalConfig, [])

  datatype Op =
    | SetConfigOp(overrides: PinOverrides)
    | NewTower(overrides: PinOverrides)
    | Drive(index: nat, command: Command)

  /** One step of a program using the package. A `Drive` naming no tower
      has nothing to act on and changes nothing. */
  function Step(w: World, op: Op): (r: World)
    ensures op.SetConfigOp? ==> r == World(Overlay(w.config, op.overrides), w.towers)
    ensures op.NewTower? ==> r.config == w.config && r.towers == w.towers + [Construct(w.config, op.overrides)]
    ensures op.Drive? ==> r.config == w.config && |r.towers| == |w.towers|
    ensures forall i :: 0 <= i < |w.towers| ==> i < |r.towers| && r.towers[i].pins == w.towers[i].pins
  {
    match op
    case SetConfigOp(o) => w.(config := Overlay(w.config, o))
    case NewTower(o) => w.(towers := w.towers + [Construct(w.config, o)])
    case Drive(i, c) =>
      if i < |w.towers| then w.(towers := w.towers[i := Apply(w.towers[i], c).tower]) else w
  }

  function Run(w: World, ops: seq<Op>): World
    decreases |ops|
  {
    if ops == [] then w else Run(Step(w, ops[0]), ops[1..])
  }

  /** Later `set_config` calls, later towers and every call on any tower
      leave the pins of an existing tower as they were when it was built. */
  lemma {:induction false} PinsFixedAtConstruction(w: World, ops: seq<Op>)
    ensures |Run(w, ops).towers| >= |w.towers|
    ensures forall i :: 0 <= i < |w.towers| ==> Run(w, ops).towers[i].pins == w.towers[i].pins
    decreases |ops|
  {
    if ops != [] {
      PinsFixedAtConstruction(Step(w, ops[0]), ops[1..]);
    }
  }

  /** Only `set_config` changes the global configuration: a run without
      it leaves the configuration as it was. */
  lemma {:induction false} ConfigOnlyChangedBySetConfig(w: World, ops: seq<Op>)
    requires forall k :: 0 <= k < |ops| ==> !ops[k].SetConfigOp?
    ensures Run(w, ops).config == w.config
    decreases |ops|
  {
    if ops != [] {
      ConfigOnlyChangedBySetConfig(Step(w, ops[0]), ops[1..]);
    }
  }

  /** A tower built after `set_config(base_pin=5)` with no explicit base
      pin drives its base servo on GPIO 5; one built before keeps GPIO 23;
      one given an explicit pin uses it whatever the configuration says. */
  lemma OverrideScenario()
    ensures var w := Run(InitialWorld, ScenarioOps);
      && |w.towers| == 3
      && w.towers[0].pins == PinConfig(23, 24, 17)
      && w.towers[1].pins == PinConfig(5, 24, 17)
      && w.towers[2].pins == PinConfig(7, 24, 17)
  {
    var ops := ScenarioOps;
    var w1 := Step(InitialWorld, ops[0]);
    var w2 := Step(w1, ops[1]);
    var w3 := Step(w2, ops[2]);
    var w4 := Step(w3, ops[3]);
    assert Run(w4, ops[4..]) == w4;
    assert Run(w3, ops[3..]) == w4;
    assert Run(w2, ops[2..]) == w4;
    assert Run(w1, ops[1..]) == w4;
  }

  const ScenarioOps: seq<Op> := [
    NewTower(NoOverrides),
    SetConfigOp(PinOverrides(Some(5), None, None)),
    NewTower(NoOverrides),
    NewTower(PinOverrides(Some(7), None, None))]

  /** The usage example of the `LaserTower` class: `set_config(base_pin=5,
      top_pin=6, laser_pin=13)`, then a tower built with no arguments is
      turned to base 90 and top 45 and its laser switched on. */
  lemma UsageExample()
    ensures var w := Run(InitialWorld, UsageOps);
      && |w.towers| == 1
      && w.towers[0].pins == PinConfig(5, 6, 13)
      && w.towers[0].baseValue == -0.5
      && w.towers[0].topValue == -0.5
      && w.towers[0].laserOn
  {
    var ops := UsageOps;
    var w1 := Step(InitialWorld, ops[0]);
    var w2 := Step(w1, ops[1]);
    var w3 := Step(w2, ops[2]);
    var w4 := Step(w3, ops[3]);
    var w5 := Step(w4, ops[4]);
    assert Run(w5, ops[5..]) == w5;
    assert Run(w4, ops[4..]) == w5;
    assert Run(w3, ops[3..]) == w5;
    assert Run(w2, ops[2..]) == w5;
    assert Run(w1, ops[1..]) == w5;
  }

  const UsageOps: seq<Op> := [
    SetConfigOp(PinOverrides(Some(5), Some(6), Some(13))),
    NewTower(NoOverrides),
    Drive(0, SetBase(90.0)),
    Drive(0, SetTop(45.0)),
    Drive(0, TurnLaserOn)]
}
