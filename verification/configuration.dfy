/** The process-wide pin configuration of the laser tower: the built-in
    defaults, the global copy that `set_config` changes, and the
    "explicit argument wins, `None` keeps the current value" overlay that
    both `set_config` and the tower constructor apply. */
module Configuration {
  import opened Wrappers

  /** GPIO pin numbers of the base servo, the top servo and the laser LED. */
  datatype PinConfig = PinConfig(basePin: int, topPin: int, laserPin: int)

  /** The three optional pin arguments shared by `set_config` and the
      tower constructor. */
  datatype PinOverrides = PinOverrides(base: Option<int>, top: Option<int>, laser: Option<int>)

  /** The built-in defaults: base servo on GPIO 23, top servo on 24, laser on 17. */
  const DefaultConfig: PinConfig := PinConfig(23, 24, 17)

  /** The global configuration before any `set_config` call: a copy of the defaults. */
  const InitialGlobalConfig: PinConfig := DefaultConfig

  /** A call that passes no pin at all. */
  const NoOverrides: PinOverrides := PinOverrides(None, None, None)

  /** The overrides that name a value for every pin. */
  predicate Complete(o: PinOverrides) {
    o.base.Some? && o.top.Some? && o.laser.Some?
  }

  /** Applies the overrides to `cfg`: a pin whose argument is given takes
      that value, every other pin keeps its current one. This is what
      `set_config` does to the global configuration, and what the tower
      constructor does to its private copy of it. */
  function Overlay(cfg: PinConfig, o: PinOverrides): (r: PinConfig)
    ensures o.base.Some? ==> r.basePin == o.base.value
    ensures o.top.Some? ==> r.topPin == o.top.value
    ensures o.laser.Some? ==> r.laserPin == o.laser.value
    ensures o.base.None? ==> r.basePin == cfg.basePin
    ensures o.top.None? ==> r.topPin == cfg.topPin
    ensures o.laser.None? ==> r.laserPin == cfg.laserPin
  {
    PinConfig(
      if o.base.Some? then o.base.value else cfg.basePin,
      if o.top.Some? then o.top.value else cfg.topPin,
      if o.laser.Some? then o.laser.value else cfg.laserPin)
  }

  /** Two overrides issued one after the other, merged into one: where
      both name a pin, the later one wins. */
  function Then(first: PinOverrides, second: PinOverrides): PinOverrides
  {
    PinOverrides(
      if second.base.Some? then second.base else first.base,
      if second.top.Some? then second.top else first.top,
      if second.laser.Some? then second.laser else first.laser)
  }

  /** The global configuration starts out equal to the built-in defaults. */
  lemma InitialConfigIsDefault()
    ensures InitialGlobalConfig == PinConfig(23, 24, 17)
    ensures InitialGlobalConfig.basePin == 23 && InitialGlobalConfig.topPin == 24
    ensures InitialGlobalConfig.laserPin == 17
  {
  }

  /** Calling `set_config()` with no argument changes nothing. */
  lemma OverlayNothingIsIdentity(cfg: PinConfig)
    ensures Overlay(cfg, NoOverrides) == cfg
  {
  }

  /** The call leaves the configuration as it was exactly when every pin it
      names already holds the requested value. */
  lemma OverlayUnchangedIff(cfg: PinConfig, o: PinOverrides)
    ensures Overlay(cfg, o) == cfg <==>
      && (o.base.Some? ==> o.base.value == cfg.basePin)
      && (o.top.Some? ==> o.top.value == cfg.topPin)
      && (o.laser.Some? ==> o.laser.value == cfg.laserPin)
  {
  }

  /** Repeating the same call has no further effect. */
  lemma OverlayIdempotent(cfg: PinConfig, o: PinOverrides)
    ensures Overlay(Overlay(cfg, o), o) == Overlay(cfg, o)
  {
  }

  /** Two calls in a row act as one call with the merged arguments. */
  lemma OverlayCompose(cfg: PinConfig, first: PinOverrides, second: PinOverrides)
    ensures Overlay(Overlay(cfg, first), second) == Overlay(cfg, Then(first, second))
  {
  }

  /** When every pin is given, the configuration underneath does not matter. */
  lemma OverlayCompleteIgnoresBase(cfg1: PinConfig, cfg2: PinConfig, o: PinOverrides)
    requires Complete(o)
    ensures Overlay(cfg1, o) == Overlay(cfg2, o)
    ensures Overlay(cfg1, o) == PinConfig(o.base.value, o.top.value, o.laser.value)
  {
  }
}
