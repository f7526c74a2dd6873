/** The wiring engine: holds the LED-and-button pin configuration and commits
    only the updates the pin validator accepts. */
module Wiring {
  import opened PinValidator

  const InitialConfig := PinConfig(10, 2)

  /** The configuration with `role`'s pin replaced by `pin`. */
  function WithPin(cfg: PinConfig, role: Role, pin: int): PinConfig
  {
    match role
    case Led => cfg.(led := pin)
    case Button => cfg.(button := pin)
  }

  /** Both pins valid and distinct. */
  predicate WellWired(cfg: PinConfig)
  {
    IsValidPin(cfg.led) && IsValidPin(cfg.button) && cfg.led != cfg.button
  }

  /** The configuration after `updatePin(role, pin)`. */
  function Updated(cfg: PinConfig, role: Role, pin: int): PinConfig
  {
    if CanAssignPin(pin, role, cfg) then WithPin(cfg, role, pin) else cfg
  }

  /** The configuration after a sequence of `updatePin` calls. */
  function UpdatedAll(cfg: PinConfig, updates: seq<(Role, int)>): PinConfig
    decreases |updates|
  {
    if updates == [] then cfg
    else UpdatedAll(Updated(cfg, updates[0].0, updates[0].1), updates[1..])
  }

  class WiringEngine {
    var pinConfig: PinConfig

    constructor()
      ensures pinConfig == InitialConfig
    {
      pinConfig := PinConfig(10, 2);
    }

    /** A copy of the configuration; nothing changes. */
    method GetPinConfig() returns (cfg: PinConfig)
      ensures cfg == pinConfig
    {
      cfg := pinConfig;
    }

    /** Replaces the whole configuration, without validation. */
    method SetPinConfig(cfg: PinConfig)
      modifies this
      ensures pinConfig == cfg
    {
      pinConfig := cfg;
    }

    /** Moves `role` to `newPin` when the validator allows it; otherwise changes nothing. */
    method UpdatePin(role: Role, newPin: int) returns (ok: bool)
      modifies this
      ensures ok == CanAssignPin(newPin, role, old(pinConfig))
      ensures !ok ==> pinConfig == old(pinConfig)
      ensures ok ==> PinOf(pinConfig, role) == newPin
      ensures ok ==> OtherPin(pinConfig, role) == OtherPin(old(pinConfig), role)
      ensures pinConfig == Updated(old(pinConfig), role, newPin)
    {
      if !CanAssignPin(newPin, role, pinConfig) {
        return false;
      }
      pinConfig := WithPin(pinConfig, role, newPin);
      return true;
    }

    /** The pins offered to `role` under the current configuration. */
    method GetAvailablePinsFor(role: Role) returns (pins: seq<int>)
      ensures pins == GetAvailablePins(role, pinConfig)
    {
      pins := GetAvailablePins(role, pinConfig);
    }
  }

  /** An accepted update keeps both pins valid and distinct. */
  lemma UpdatedKeepsWellWired(cfg: PinConfig, role: Role, pin: int)
    requires WellWired(cfg)
    ensures WellWired(Updated(cfg, role, pin))
  {
  }

  /** From the initial configuration, any sequence of updates keeps the LED and the
      button on distinct valid pins. */
  lemma {:induction false} UpdatesKeepWellWired(cfg: PinConfig, updates: seq<(Role, int)>)
    requires WellWired(cfg)
    ensures WellWired(UpdatedAll(cfg, updates))
    decreases |updates|
  {
    if updates != [] {
      UpdatedKeepsWellWired(cfg, updates[0].0, updates[0].1);
      UpdatesKeepWellWired(Updated(cfg, updates[0].0, updates[0].1), updates[1..]);
    }
  }

  lemma InitialConfigWellWired()
    ensures WellWired(InitialConfig)
    ensures forall us: seq<(Role, int)> :: WellWired(UpdatedAll(InitialConfig, us))
  {
    IsValidPinRange(10);
    IsValidPinRange(2);
    forall us: seq<(Role, int)> ensures WellWired(UpdatedAll(InitialConfig, us)) {
      UpdatesKeepWellWired(InitialConfig, us);
    }
  }

  /** A method-level client: a fresh engine driven by any updates stays well wired. */
  method DriveFromInitial(updates: seq<(Role, int)>) returns (cfg: PinConfig)
    ensures cfg == UpdatedAll(InitialConfig, updates)
    ensures WellWired(cfg)
  {
    var engine := new WiringEngine();
    var i := 0;
    while i < |updates|
      invariant 0 <= i <= |updates|
      invariant UpdatedAll(engine.pinConfig, updates[i..]) == UpdatedAll(InitialConfig, updates)
      invariant WellWired(engine.pinConfig)
    {
      assert updates[i..][0] == updates[i] && updates[i..][1..] == updates[i + 1..];
      UpdatedKeepsWellWired(engine.pinConfig, updates[i].0, updates[i].1);
      var _ := engine.UpdatePin(updates[i].0, updates[i].1);
      i := i + 1;
    }
    InitialConfigWellWired();
    cfg := engine.GetPinConfig();
  }
}
