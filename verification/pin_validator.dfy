/** The two-role pin validator: a range check against the board's available
    digital pins and a conflict check between the LED's and the button's pin. */
module PinValidator {
  import opened Types

  /** The two roles of the fixed LED-and-button configuration. */
  datatype Role = Led | Button

  /** The LED's and the button's pin numbers. */
  datatype PinConfig = PinConfig(led: int, button: int)

  function PinOf(cfg: PinConfig, role: Role): int
  {
    match role
    case Led => cfg.led
    case Button => cfg.button
  }

  /** The pin held by the role that is not `role`. */
  function OtherPin(cfg: PinConfig, role: Role): int
  {
    match role
    case Led => cfg.button
    case Button => cfg.led
  }

  /** The pins a role may take: the digital pins 2..13. */
  const AvailablePins: seq<int> := DigitalPins

  predicate IsValidPin(pin: int)
  {
    pin in AvailablePins
  }

  /** A pin is assignable to a role when it is in range and the other role does not hold it. */
  predicate CanAssignPin(pin: int, role: Role, cfg: PinConfig)
  {
    if !IsValidPin(pin) then false
    else if role == Led && pin == cfg.button then false
    else if role == Button && pin == cfg.led then false
    else true
  }

  function FilterAssignable(ps: seq<int>, role: Role, cfg: PinConfig): (r: seq<int>)
    ensures forall p :: p in r <==> p in ps && CanAssignPin(p, role, cfg)
    ensures |r| <= |ps|
  {
    if ps == [] then []
    else if CanAssignPin(ps[0], role, cfg) then [ps[0]] + FilterAssignable(ps[1..], role, cfg)
    else FilterAssignable(ps[1..], role, cfg)
  }

  /** The pins offered to a role: the available pins the role can take, in the board's order. */
  function GetAvailablePins(role: Role, cfg: PinConfig): seq<int>
  {
    FilterAssignable(AvailablePins, role, cfg)
  }

  predicate Ascending(ps: seq<int>)
  {
    forall i, j :: 0 <= i < j < |ps| ==> ps[i] < ps[j]
  }

  /** A pin is valid exactly when it is one of the digital pins 2..13. */
  lemma IsValidPinRange(pin: int)
    ensures IsValidPin(pin) <==> 2 <= pin <= 13
  {
    DigitalPinsAreTwoToThirteen();
  }

  /** The conflict rule in both directions: an invalid pin is never assignable; the LED
      cannot take the button's pin nor the button the LED's; any other valid pin is
      assignable, the role's own current pin included. */
  lemma CanAssignPinExactly(pin: int, role: Role, cfg: PinConfig)
    ensures CanAssignPin(pin, role, cfg) <==> IsValidPin(pin) && pin != OtherPin(cfg, role)
    ensures !IsValidPin(pin) ==> !CanAssignPin(pin, role, cfg)
    ensures !CanAssignPin(cfg.button, Led, cfg) && !CanAssignPin(cfg.led, Button, cfg)
    ensures IsValidPin(PinOf(cfg, role)) && cfg.led != cfg.button ==> CanAssignPin(PinOf(cfg, role), role, cfg)
  {
  }

  lemma {:induction false} FilterKeepsOrder(ps: seq<int>, role: Role, cfg: PinConfig)
    requires Ascending(ps)
    ensures Ascending(FilterAssignable(ps, role, cfg))
  {
    if ps != [] {
      FilterKeepsOrder(ps[1..], role, cfg);
      var rest := FilterAssignable(ps[1..], role, cfg);
      forall k | 0 <= k < |rest| ensures ps[0] < rest[k] {
        assert rest[k] in rest;
        assert rest[k] in ps[1..];
      }
    }
  }

  lemma {:induction false} FilterCount(ps: seq<int>, role: Role, cfg: PinConfig)
    requires Ascending(ps) && forall p :: p in ps ==> IsValidPin(p)
    ensures |FilterAssignable(ps, role, cfg)| == |ps| - (if OtherPin(cfg, role) in ps then 1 else 0)
  {
    if ps != [] {
      FilterCount(ps[1..], role, cfg);
      if OtherPin(cfg, role) == ps[0] {
        assert OtherPin(cfg, role) !in ps[1..] by {
          forall k | 0 <= k < |ps[1..]| ensures ps[1..][k] != ps[0] {
            assert ps[k + 1] > ps[0];
          }
        }
      } else {
        assert OtherPin(cfg, role) in ps <==> OtherPin(cfg, role) in ps[1..] by {
          assert ps == [ps[0]] + ps[1..];
        }
      }
    }
  }

  /** The offered pins are the available pins, in ascending order, that the role can take:
      never the other role's pin, and every other digital pin. Exactly one pin is withheld
      when the other role holds a valid pin, none otherwise. */
  lemma AvailablePinsExactly(role: Role, cfg: PinConfig)
    ensures Ascending(GetAvailablePins(role, cfg))
    ensures forall p :: p in GetAvailablePins(role, cfg) <==> 2 <= p <= 13 && p != OtherPin(cfg, role)
    ensures OtherPin(cfg, role) !in GetAvailablePins(role, cfg)
    ensures |GetAvailablePins(role, cfg)| == if IsValidPin(OtherPin(cfg, role)) then 11 else 12
  {
    DigitalPinsAreTwoToThirteen();
    assert Ascending(AvailablePins);
    FilterKeepsOrder(AvailablePins, role, cfg);
    FilterCount(AvailablePins, role, cfg);
  }
}
