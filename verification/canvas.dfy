/** The permissive editor: any number of components of a tag, default pins copied from
    the catalog, and pin changes applied without a conflict check. Only a second board
    is refused. Removal, moves and resizes are the shared edits of `CircuitEdits`. */
module Canvas {
  import opened Strings
  import opened Types
  import opened Catalog
  import opened CircuitEdits
  import SimpleCanvas

  /** `metadata.defaultPins || {}`. */
  function CatalogPins(t: ComponentType): PinMap
  {
    if Library(t).defaultPins.Some? then Library(t).defaultPins.value else []
  }

  /** What `handleDrop` produces: `t` is the dragged tag (None when the drag carried none),
      `now` the clock reading the id is made from, (cx, cy) the mouse position and (left, top)
      the canvas corner. */
  function Drop(circuit: Circuit, t: Option<ComponentType>, now: nat, cx: int, cy: int, left: int, top: int): Edit
  {
    if t.None? then Unchanged
    else if IsMicrocontroller(t.value) && circuit.microcontroller.Some? then Refused(SecondBoard)
    else Changed(Append(circuit, Placed(t.value, NewId(t.value, now), DropPosition(cx, cy, left, top), CatalogPins(t.value))))
  }

  /** The pin names of a map. */
  function PinNames(pm: PinMap): set<string>
  {
    set i | 0 <= i < |pm| :: pm[i].0
  }

  /** `Object.entries(defaults).forEach(([k, v]) => { pins[k] = v; })` into an empty
      dictionary: the copy has the same pin names, each once, and is the defaults
      themselves when those name each pin once. */
  method CopyPins(defaults: PinMap) returns (pins: PinMap)
    ensures UniqueKeys(pins) && PinNames(pins) == PinNames(defaults)
    ensures UniqueKeys(defaults) ==> pins == defaults
  {
    pins := [];
    var i := 0;
    while i < |defaults|
      invariant 0 <= i <= |defaults|
      invariant UniqueKeys(pins) && PinNames(pins) == PinNames(defaults[..i])
      invariant UniqueKeys(defaults) ==> pins == defaults[..i]
    {
      CopyStep(defaults, i, pins);
      if UniqueKeys(defaults) {
        CopyStepUnique(defaults, i);
      }
      pins := Assign(pins, defaults[i].0, defaults[i].1);
      i := i + 1;
    }
    assert defaults[..|defaults|] == defaults;
  }

  /** `handleDrop`. */
  method DropComponent(circuit: Circuit, t: Option<ComponentType>, now: nat, cx: int, cy: int, left: int, top: int)
    returns (e: Edit)
    ensures e == Drop(circuit, t, now, cx, cy, left, top)
  {
    if t.None? {
      return Unchanged;
    }
    var tag := t.value;
    if IsMicrocontroller(tag) && circuit.microcontroller.Some? {
      return Refused(SecondBoard);
    }
    var position := DropPosition(cx, cy, left, top);
    DefaultPinsWellFormed(tag);
    var pins := CopyPins(CatalogPins(tag));
    var c := Component(NewId(tag, now), tag, position, if |pins| > 0 then Some(pins) else None, None);
    e := Changed(Circuit(circuit.components + [c], if IsMicrocontroller(tag) then Some(c) else circuit.microcontroller));
  }

  // ---------------------------------------------------------------------------
  // Helpers of the copy

  /** One entry copied keeps the loop's invariant. */
  lemma CopyStep(defaults: PinMap, i: nat, pins: PinMap)
    requires i < |defaults| && UniqueKeys(pins) && PinNames(pins) == PinNames(defaults[..i])
    ensures var next := Assign(pins, defaults[i].0, defaults[i].1);
      UniqueKeys(next) && PinNames(next) == PinNames(defaults[..i + 1])
  {
    AssignKeepsKeysUnique(pins, defaults[i].0, defaults[i].1);
    AssignNames(pins, defaults[i].0, defaults[i].1);
    PrefixNames(defaults, i);
  }

  /** With pin names given once, the next entry is new and is appended. */
  lemma CopyStepUnique(defaults: PinMap, i: nat)
    requires i < |defaults| && UniqueKeys(defaults)
    ensures Assign(defaults[..i], defaults[i].0, defaults[i].1) == defaults[..i + 1]
  {
    KeyNotBefore(defaults, i);
    assert defaults[..i + 1] == defaults[..i] + [(defaults[i].0, defaults[i].1)];
  }

  lemma NamesAreKeys(pm: PinMap, k: string)
    ensures k in PinNames(pm) <==> HasKey(pm, k)
  {
    if HasKey(pm, k) {
      var i :| 0 <= i < |pm| && pm[i].0 == k;
      assert pm[i].0 in PinNames(pm);
    }
  }

  lemma AssignNames(pm: PinMap, k: string, v: PinValue)
    ensures PinNames(Assign(pm, k, v)) == PinNames(pm) + {k}
  {
    var r := Assign(pm, k, v);
    NamesAreKeys(pm, k);
    if HasKey(pm, k) {
      forall k' | k' in PinNames(r) ensures k' in PinNames(pm) {
        var j :| 0 <= j < |r| && r[j].0 == k';
        assert pm[j].0 == k';
      }
      forall k' | k' in PinNames(pm) ensures k' in PinNames(r) {
        var j :| 0 <= j < |pm| && pm[j].0 == k';
        assert r[j].0 == k';
      }
    } else {
      assert r == pm + [(k, v)];
      assert r[|pm|].0 == k;
      forall k' | k' in PinNames(r) ensures k' in PinNames(pm) + {k} {
        var j :| 0 <= j < |r| && r[j].0 == k';
        if j < |pm| { assert pm[j].0 == k'; }
      }
      forall k' | k' in PinNames(pm) ensures k' in PinNames(r) {
        var j :| 0 <= j < |pm| && pm[j].0 == k';
        assert r[j].0 == k';
      }
    }
  }

  lemma PrefixNames(pm: PinMap, i: nat)
    requires i < |pm|
    ensures PinNames(pm[..i + 1]) == PinNames(pm[..i]) + {pm[i].0}
  {
    var p, q := pm[..i], pm[..i + 1];
    forall k' | k' in PinNames(q) ensures k' in PinNames(p) + {pm[i].0} {
      var j :| 0 <= j < |q| && q[j].0 == k';
      if j < i {
        assert p[j].0 == k';
      }
    }
    forall k' | k' in PinNames(p) ensures k' in PinNames(q) {
      var j :| 0 <= j < |p| && p[j].0 == k';
      assert q[j].0 == k';
    }
    assert q[i].0 == pm[i].0;
  }

  lemma KeyNotBefore(pm: PinMap, i: nat)
    requires UniqueKeys(pm) && i < |pm|
    ensures !HasKey(pm[..i], pm[i].0)
  {
    forall j | 0 <= j < i ensures pm[..i][j].0 != pm[i].0 {
      assert pm[..i][j] == pm[j];
    }
  }

  // ---------------------------------------------------------------------------
  // Properties

  /** A drop does nothing without a tag, is refused exactly when it would add a second
      board, and is accepted otherwise, whatever tags the circuit already holds. */
  lemma DropRules(circuit: Circuit, t: Option<ComponentType>, now: nat, cx: int, cy: int, left: int, top: int)
    ensures var e := Drop(circuit, t, now, cx, cy, left, top);
      (e == Unchanged <==> t.None?)
      && (e.Refused? <==> t.Some? && IsMicrocontroller(t.value) && circuit.microcontroller.Some?)
      && (e.Refused? ==> e.reason == SecondBoard)
      && (e.Changed? <==> t.Some? && !(IsMicrocontroller(t.value) && circuit.microcontroller.Some?))
  {
  }

  /** An accepted drop appends one component of the tag at the end, at the clamped drop
      point, carrying the catalog's default pins (none when the catalog has none), and
      makes it the board exactly when it is a microcontroller. */
  lemma DropAppends(circuit: Circuit, t: ComponentType, now: nat, cx: int, cy: int, left: int, top: int)
    requires Drop(circuit, Some(t), now, cx, cy, left, top).Changed?
    ensures var r := Drop(circuit, Some(t), now, cx, cy, left, top).circuit;
      var n := |circuit.components|;
      var c := r.components[n];
      |r.components| == n + 1 && r.components[..n] == circuit.components
      && c.ctype == t && c.id == NewId(t, now) && c.scale.None?
      && c.position.x >= 20 && c.position.y >= 20
      && (cx - left - 100 >= 20 ==> c.position.x == cx - left - 100)
      && (cy - top - 50 >= 20 ==> c.position.y == cy - top - 50)
      && c.pins == Library(t).defaultPins
      && r.microcontroller == (if IsMicrocontroller(t) then Some(c) else circuit.microcontroller)
  {
    var r := Drop(circuit, Some(t), now, cx, cy, left, top).circuit;
    DefaultPinsWellFormed(t);
    assert r.components[..|circuit.components|] == circuit.components;
  }

  /** Unlike the strict editor, a tag already present is accepted again. */
  lemma DuplicatesAccepted(circuit: Circuit, t: ComponentType, now: nat, cx: int, cy: int, left: int, top: int)
    requires HasType(circuit.components, t) && !IsMicrocontroller(t)
    ensures Drop(circuit, Some(t), now, cx, cy, left, top).Changed?
    ensures SimpleCanvas.Drop(circuit, Some(t), now, cx, cy, left, top) == Refused(DuplicateType)
  {
  }

  /** Accepted drops keep a single, referenced board. */
  lemma DropKeepsBoardsAgree(circuit: Circuit, t: Option<ComponentType>, now: nat, cx: int, cy: int, left: int, top: int)
    requires BoardsAgree(circuit)
    requires Drop(circuit, t, now, cx, cy, left, top).Changed?
    ensures BoardsAgree(Drop(circuit, t, now, cx, cy, left, top).circuit)
  {
    var c := Placed(t.value, NewId(t.value, now), DropPosition(cx, cy, left, top), CatalogPins(t.value));
    AppendKeepsBoardsAgree(circuit, c);
  }

  /** The two editors start the red LED and the push button with the same pins; for
      other tags the strict editor gives no pins where the catalog has some. */
  lemma DefaultsOfTheTwoEditors(t: ComponentType)
    ensures t == LedRed || t == Pushbutton ==> SimpleCanvas.StrictDefaults(t) == CatalogPins(t)
    ensures t != LedRed && t != Pushbutton ==> SimpleCanvas.StrictDefaults(t) == []
    ensures CatalogPins(Buzzer) != []
  {
  }

  /** A pin change here is the shared edit applied unconditionally: where the strict
      editor refuses a value another component holds, this one writes it. */
  lemma CollisionsApplied(circuit: Circuit, id: string, k: string, v: PinValue, i: nat)
    requires i < |circuit.components| && circuit.components[i].id == id && circuit.components[i].pins.Some?
    requires SimpleCanvas.PinTaken(circuit.components, id, v)
    ensures SimpleCanvas.PinChange(circuit, id, k, v) == Refused(PinInUse)
    ensures var d := ApplyPin(circuit, id, k, v).components[i];
      d.pins.Some? && Lookup(d.pins.value, k) == Some(v)
  {
    assert HasId(circuit.components, id);
    AssignLookup(circuit.components[i].pins.value, k, v);
  }
}
