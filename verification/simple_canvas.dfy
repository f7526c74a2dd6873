/** The strict editor: at most one component of each tag, a fixed default pin table
    for the red LED and the push button, and a pin change refused when another
    component already uses the value. Removal, moves and resizes are the shared
    edits of `CircuitEdits`. */
module SimpleCanvas {
  import opened Strings
  import opened Types
  import opened Catalog
  import opened CircuitEdits

  /** The pins a dropped component starts with: LED anode 10 and cathode 0, button pin 2
      and gnd 0, nothing for any other tag. */
  function StrictDefaults(t: ComponentType): PinMap
  {
    if t == LedRed then [("anode", Digital(10)), ("cathode", Digital(0))]
    else if t == Pushbutton then [("pin", Digital(2)), ("gnd", Digital(0))]
    else []
  }

  /** `handleDrop`: `t` is the dragged tag (None when the drag carried none), `now` the
      clock reading the id is made from, (cx, cy) the mouse position and (left, top) the
      canvas corner. */
  function Drop(circuit: Circuit, t: Option<ComponentType>, now: nat, cx: int, cy: int, left: int, top: int): Edit
  {
    if t.None? then Unchanged
    else if HasType(circuit.components, t.value) then Refused(DuplicateType)
    else if IsMicrocontroller(t.value) && circuit.microcontroller.Some? then Refused(SecondBoard)
    else Changed(Append(circuit, Placed(t.value, NewId(t.value, now), DropPosition(cx, cy, left, top), StrictDefaults(t.value))))
  }

  /** Some component with another id has a pin map holding the value. */
  predicate PinTaken(cs: seq<Component>, id: string, v: PinValue)
  {
    exists i :: 0 <= i < |cs| && cs[i].id != id && cs[i].pins.Some? && HasValue(cs[i].pins.value, v)
  }

  /** `handlePinChange`: nothing happens for an unknown id; the change is refused when
      another component holds the value (0 included); otherwise it is applied. */
  function PinChange(circuit: Circuit, id: string, k: string, v: PinValue): Edit
  {
    if !HasId(circuit.components, id) then Unchanged
    else if PinTaken(circuit.components, id, v) then Refused(PinInUse)
    else Changed(ApplyPin(circuit, id, k, v))
  }

  /** No two components of the same tag. */
  predicate DistinctTypes(cs: seq<Component>)
  {
    forall i, j :: 0 <= i < j < |cs| ==> cs[i].ctype != cs[j].ctype
  }

  /** Component `a` has a pin other than the ground sentinel whose value `b` also uses. */
  predicate SharesPin(a: Component, b: Component)
  {
    a.pins.Some? && b.pins.Some?
    && exists n :: 0 <= n < |a.pins.value| && a.pins.value[n].1 != Digital(0) && HasValue(b.pins.value, a.pins.value[n].1)
  }

  /** No two components with different ids share a pin value other than 0. */
  predicate PinsApart(cs: seq<Component>)
  {
    forall i, j :: 0 <= i < |cs| && 0 <= j < |cs| && cs[i].id != cs[j].id ==> !SharesPin(cs[i], cs[j])
  }

  // ---------------------------------------------------------------------------
  // Properties

  /** A drop is accepted exactly when a tag is given, no component has it, and it is not
      a second board; the refusal names the first rule that fails. */
  lemma DropRules(circuit: Circuit, t: Option<ComponentType>, now: nat, cx: int, cy: int, left: int, top: int)
    ensures var e := Drop(circuit, t, now, cx, cy, left, top);
      (e == Unchanged <==> t.None?)
      && (e == Refused(DuplicateType) <==> t.Some? && HasType(circuit.components, t.value))
      && (e == Refused(SecondBoard) <==>
            t.Some? && !HasType(circuit.components, t.value)
            && IsMicrocontroller(t.value) && circuit.microcontroller.Some?)
      && (e.Changed? <==>
            t.Some? && !HasType(circuit.components, t.value)
            && !(IsMicrocontroller(t.value) && circuit.microcontroller.Some?))
  {
  }

  /** An accepted drop appends one component of the tag at the end, at the clamped drop
      point, with the fixed default pins (none for tags other than the LED and the
      button), and makes it the board exactly when it is a microcontroller. */
  lemma DropAppends(circuit: Circuit, t: ComponentType, now: nat, cx: int, cy: int, left: int, top: int)
    requires Drop(circuit, Some(t), now, cx, cy, left, top).Changed?
    ensures var r := Drop(circuit, Some(t), now, cx, cy, left, top).circuit;
      var n := |circuit.components|;
      var c := r.components[n];
      |r.components| == n + 1 && r.components[..n] == circuit.components
      && c.ctype == t && c.id == NewId(t, now) && c.scale.None?
      && c.position.x >= 20 && c.position.y >= 20
      && (cx - left - 100 >= 20 ==> c.position.x == cx - left - 100)
      && (cy - top - 50 >= 20 ==> c.position.y == cy - top - 50)
      && c.pins == (if t == LedRed then Some([("anode", Digital(10)), ("cathode", Digital(0))])
                    else if t == Pushbutton then Some([("pin", Digital(2)), ("gnd", Digital(0))])
                    else None)
      && r.microcontroller == (if IsMicrocontroller(t) then Some(c) else circuit.microcontroller)
  {
    var r := Drop(circuit, Some(t), now, cx, cy, left, top).circuit;
    assert r.components[..|circuit.components|] == circuit.components;
  }

  /** Accepted drops keep the tags distinct. */
  lemma DropKeepsTypesDistinct(circuit: Circuit, t: Option<ComponentType>, now: nat, cx: int, cy: int, left: int, top: int)
    requires DistinctTypes(circuit.components)
    requires Drop(circuit, t, now, cx, cy, left, top).Changed?
    ensures DistinctTypes(Drop(circuit, t, now, cx, cy, left, top).circuit.components)
  {
    var cs := circuit.components;
    var ds := Drop(circuit, t, now, cx, cy, left, top).circuit.components;
    forall i, j | 0 <= i < j < |ds| ensures ds[i].ctype != ds[j].ctype {
      if j == |cs| {
        assert ds[i] == cs[i];
      }
    }
  }

  /** Accepted drops keep a single, referenced board. */
  lemma DropKeepsBoardsAgree(circuit: Circuit, t: Option<ComponentType>, now: nat, cx: int, cy: int, left: int, top: int)
    requires BoardsAgree(circuit)
    requires Drop(circuit, t, now, cx, cy, left, top).Changed?
    ensures BoardsAgree(Drop(circuit, t, now, cx, cy, left, top).circuit)
  {
    var c := Placed(t.value, NewId(t.value, now), DropPosition(cx, cy, left, top), StrictDefaults(t.value));
    AppendKeepsBoardsAgree(circuit, c);
  }

  /** A pin change does nothing for an unknown id, is refused exactly when another
      component holds the value, and is otherwise the shared pin edit. */
  lemma PinChangeRules(circuit: Circuit, id: string, k: string, v: PinValue)
    ensures var e := PinChange(circuit, id, k, v);
      (e == Unchanged <==> !HasId(circuit.components, id))
      && (e.Refused? <==> HasId(circuit.components, id) && PinTaken(circuit.components, id, v))
      && (e.Changed? ==> e.circuit == ApplyPin(circuit, id, k, v))
  {
  }

  /** Every value of a map after one pin is set is the new value or an old one. */
  lemma {:induction false} AssignValues(pm: PinMap, k: string, v: PinValue)
    ensures forall n :: 0 <= n < |Assign(pm, k, v)| ==>
      Assign(pm, k, v)[n].1 == v || HasValue(pm, Assign(pm, k, v)[n].1)
  {
    if pm != [] && pm[0].0 != k {
      AssignValues(pm[1..], k, v);
      var r := Assign(pm, k, v);
      forall n | 0 < n < |r| ensures r[n].1 == v || HasValue(pm, r[n].1) {
        assert r[n] == Assign(pm[1..], k, v)[n - 1];
        if r[n].1 != v {
          var m :| 0 <= m < |pm[1..]| && pm[1..][m].1 == r[n].1;
          assert pm[m + 1].1 == r[n].1;
        }
      }
      assert r[0] == pm[0];
    } else if pm != [] {
      var r := Assign(pm, k, v);
      forall n | 0 < n < |r| ensures HasValue(pm, r[n].1) {
        assert r[n] == pm[n];
      }
    }
  }

  /** A value the edited component now holds, other than the ground sentinel, is the new
      value or one it held before. */
  lemma SetPinValues(c: Component, k: string, v: PinValue, w: PinValue)
    requires c.pins.Some? && HasValue(Apply(c, SetPin(k, v)).pins.value, w)
    ensures w == v || HasValue(c.pins.value, w)
  {
    AssignValues(c.pins.value, k, v);
  }

  /** Sharing with the edited component after the change means sharing the new value or
      sharing before it. */
  lemma SharesAfterSetPin(a: Component, b: Component, k: string, v: PinValue)
    requires a.pins.Some? && b.pins.Some?
    ensures SharesPin(Apply(a, SetPin(k, v)), b) ==> HasValue(b.pins.value, v) || SharesPin(a, b)
    ensures SharesPin(b, Apply(a, SetPin(k, v))) ==>
      (v != Digital(0) && HasValue(b.pins.value, v)) || SharesPin(b, a)
  {
    var a' := Apply(a, SetPin(k, v));
    AssignValues(a.pins.value, k, v);
    if SharesPin(a', b) && !HasValue(b.pins.value, v) {
      var n :| 0 <= n < |a'.pins.value| && a'.pins.value[n].1 != Digital(0) && HasValue(b.pins.value, a'.pins.value[n].1);
      var w := a'.pins.value[n].1;
      var m :| 0 <= m < |a.pins.value| && a.pins.value[m].1 == w;
      assert a.pins.value[m].1 != Digital(0) && HasValue(b.pins.value, a.pins.value[m].1);
    }
    if SharesPin(b, a') {
      var n :| 0 <= n < |b.pins.value| && b.pins.value[n].1 != Digital(0) && HasValue(a'.pins.value, b.pins.value[n].1);
      var w := b.pins.value[n].1;
      var m :| 0 <= m < |a'.pins.value| && a'.pins.value[m].1 == w;
      if w != v {
        assert HasValue(a.pins.value, w);
      } else {
        assert HasValue(b.pins.value, v);
      }
    }
  }

  /** An accepted pin change keeps non-zero pins apart across components. */
  lemma PinChangeKeepsPinsApart(circuit: Circuit, id: string, k: string, v: PinValue)
    requires PinsApart(circuit.components)
    requires PinChange(circuit, id, k, v).Changed?
    ensures PinsApart(PinChange(circuit, id, k, v).circuit.components)
  {
    var cs := circuit.components;
    var ds := Updated(cs, id, SetPin(k, v));
    forall i, j | 0 <= i < |ds| && 0 <= j < |ds| && ds[i].id != ds[j].id ensures !SharesPin(ds[i], ds[j]) {
      PairApart(cs, id, k, v, i, j);
    }
  }

  lemma PairApart(cs: seq<Component>, id: string, k: string, v: PinValue, i: nat, j: nat)
    requires PinsApart(cs) && !PinTaken(cs, id, v)
    requires i < |cs| && j < |cs| && cs[i].id != cs[j].id
    ensures var ds := Updated(cs, id, SetPin(k, v));
      !SharesPin(ds[i], ds[j])
  {
    var ds := Updated(cs, id, SetPin(k, v));
    assert !SharesPin(cs[i], cs[j]);
    if cs[i].pins.Some? && cs[j].pins.Some? {
      if cs[i].id == id {
        assert ds[i] == Apply(cs[i], SetPin(k, v)) && ds[j] == cs[j];
        SharesAfterSetPin(cs[i], cs[j], k, v);
        NotTaken(cs, id, v, j);
      } else if cs[j].id == id {
        assert ds[j] == Apply(cs[j], SetPin(k, v)) && ds[i] == cs[i];
        SharesAfterSetPin(cs[j], cs[i], k, v);
        NotTaken(cs, id, v, i);
      } else {
        assert ds[i] == cs[i] && ds[j] == cs[j];
      }
    } else {
      assert ds[i].pins.None? || ds[j].pins.None?;
    }
  }

  lemma NotTaken(cs: seq<Component>, id: string, v: PinValue, j: nat)
    requires !PinTaken(cs, id, v) && j < |cs| && cs[j].id != id && cs[j].pins.Some?
    ensures !HasValue(cs[j].pins.value, v)
  {
  }

  /** The ground sentinel takes part in the check: with a default LED (cathode 0) on the
      canvas, no other component's pin can be set to 0. */
  lemma GroundIsChecked(led: Component, other: Component, k: string)
    requires led.ctype == LedRed && led.pins == Some(StrictDefaults(LedRed)) && led.id != other.id
    ensures PinChange(Circuit([led, other], None), other.id, k, Digital(0)) == Refused(PinInUse)
  {
    var cs := [led, other];
    assert cs[1].id == other.id;
    assert led.pins.value[1].1 == Digital(0);
    assert cs[0].id != other.id && HasValue(cs[0].pins.value, Digital(0));
  }

  /** A drop does not check its default pins against the circuit: a button moved to
      pin 10 and a red LED dropped next to it share that pin. */
  lemma DropMayShareAPin(button: Component, now: nat, cx: int, cy: int, left: int, top: int)
    requires button.ctype == Pushbutton && button.pins == Some([("pin", Digital(10)), ("gnd", Digital(0))])
    requires PinsApart([button]) && button.id != NewId(LedRed, now)
    ensures var e := Drop(Circuit([button], None), Some(LedRed), now, cx, cy, left, top);
      e.Changed? && !PinsApart(e.circuit.components)
  {
    var e := Drop(Circuit([button], None), Some(LedRed), now, cx, cy, left, top);
    assert !HasType([button], LedRed);
    var ds := e.circuit.components;
    var led := ds[1];
    assert led.pins.value[0].1 == Digital(10);
    assert button.pins.value[0].1 == Digital(10);
    assert HasValue(led.pins.value, Digital(10));
    assert SharesPin(ds[0], ds[1]);
    assert ds[0].id != ds[1].id;
  }
}
