/** The copy-on-write circuit edits shared by both canvas editors: appending a dropped
    component, changing one pin, removing, moving and resizing. Each takes the current
    circuit and returns the next one; the editors differ only in when they refuse. */
module CircuitEdits {
  import opened Strings
  import opened Types
  import opened Catalog
  import FosseeGenerator

  /** Why an editor refused a change (the editor shows the reason in an alert). */
  datatype Refusal = DuplicateType | SecondBoard | PinInUse

  /** What an editor handler does: replace the circuit, return without doing anything,
      or refuse and keep the circuit. */
  datatype Edit = Changed(circuit: Circuit) | Unchanged | Refused(reason: Refusal)

  // ---------------------------------------------------------------------------
  // Dropping

  /** `Math.max(20, v)`: a coordinate is never less than 20. */
  function Clamp(v: int): (r: int)
    ensures r >= 20 && r >= v
    ensures r == v || r == 20
  {
    if v < 20 then 20 else v
  }

  /** Where a component dropped at client point (cx, cy) lands on a canvas whose
      top-left corner is at (left, top): offset by (-100, -50) and clamped. */
  function DropPosition(cx: int, cy: int, left: int, top: int): Position
  {
    Position(Clamp(cx - left - 100), Clamp(cy - top - 50))
  }

  /** `${type}-${now}`: the id of a component dropped at clock reading `now`. */
  function NewId(t: ComponentType, now: nat): string
  {
    TypeName(t) + "-" + NatToString(now)
  }

  /** A fresh component: no pin map when the pins collected are empty, no scale. */
  function Placed(t: ComponentType, id: string, position: Position, pins: PinMap): Component
  {
    Component(id, t, position, if |pins| > 0 then Some(pins) else None, None)
  }

  /** The component is appended; it becomes the board exactly when its category is
      microcontroller. */
  function Append(circuit: Circuit, c: Component): Circuit
  {
    Circuit(circuit.components + [c], if IsMicrocontroller(c.ctype) then Some(c) else circuit.microcontroller)
  }

  // ---------------------------------------------------------------------------
  // Pin change, move and resize: a map over the components with the target's id

  datatype Change = MoveTo(position: Position) | ScaleTo(scale: Scale) | SetPin(name: string, value: PinValue)

  /** One component after a change: a pin change leaves a component without a pin map
      as it is. */
  function Apply(c: Component, ch: Change): (r: Component)
    ensures r.id == c.id && r.ctype == c.ctype
  {
    match ch
    case MoveTo(p) => c.(position := p)
    case ScaleTo(s) => c.(scale := Some(s))
    case SetPin(k, v) => if c.pins.Some? then c.(pins := Some(Assign(c.pins.value, k, v))) else c
  }

  /** `components.map(c => c.id === id ? change(c) : c)`. */
  function Updated(cs: seq<Component>, id: string, ch: Change): (r: seq<Component>)
    ensures |r| == |cs|
    ensures forall i :: 0 <= i < |cs| ==> r[i] == if cs[i].id == id then Apply(cs[i], ch) else cs[i]
  {
    if cs == [] then []
    else [if cs[0].id == id then Apply(cs[0], ch) else cs[0]] + Updated(cs[1..], id, ch)
  }

  /** `handlePinChange` once accepted: the pin is set in every component with that id
      and a pin map, and a board with that id is replaced by the updated component. */
  function ApplyPin(circuit: Circuit, id: string, k: string, v: PinValue): Circuit
  {
    var cs := Updated(circuit.components, id, SetPin(k, v));
    var mc := circuit.microcontroller;
    Circuit(cs, if mc.Some? && mc.value.id == id && FindById(cs, id).Some? then FindById(cs, id) else mc)
  }

  /** `handleMove`: the board reference is kept as it was. */
  function Move(circuit: Circuit, id: string, x: int, y: int): Circuit
  {
    circuit.(components := Updated(circuit.components, id, MoveTo(Position(x, y))))
  }

  /** `handleResize`: the board reference is kept as it was. */
  function Resize(circuit: Circuit, id: string, s: Scale): Circuit
  {
    circuit.(components := Updated(circuit.components, id, ScaleTo(s)))
  }

  // ---------------------------------------------------------------------------
  // Removal

  /** `components.filter(c => c.id !== id)`. */
  function Without(cs: seq<Component>, id: string): seq<Component>
  {
    if cs == [] then []
    else (if cs[0].id != id then [cs[0]] else []) + Without(cs[1..], id)
  }

  /** `handleRemove`: the board reference is cleared when it has the removed id. */
  function Remove(circuit: Circuit, id: string): Circuit
  {
    var mc := circuit.microcontroller;
    Circuit(Without(circuit.components, id), if mc.Some? && mc.value.id == id then None else mc)
  }

  // ---------------------------------------------------------------------------
  // Invariants of a circuit

  /** The board reference is the first component carrying its id. */
  predicate BoardTracked(circuit: Circuit)
  {
    circuit.microcontroller.Some? ==>
      FindById(circuit.components, circuit.microcontroller.value.id) == circuit.microcontroller
  }

  /** The board reference is a microcontroller, and every microcontroller in the list
      carries its id: there is at most one board, and it is the one referenced. */
  predicate BoardsAgree(circuit: Circuit)
  {
    (circuit.microcontroller.Some? ==> IsMicrocontroller(circuit.microcontroller.value.ctype))
    && forall i :: 0 <= i < |circuit.components| && IsMicrocontroller(circuit.components[i].ctype) ==>
         circuit.microcontroller.Some? && circuit.components[i].id == circuit.microcontroller.value.id
  }

  // ---------------------------------------------------------------------------
  // Properties

  /** Ids are told apart by their clock reading: two drops of one tag at different
      times get different ids. */
  lemma NewIdInjective(t: ComponentType, n1: nat, n2: nat)
    ensures NewId(t, n1) == NewId(t, n2) ==> n1 == n2
  {
    if NewId(t, n1) == NewId(t, n2) {
      var p := TypeName(t) + "-";
      assert NewId(t, n1)[|p|..] == NatToString(n1);
      assert NewId(t, n2)[|p|..] == NatToString(n2);
      ParseNatOfNatToString(n1);
      ParseNatOfNatToString(n2);
    }
  }

  /** A move sets the position of every component with the id and touches nothing else:
      ids, tags, pins and scales stay, and so does the board reference. */
  lemma MoveTouchesOnlyPosition(circuit: Circuit, id: string, x: int, y: int)
    ensures var r := Move(circuit, id, x, y);
      r.microcontroller == circuit.microcontroller
      && |r.components| == |circuit.components|
      && forall i :: 0 <= i < |circuit.components| ==>
           var c, d := circuit.components[i], r.components[i];
           d.id == c.id && d.ctype == c.ctype && d.pins == c.pins && d.scale == c.scale
           && d.position == (if c.id == id then Position(x, y) else c.position)
  {
  }

  /** A resize sets the scale of every component with the id and touches nothing else. */
  lemma ResizeTouchesOnlyScale(circuit: Circuit, id: string, s: Scale)
    ensures var r := Resize(circuit, id, s);
      r.microcontroller == circuit.microcontroller
      && |r.components| == |circuit.components|
      && forall i :: 0 <= i < |circuit.components| ==>
           var c, d := circuit.components[i], r.components[i];
           d.id == c.id && d.ctype == c.ctype && d.pins == c.pins && d.position == c.position
           && d.scale == (if c.id == id then Some(s) else c.scale)
  {
  }

  /** A pin change writes the named pin of each component with the id that has a pin
      map, keeps that map's other pins, and leaves every other component as it was. */
  lemma ApplyPinTouchesOnlyThatPin(circuit: Circuit, id: string, k: string, v: PinValue)
    ensures var r := ApplyPin(circuit, id, k, v);
      |r.components| == |circuit.components|
      && forall i :: 0 <= i < |circuit.components| ==>
           var c, d := circuit.components[i], r.components[i];
           d.id == c.id && d.ctype == c.ctype && d.position == c.position && d.scale == c.scale
           && (c.id != id || c.pins.None? ==> d == c)
           && (c.id == id && c.pins.Some? ==>
                 d.pins.Some? && Lookup(d.pins.value, k) == Some(v)
                 && forall k' :: k' != k ==> Lookup(d.pins.value, k') == Lookup(c.pins.value, k'))
  {
    var cs := circuit.components;
    forall i | 0 <= i < |cs| && cs[i].pins.Some? {
      AssignLookup(cs[i].pins.value, k, v);
    }
  }

  /** The board reference follows a pin change of the board: when it has the id and the
      id is in the list, it becomes the updated component; otherwise it is kept. */
  lemma ApplyPinRefreshesBoard(circuit: Circuit, id: string, k: string, v: PinValue)
    ensures var r := ApplyPin(circuit, id, k, v);
      var mc := circuit.microcontroller;
      (mc.Some? && mc.value.id == id && HasId(circuit.components, id) ==>
         r.microcontroller == FindById(r.components, id)
         && r.microcontroller == Some(Apply(FindById(circuit.components, id).value, SetPin(k, v))))
      && (mc.None? || mc.value.id != id || !HasId(circuit.components, id) ==> r.microcontroller == mc)
  {
    FindByIdUpdated(circuit.components, id, SetPin(k, v), id);
  }

  /** Removal keeps exactly the components with another id, and clears the board
      reference exactly when the board has the removed id. */
  lemma RemoveExactly(circuit: Circuit, id: string)
    ensures var r := Remove(circuit, id);
      (forall c :: c in r.components <==> c in circuit.components && c.id != id)
      && !HasId(r.components, id)
      && (!HasId(circuit.components, id) ==> r.components == circuit.components)
      && (r.microcontroller.None? <==>
            circuit.microcontroller.None? || circuit.microcontroller.value.id == id)
  {
    WithoutExactly(circuit.components, id);
    var r := Without(circuit.components, id);
    forall i | 0 <= i < |r| ensures r[i].id != id {
      assert r[i] in r;
    }
  }

  lemma {:induction false} WithoutExactly(cs: seq<Component>, id: string)
    ensures forall c :: c in Without(cs, id) <==> c in cs && c.id != id
    ensures !HasId(cs, id) ==> Without(cs, id) == cs
  {
    if cs != [] {
      WithoutExactly(cs[1..], id);
      assert cs == [cs[0]] + cs[1..];
      if !HasId(cs, id) {
        forall i | 0 <= i < |cs[1..]| ensures cs[1..][i].id != id {
          assert cs[1..][i] == cs[i + 1];
        }
      }
    }
  }

  /** Looking an id up after a map over the components finds the same position: the
      found component is changed exactly when it carries the edited id. */
  lemma {:induction false} FindByIdUpdated(cs: seq<Component>, id: string, ch: Change, j: string)
    ensures var f := FindById(cs, j);
      FindById(Updated(cs, id, ch), j) == if f.None? then None else Some(if j == id then Apply(f.value, ch) else f.value)
  {
    if cs != [] {
      FindByIdUpdated(cs[1..], id, ch, j);
      assert Updated(cs, id, ch)[1..] == Updated(cs[1..], id, ch);
    }
  }

  /** Filtering out one id does not change the lookup of another. */
  lemma {:induction false} FindByIdWithout(cs: seq<Component>, id: string, j: string)
    requires j != id
    ensures FindById(Without(cs, id), j) == FindById(cs, j)
  {
    if cs != [] {
      FindByIdWithout(cs[1..], id, j);
      var w := Without(cs, id);
      if cs[0].id != id {
        assert w == [cs[0]] + Without(cs[1..], id);
        assert w[0] == cs[0] && w[1..] == Without(cs[1..], id);
      } else {
        assert w == Without(cs[1..], id);
      }
    }
  }

  /** Appending does not change the lookup of an id already present, and finds the new
      component by an id that was not. */
  lemma {:induction false} FindByIdAppend(cs: seq<Component>, c: Component, j: string)
    ensures HasId(cs, j) ==> FindById(cs + [c], j) == FindById(cs, j)
    ensures !HasId(cs, j) && c.id == j ==> FindById(cs + [c], j) == Some(c)
  {
    if cs != [] {
      FindByIdAppend(cs[1..], c, j);
      assert (cs + [c])[1..] == cs[1..] + [c];
      if cs[0].id != j && HasId(cs, j) {
        var i :| 0 <= i < |cs| && cs[i].id == j;
        assert cs[1..][i - 1].id == j;
      }
      if !HasId(cs, j) {
        forall i | 0 <= i < |cs[1..]| ensures cs[1..][i].id != j {
          assert cs[1..][i] == cs[i + 1];
        }
      }
    } else {
      assert cs + [c] == [c];
    }
  }

  /** Appending a component with a fresh id keeps the board reference tracked. */
  lemma AppendKeepsBoardTracked(circuit: Circuit, c: Component)
    requires BoardTracked(circuit) && !HasId(circuit.components, c.id)
    ensures BoardTracked(Append(circuit, c))
  {
    if IsMicrocontroller(c.ctype) {
      FindByIdAppend(circuit.components, c, c.id);
    } else if circuit.microcontroller.Some? {
      FindByIdAppend(circuit.components, c, circuit.microcontroller.value.id);
    }
  }

  /** Removal keeps the board reference tracked. */
  lemma RemoveKeepsBoardTracked(circuit: Circuit, id: string)
    requires BoardTracked(circuit)
    ensures BoardTracked(Remove(circuit, id))
  {
    var mc := circuit.microcontroller;
    if mc.Some? && mc.value.id != id {
      FindByIdWithout(circuit.components, id, mc.value.id);
    }
  }

  /** A pin change keeps the board reference tracked. */
  lemma ApplyPinKeepsBoardTracked(circuit: Circuit, id: string, k: string, v: PinValue)
    requires BoardTracked(circuit)
    ensures BoardTracked(ApplyPin(circuit, id, k, v))
  {
    var mc := circuit.microcontroller;
    if mc.Some? {
      FindByIdUpdated(circuit.components, id, SetPin(k, v), mc.value.id);
      FindByIdUpdated(circuit.components, id, SetPin(k, v), id);
    }
  }

  /** Moving the board elsewhere leaves the reference pointing at the old component:
      the board listed and the board referenced then differ in their position. */
  lemma MoveLeavesBoardStale(circuit: Circuit, x: int, y: int)
    requires BoardTracked(circuit) && circuit.microcontroller.Some?
    requires circuit.microcontroller.value.position != Position(x, y)
    ensures var board := circuit.microcontroller.value;
      var r := Move(circuit, board.id, x, y);
      r.microcontroller == Some(board)
      && FindById(r.components, board.id) == Some(board.(position := Position(x, y)))
      && !BoardTracked(r)
  {
    FindByIdUpdated(circuit.components, circuit.microcontroller.value.id,
      MoveTo(Position(x, y)), circuit.microcontroller.value.id);
  }

  /** Every edit of the list by id keeps ids and tags, so the boards still agree. */
  lemma UpdatedKeepsBoardsAgree(circuit: Circuit, id: string, ch: Change)
    requires BoardsAgree(circuit)
    ensures BoardsAgree(circuit.(components := Updated(circuit.components, id, ch)))
  {
  }

  /** A pin change keeps the boards in agreement: the refreshed reference is the board
      itself, updated. */
  lemma ApplyPinKeepsBoardsAgree(circuit: Circuit, id: string, k: string, v: PinValue)
    requires BoardsAgree(circuit) && BoardTracked(circuit)
    ensures BoardsAgree(ApplyPin(circuit, id, k, v))
  {
    var ds := Updated(circuit.components, id, SetPin(k, v));
    UpdatedKeepsBoardsAgree(circuit, id, SetPin(k, v));
    FindByIdUpdated(circuit.components, id, SetPin(k, v), id);
    var mc := circuit.microcontroller;
    if mc.Some? && mc.value.id == id && FindById(ds, id).Some? {
      assert FindById(ds, id) == Some(Apply(mc.value, SetPin(k, v)));
    }
  }

  lemma RemoveKeepsBoardsAgree(circuit: Circuit, id: string)
    requires BoardsAgree(circuit)
    ensures BoardsAgree(Remove(circuit, id))
  {
    var r := Remove(circuit, id);
    WithoutExactly(circuit.components, id);
    forall i | 0 <= i < |r.components| && IsMicrocontroller(r.components[i].ctype)
      ensures r.microcontroller.Some? && r.components[i].id == r.microcontroller.value.id
    {
      assert r.components[i] in circuit.components;
    }
  }

  /** A board dropped into a circuit without one, or any other component, keeps the
      boards in agreement. */
  lemma AppendKeepsBoardsAgree(circuit: Circuit, c: Component)
    requires BoardsAgree(circuit)
    requires IsMicrocontroller(c.ctype) ==> circuit.microcontroller.None?
    ensures BoardsAgree(Append(circuit, c))
  {
  }

  /** Position and scale never reach the FOSSEE sketch: moving or resizing any component
      leaves the generated code as it was. */
  lemma LayoutKeepsFosseeCode(circuit: Circuit, id: string, ch: Change)
    requires ch.MoveTo? || ch.ScaleTo?
    ensures FosseeGenerator.Generate(circuit.(components := Updated(circuit.components, id, ch)))
      == FosseeGenerator.Generate(circuit)
  {
    var cs := circuit.components;
    var ds := Updated(cs, id, ch);
    LayoutKeepsFirstOfType(cs, id, ch, LedRed);
    LayoutKeepsFirstOfType(cs, id, ch, Pushbutton);
    FosseeGenerator.SameCode(circuit, circuit.(components := ds));
  }

  /** A move or a resize keeps which tags are present, and the pins of the first
      component of each. */
  lemma LayoutKeepsFirstOfType(cs: seq<Component>, id: string, ch: Change, t: ComponentType)
    requires ch.MoveTo? || ch.ScaleTo?
    ensures var ds := Updated(cs, id, ch);
      HasType(ds, t) == HasType(cs, t)
      && (HasType(cs, t) ==> FindByType(ds, t).value.pins == FindByType(cs, t).value.pins)
  {
    var ds := Updated(cs, id, ch);
    FirstOfTypeUpdated(cs, id, ch, t);
    var i := FirstOfType(cs, t);
    if i < |cs| {
      assert ds[i].pins == cs[i].pins;
    }
  }

  lemma {:induction false} FirstOfTypeUpdated(cs: seq<Component>, id: string, ch: Change, t: ComponentType)
    ensures FirstOfType(Updated(cs, id, ch), t) == FirstOfType(cs, t)
  {
    if cs != [] {
      FirstOfTypeUpdated(cs[1..], id, ch, t);
      assert Updated(cs, id, ch)[1..] == Updated(cs[1..], id, ch);
    }
  }
}
