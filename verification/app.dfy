/** The application shell: the generator mode, the circuit last reported by the canvas,
    the code generated for it, and the simulation flag and LED state driven by the
    start and stop buttons and by button presses on the canvas. */
module AppState {
  import opened Strings
  import opened Types
  import FosseeGenerator
  import AdvancedGenerator

  datatype Mode = Fossee | Advanced

  /** The code shown before any circuit change. */
  const InitialCode := "// Add components to generate code"
  const PressAction := "button-press"
  const ReleaseAction := "button-release"

  /** The code shown for a circuit: the FOSSEE generator's in FOSSEE mode, the advanced
      generator's otherwise. */
  function CodeFor(mode: Mode, circuit: Circuit): string
  {
    match mode
    case Fossee => FosseeGenerator.Generate(circuit)
    case Advanced => AdvancedGenerator.AdvancedSketch(circuit)
  }

  /** The placeholder the mode's generator shows when there is nothing to generate. */
  function PlaceholderFor(mode: Mode): string
  {
    match mode
    case Fossee => FosseeGenerator.Placeholder
    case Advanced => AdvancedGenerator.NoBoardPlaceholder
  }

  /** `canSimulate`: a board, and in FOSSEE mode a red LED and a push button, in
      advanced mode more than one component. */
  predicate CanSimulate(mode: Mode, circuit: Circuit)
  {
    circuit.microcontroller.Some?
    && match mode
       case Fossee => HasType(circuit.components, LedRed) && HasType(circuit.components, Pushbutton)
       case Advanced => |circuit.components| > 1
  }

  /** What `handleStart` checks: a board, and in FOSSEE mode a red LED and a push button. */
  predicate MayStart(mode: Mode, circuit: Circuit)
  {
    circuit.microcontroller.Some?
    && (mode == Fossee ==> HasType(circuit.components, LedRed) && HasType(circuit.components, Pushbutton))
  }

  class App {
    var isSimulating: bool
    var circuit: Circuit
    var generatedCode: string
    var mode: Mode
    var ledState: bool

    /** The LED is shown off whenever the simulation is not running. */
    ghost predicate Valid()
      reads this
    {
      !isSimulating ==> !ledState
    }

    constructor()
      ensures Valid()
      ensures !isSimulating && !ledState && mode == Fossee
      ensures circuit == EmptyCircuit && generatedCode == InitialCode
    {
      isSimulating := false;
      circuit := EmptyCircuit;
      generatedCode := InitialCode;
      mode := Fossee;
      ledState := false;
    }

    /** The mode buttons: only the mode changes; the code shown is regenerated at the
        next circuit change, not now. */
    method SetMode(m: Mode)
      requires Valid()
      modifies this
      ensures Valid()
      ensures mode == m
      ensures isSimulating == old(isSimulating) && ledState == old(ledState)
      ensures circuit == old(circuit) && generatedCode == old(generatedCode)
    {
      mode := m;
    }

    /** `handleCircuitChange`: the circuit is stored and its code generated by the
        mode's generator. */
    method HandleCircuitChange(c: Circuit)
      requires Valid()
      modifies this
      ensures Valid()
      ensures circuit == c && generatedCode == CodeFor(mode, c)
      ensures mode == old(mode) && isSimulating == old(isSimulating) && ledState == old(ledState)
    {
      circuit := c;
      var code;
      if mode == Fossee {
        code := FosseeGenerator.Generate(c);
      } else {
        code := AdvancedGenerator.Generate(c);
      }
      generatedCode := code;
    }

    /** `handleComponentInteract`: while simulating, a press on a push button lights the
        LED and a release puts it out; any other interaction changes nothing. */
    method HandleComponentInteract(id: string, action: string)
      requires Valid()
      modifies this
      ensures Valid()
      ensures var target := FindById(circuit.components, id);
        var onButton := old(isSimulating) && target.Some? && target.value.ctype == Pushbutton;
        (onButton && action == PressAction ==> ledState)
        && (onButton && action == ReleaseAction ==> !ledState)
        && (!onButton || (action != PressAction && action != ReleaseAction) ==> ledState == old(ledState))
      ensures isSimulating == old(isSimulating) && mode == old(mode)
      ensures circuit == old(circuit) && generatedCode == old(generatedCode)
    {
      var target := FindById(circuit.components, id);
      if target.Some? && target.value.ctype == Pushbutton && isSimulating {
        if action == PressAction {
          ledState := true;
        } else if action == ReleaseAction {
          ledState := false;
        }
      }
    }

    /** `handleStart`: refused without a board, and in FOSSEE mode without a red LED and
        a push button; otherwise the simulation runs with the LED off. */
    method HandleStart() returns (started: bool)
      requires Valid()
      modifies this
      ensures Valid()
      ensures started == MayStart(mode, circuit)
      ensures started ==> isSimulating && !ledState
      ensures !started ==> isSimulating == old(isSimulating) && ledState == old(ledState)
      ensures mode == old(mode) && circuit == old(circuit) && generatedCode == old(generatedCode)
    {
      if circuit.microcontroller.None? {
        return false;
      }
      if mode == Fossee {
        var led := FindByType(circuit.components, LedRed);
        var button := FindByType(circuit.components, Pushbutton);
        if led.None? || button.None? {
          return false;
        }
      }
      isSimulating := true;
      ledState := false;
      started := true;
    }

    /** `handleStop`: the simulation stops and the LED is put out. */
    method HandleStop()
      modifies this
      ensures Valid()
      ensures !isSimulating && !ledState
      ensures mode == old(mode) && circuit == old(circuit) && generatedCode == old(generatedCode)
    {
      isSimulating := false;
      ledState := false;
    }
  }

  // ---------------------------------------------------------------------------
  // Properties

  /** The simulation can be started exactly when the mode's generator has something to
      generate: in FOSSEE mode a sketch rather than its placeholder, in advanced mode
      anything but the "add a microcontroller" placeholder. */
  lemma CanSimulateExactlyWhenGenerated(mode: Mode, circuit: Circuit)
    ensures CanSimulate(mode, circuit) <==> CodeFor(mode, circuit) != PlaceholderFor(mode)
  {
    match mode
    case Fossee => FosseeGenerator.PlaceholderExactly(circuit);
    case Advanced => AdvancedGenerator.PlaceholdersExactly(circuit);
  }

  /** In FOSSEE mode the start button's check and `canSimulate` agree; in advanced mode
      `canSimulate` is the stricter of the two. */
  lemma StartFollowsCanSimulate(mode: Mode, circuit: Circuit)
    ensures mode == Fossee ==> (MayStart(mode, circuit) <==> CanSimulate(mode, circuit))
    ensures CanSimulate(mode, circuit) ==> MayStart(mode, circuit)
  {
  }

  /** A board alone may be started in advanced mode although `canSimulate` is false:
      the start handler does not check the component count. */
  lemma BoardAloneStartsInAdvancedMode(board: Component)
    ensures MayStart(Advanced, Circuit([board], Some(board)))
    ensures !CanSimulate(Advanced, Circuit([board], Some(board)))
  {
  }

  /** The code shown before the first circuit change is what neither generator shows for
      the empty circuit. */
  lemma InitialCodeIsNotGenerated(mode: Mode)
    ensures InitialCode != CodeFor(mode, EmptyCircuit)
    ensures CodeFor(mode, EmptyCircuit) == PlaceholderFor(mode)
  {
    CanSimulateExactlyWhenGenerated(mode, EmptyCircuit);
    assert |InitialCode| == 34;
    assert |FosseeGenerator.Placeholder| != 34 && |AdvancedGenerator.NoBoardPlaceholder| != 34;
  }
}
