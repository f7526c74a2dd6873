/** The advanced sketch generator: every component other than the board is a
    peripheral, and the sketch is its header, its pin definitions, its `setup()` and
    its `loop()`, each generated from the peripherals in list order. */
module AdvancedGenerator {
  import opened Strings
  import opened Types
  import opened AdvancedHeader
  import opened AdvancedPins
  import opened AdvancedSetup
  import opened AdvancedLoop

  const NoBoardPlaceholder := "// Add a microcontroller and components to generate code"
  const NoPeripheralsPlaceholder := "// Add components to the canvas to generate Arduino code"

  // The fixed text between the sections.
  const HeaderGap := "\n\n"
  const SetupOpen := "\n\nvoid setup() {\n  Serial.begin(9600);\n"
  const LoopOpen := "\n}\n\nvoid loop() {\n"
  const LoopClose := "\n  delay(10);\n}"

  /** The components other than the board, that is, whose id differs from the board's,
      in list order. */
  function Peripherals(cs: seq<Component>, boardId: string): seq<Component>
  {
    if cs == [] then []
    else
      var init := Peripherals(cs[..|cs| - 1], boardId);
      if cs[|cs| - 1].id != boardId then init + [cs[|cs| - 1]] else init
  }

  /** The sketch template filled with the four generated texts. The header text ends
      in a line break of its own, so the template's two line breaks after it leave two
      empty lines before the pin definitions. */
  function Sketch(header: string, defs: string, setup: string, loop: string): string
  {
    header + HeaderGap + (defs + Functions(setup, loop))
  }

  /** The template after the pin definitions: `setup()` and `loop()` around their code. */
  function Functions(setup: string, loop: string): string
  {
    SetupOpen + setup + LoopOpen + loop + LoopClose
  }

  /** What `generate(circuit)` returns. */
  function AdvancedSketch(circuit: Circuit): string
  {
    if circuit.microcontroller.None? || |circuit.components| <= 1 then NoBoardPlaceholder
    else
      var board := circuit.microcontroller.value;
      var ps := Peripherals(circuit.components, board.id);
      if ps == [] then NoPeripheralsPlaceholder
      else Sketch(Text(HeaderLines(board.ctype, ps)), Text(DefinitionLines(ps)), Text(SetupLines(ps)), Text(LoopLines(ps)))
  }

  /** `generate(circuit)`. */
  method Generate(circuit: Circuit) returns (code: string)
    ensures code == AdvancedSketch(circuit)
  {
    if circuit.microcontroller.None? || |circuit.components| <= 1 {
      return NoBoardPlaceholder;
    }
    var board := circuit.microcontroller.value;
    var ps := Peripherals(circuit.components, board.id);
    if |ps| == 0 {
      return NoPeripheralsPlaceholder;
    }
    var defs := GeneratePinDefinitions(ps);
    var setup := GenerateSetup(ps);
    var loop := GenerateLoop(ps);
    var header := GenerateHeader(board.ctype, ps);
    code := header + HeaderGap + (defs + (SetupOpen + setup + LoopOpen + loop + LoopClose));
  }

  // ---------------------------------------------------------------------------
  // Properties

  /** The peripherals are exactly the components whose id is not the board's. */
  lemma {:induction false} PeripheralsExactly(cs: seq<Component>, boardId: string)
    ensures forall c :: c in Peripherals(cs, boardId) <==> c in cs && c.id != boardId
    ensures |Peripherals(cs, boardId)| <= |cs|
  {
    if cs != [] {
      var n := |cs| - 1;
      PeripheralsExactly(cs[..n], boardId);
      assert cs == cs[..n] + [cs[n]];
    }
  }

  /** A sketch is longer than its header's first line and the fixed text around the
      sections together. */
  lemma SketchLength(header: string, defs: string, setup: string, loop: string, ls: seq<string>)
    requires header == Text(ls) && ls != []
    ensures |Sketch(header, defs, setup, loop)| > |ls[0]| + |SetupOpen| + |LoopOpen| + |LoopClose|
  {
    TextFront(ls);
  }

  lemma HeaderTitle(board: ComponentType, ps: seq<Component>)
    ensures HeaderLines(board, ps) != [] && HeaderLines(board, ps)[0] == TitleLine
  {
  }

  /** The two placeholders differ (in the word before "code"), and both are shorter
      than the fixed text of any sketch. */
  lemma PlaceholdersDiffer()
    ensures |NoBoardPlaceholder| == |NoPeripheralsPlaceholder| == 56
    ensures NoBoardPlaceholder[50] != NoPeripheralsPlaceholder[50]
    ensures |TitleLine| + |SetupOpen| + |LoopOpen| + |LoopClose| > 56
  {
  }

  /** A generated sketch is neither placeholder. */
  lemma SketchIsNotPlaceholder(board: ComponentType, ps: seq<Component>)
    ensures var code := Sketch(Text(HeaderLines(board, ps)), Text(DefinitionLines(ps)), Text(SetupLines(ps)), Text(LoopLines(ps)));
      code != NoBoardPlaceholder && code != NoPeripheralsPlaceholder
  {
    PlaceholdersDiffer();
    HeaderTitle(board, ps);
    SketchLength(Text(HeaderLines(board, ps)), Text(DefinitionLines(ps)), Text(SetupLines(ps)),
      Text(LoopLines(ps)), HeaderLines(board, ps));
  }

  /** The first placeholder is returned exactly when there is no board or at most one
      component; the second exactly when there is a board and more than one component,
      all of them carrying the board's id; a sketch otherwise. */
  lemma PlaceholdersExactly(circuit: Circuit)
    ensures AdvancedSketch(circuit) == NoBoardPlaceholder
      <==> circuit.microcontroller.None? || |circuit.components| <= 1
    ensures AdvancedSketch(circuit) == NoPeripheralsPlaceholder
      <==> circuit.microcontroller.Some? && |circuit.components| > 1
           && forall i :: 0 <= i < |circuit.components| ==> circuit.components[i].id == circuit.microcontroller.value.id
  {
    PlaceholdersDiffer();
    if circuit.microcontroller.Some? && |circuit.components| > 1 {
      var board := circuit.microcontroller.value;
      var cs := circuit.components;
      var ps := Peripherals(cs, board.id);
      PeripheralsExactly(cs, board.id);
      if ps == [] {
        forall i | 0 <= i < |cs| ensures cs[i].id == board.id {
          assert cs[i] in cs;
        }
      } else {
        assert ps[0] in ps;
        SketchIsNotPlaceholder(board.ctype, ps);
      }
    }
  }

  /** The header of a sketch counts and lists the peripherals only: the board is never
      among the components it describes. */
  lemma HeaderListsPeripherals(circuit: Circuit)
    requires circuit.microcontroller.Some?
    ensures var board := circuit.microcontroller.value;
      var ps := Peripherals(circuit.components, board.id);
      var h := HeaderLines(board.ctype, ps);
      |h| == 5 + |ps| && h[2] == CountLine(|ps|)
      && forall i :: 0 <= i < |ps| ==> h[5 + i] == ComponentLine(ps[i], i) && ps[i].id != board.id
  {
    var board := circuit.microcontroller.value;
    var ps := Peripherals(circuit.components, board.id);
    PeripheralsExactly(circuit.components, board.id);
    HeaderListsComponents(board.ctype, ps);
    forall i | 0 <= i < |ps| ensures ps[i].id != board.id {
      assert ps[i] in ps;
    }
  }

  /** A board and a single peripheral make only the first placeholder: the count of
      components checked includes the board, and a lone component is never described
      even when it is not the board. */
  lemma LonePeripheralIgnored(board: Component, c: Component)
    requires c.id != board.id
    ensures AdvancedSketch(Circuit([c], Some(board))) == NoBoardPlaceholder
    ensures Peripherals([c], board.id) == [c]
  {
    assert [c][..0] == [];
  }

  /** The lines of a sketch: those of the header, two empty lines, and those of
      the rest. */
  lemma SketchSplit(h: seq<string>, defs: string, setup: string, loop: string)
    requires h != []
    ensures SplitLines(Sketch(Text(h), defs, setup, loop))
      == SplitLines(JoinLines(h)) + ["", ""] + SplitLines(defs + Functions(setup, loop))
  {
    var x := defs + Functions(setup, loop);
    var j := JoinLines(h);
    assert Text(h) == j + "\n";
    GapLines(j, x);
  }

  /** A line break followed by the template's two leaves two empty lines. */
  lemma GapLines(j: string, x: string)
    ensures SplitLines(j + "\n" + HeaderGap + x) == SplitLines(j) + ["", ""] + SplitLines(x)
  {
    assert j + "\n" + HeaderGap + x == j + "\n" + ("\n" + ("\n" + x));
    SplitLinesNewline(j, "\n" + ("\n" + x));
    assert ("\n" + ("\n" + x))[1..] == "\n" + x;
    assert ("\n" + x)[1..] == x;
  }

  /** The lines of a sketch over header lines `h` and definition lines `ds`: the
      header's lines, two empty lines, and, when no line holds a line break, the
      header lines themselves and the definition lines right after the empty ones. */
  lemma SketchLinesOpening(h: seq<string>, ds: seq<string>, setup: string, loop: string)
    requires h != []
    ensures var hs, ls := SplitLines(JoinLines(h)), SplitLines(Sketch(Text(h), Text(ds), setup, loop));
      |ls| >= |hs| + 2 && ls[..|hs| + 2] == hs + ["", ""]
      && (AllLines(h) ==> |ls| >= |h| + 2 && ls[..|h| + 2] == h + ["", ""])
      && (AllLines(h) && AllLines(ds) ==> |ls| >= |h| + 2 + |ds| && ls[|h| + 2..|h| + 2 + |ds|] == ds)
  {
    SketchSplit(h, Text(ds), setup, loop);
    var hs, ls := SplitLines(JoinLines(h)), SplitLines(Sketch(Text(h), Text(ds), setup, loop));
    var after := SplitLines(Text(ds) + Functions(setup, loop));
    assert ls == hs + ["", ""] + after;
    assert ls[..|hs| + 2] == hs + ["", ""];
    if AllLines(h) {
      SplitJoinLines(h);
      if AllLines(ds) {
        SplitLinesOfText(ds, Functions(setup, loop));
        assert after[..|ds|] == ds;
        assert ls[|h| + 2..|h| + 2 + |ds|] == after[..|ds|];
      }
    }
  }

  /** The sketch of a circuit with a board and a peripheral, as a filled template. */
  lemma SketchOfCircuit(circuit: Circuit)
    requires circuit.microcontroller.Some? && |circuit.components| > 1
    requires Peripherals(circuit.components, circuit.microcontroller.value.id) != []
    ensures var board := circuit.microcontroller.value;
      var ps := Peripherals(circuit.components, board.id);
      AdvancedSketch(circuit)
        == Sketch(Text(HeaderLines(board.ctype, ps)), Text(DefinitionLines(ps)), Text(SetupLines(ps)), Text(LoopLines(ps)))
  {
  }

  /** A generated sketch opens with the lines of its header and then two empty lines;
      when those lines hold no line break, they come back exactly. */
  lemma SketchOpening(circuit: Circuit)
    requires circuit.microcontroller.Some? && |circuit.components| > 1
    requires Peripherals(circuit.components, circuit.microcontroller.value.id) != []
    ensures var ps := Peripherals(circuit.components, circuit.microcontroller.value.id);
      var h, ls := HeaderLines(circuit.microcontroller.value.ctype, ps), SplitLines(AdvancedSketch(circuit));
      var hs := SplitLines(JoinLines(h));
      |ls| >= |hs| + 2 && ls[..|hs| + 2] == hs + ["", ""]
      && (AllLines(h) ==> |ls| >= |h| + 2 && ls[..|h| + 2] == h + ["", ""])
  {
    var board := circuit.microcontroller.value;
    var ps := Peripherals(circuit.components, board.id);
    var h, ds := HeaderLines(board.ctype, ps), DefinitionLines(ps);
    SketchOfCircuit(circuit);
    HeaderTitle(board.ctype, ps);
    SketchLinesOpening(h, ds, Text(SetupLines(ps)), Text(LoopLines(ps)));
  }
}
