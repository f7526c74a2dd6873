/** The FOSSEE sketch generator: finds the first red LED and the first push button
    of a circuit and fills the LED-and-button template with their pins. */
module FosseeGenerator {
  import opened Strings
  import opened Types
  import CodeGenerator
  import PinValidator

  const Placeholder := "// Add Arduino Uno, LED, and Push Button to generate code"

  /** `c.pins?.[key] || fallback`: the pin's value when present and truthy, else the fallback. */
  function PinOr(pins: Option<PinMap>, key: string, fallback: int): PinValue
  {
    if pins.Some? && Lookup(pins.value, key).Some? && Truthy(Lookup(pins.value, key).value)
    then Lookup(pins.value, key).value
    else Digital(fallback)
  }

  /** The pin written for the LED: its anode, defaulting to 10. */
  function LedPin(led: Component): PinValue
  {
    PinOr(led.pins, "anode", 10)
  }

  /** The pin written for the button: its `pin`, defaulting to 2. */
  function ButtonPin(button: Component): PinValue
  {
    PinOr(button.pins, "pin", 2)
  }

  /** The seven lines that depend on the two pins, given as the text `${pin}` produces. */
  function Header(led: string, button: string): seq<string>
  {
    [ "// Auto-generated Arduino Code",
      "//  Arduino Simulator",
      "// LED connected to Digital Pin " + led,
      "// Button connected to Digital Pin " + button,
      "",
      DeclarationLine("LED_PIN", led),
      DeclarationLine("BUTTON_PIN", button) ]
  }

  /** The `loop` of this template: as in the fixed sketch, with the writes commented
      "LED ON" and "LED OFF" and no comment before the else branch's write. */
  const LoopBlock: seq<string> := [
    "void loop() {",
    "  // Read the button state",
    "  int buttonState = digitalRead(BUTTON_PIN);",
    "  ",
    "  // If button is pressed (HIGH), turn LED on",
    "  if (buttonState == HIGH) {",
    "    digitalWrite(LED_PIN, HIGH);  // LED ON",
    "  } else {",
    "    digitalWrite(LED_PIN, LOW);   // LED OFF",
    "  }",
    "  ",
    "  // Small delay for stability",
    "  delay(10);",
    "}"]

  function SketchLines(led: string, button: string): seq<string>
  {
    Header(led, button) + [""] + CodeGenerator.SetupBlock + [""] + LoopBlock
  }

  function Sketch(led: string, button: string): string
  {
    JoinLines(SketchLines(led, button))
  }

  /** `generate(circuit)`. */
  function Generate(circuit: Circuit): string
  {
    var led := FindByType(circuit.components, LedRed);
    var button := FindByType(circuit.components, Pushbutton);
    if circuit.microcontroller.None? || led.None? || button.None? then Placeholder
    else Sketch(Render(LedPin(led.value)), Render(ButtonPin(button.value)))
  }

  /** Both present, the board and a circuit's first red LED and first push button. */
  predicate Complete(circuit: Circuit)
  {
    circuit.microcontroller.Some? && HasType(circuit.components, LedRed)
      && HasType(circuit.components, Pushbutton)
  }

  /** A present, truthy pin value is used as is; a missing map, a missing key, 0 or the
      empty string falls back to the default. */
  lemma PinOrFallback(pins: Option<PinMap>, key: string, fallback: int)
    ensures pins.Some? && Lookup(pins.value, key).Some? && Truthy(Lookup(pins.value, key).value)
      ==> PinOr(pins, key, fallback) == Lookup(pins.value, key).value
    ensures pins.None? || !HasKey(pins.value, key)
      || Lookup(pins.value, key) == Some(Digital(0)) || Lookup(pins.value, key) == Some(Analog(""))
      ==> PinOr(pins, key, fallback) == Digital(fallback)
    ensures fallback != 0 ==> Truthy(PinOr(pins, key, fallback))
  {
  }

  /** Every sketch is longer than the placeholder: its first three lines alone are. */
  lemma SketchLongerThanPlaceholder(led: string, button: string)
    ensures |Sketch(led, button)| > |Placeholder|
  {
    var ls := SketchLines(led, button);
    assert [ls[0]] + ls[1..] == ls;
    JoinLinesConcat([ls[0]], ls[1..]);
    assert [ls[1]] + ls[2..] == ls[1..];
    JoinLinesConcat([ls[1]], ls[2..]);
    assert [ls[2]] + ls[3..] == ls[2..];
    JoinLinesConcat([ls[2]], ls[3..]);
    assert |Text([ls[0]])| == |ls[0]| + 1 && |Text([ls[1]])| == |ls[1]| + 1 && |Text([ls[2]])| == |ls[2]| + 1;
    assert |ls[0]| == 30 && |ls[1]| == 21 && |ls[2]| >= 32;
  }

  /** The output is exactly the placeholder when the board, a red LED or a push button
      is missing, and a sketch otherwise. */
  lemma PlaceholderExactly(circuit: Circuit)
    ensures Generate(circuit) == Placeholder <==> !Complete(circuit)
  {
    if Complete(circuit) {
      var led := FindByType(circuit.components, LedRed);
      var button := FindByType(circuit.components, Pushbutton);
      SketchLongerThanPlaceholder(Render(LedPin(led.value)), Render(ButtonPin(button.value)));
    }
  }

  /** The LED and button used are the first of their tag in list order. */
  lemma UsesFirstLedAndButton(circuit: Circuit)
    requires Complete(circuit)
    ensures var cs := circuit.components;
      var i := FirstOfType(cs, LedRed);
      var j := FirstOfType(cs, Pushbutton);
      i < |cs| && j < |cs| && cs[i].ctype == LedRed && cs[j].ctype == Pushbutton
      && (forall k :: 0 <= k < i ==> cs[k].ctype != LedRed)
      && (forall k :: 0 <= k < j ==> cs[k].ctype != Pushbutton)
      && Generate(circuit) == Sketch(Render(LedPin(cs[i])), Render(ButtonPin(cs[j])))
  {
  }

  /** Outside the placeholder case the output depends only on the two resolved pins:
      other components, positions and the board's identity do not affect it. */
  lemma DependsOnlyOnResolvedPins(c1: Circuit, c2: Circuit)
    requires Complete(c1) && Complete(c2)
    requires LedPin(FindByType(c1.components, LedRed).value) == LedPin(FindByType(c2.components, LedRed).value)
    requires ButtonPin(FindByType(c1.components, Pushbutton).value)
      == ButtonPin(FindByType(c2.components, Pushbutton).value)
    ensures Generate(c1) == Generate(c2)
  {
  }

  /** Two circuits get the same code when both or neither are complete and, when they
      are, their first LED and first button resolve to the same pins. */
  lemma SameCode(c1: Circuit, c2: Circuit)
    requires Complete(c1) == Complete(c2)
    requires Complete(c1) ==>
      LedPin(FindByType(c1.components, LedRed).value) == LedPin(FindByType(c2.components, LedRed).value)
      && ButtonPin(FindByType(c1.components, Pushbutton).value)
         == ButtonPin(FindByType(c2.components, Pushbutton).value)
    ensures Generate(c1) == Generate(c2)
  {
    if Complete(c1) {
      DependsOnlyOnResolvedPins(c1, c2);
    }
  }

  lemma HeaderLines(led: string, button: string)
    requires NoNewline(led) && NoNewline(button)
    ensures AllLines(Header(led, button))
  {
    CodeGenerator.CommentLiterals();
    NoNewlineConcat("// LED connected to Digital Pin ", led);
    NoNewlineConcat("// Button connected to Digital Pin ", button);
    DeclarationLineNoNewline("LED_PIN", led);
    DeclarationLineNoNewline("BUTTON_PIN", button);
  }

  /** Read back line by line, the sketch begins with its seven header lines. */
  lemma SketchHeader(led: string, button: string)
    requires NoNewline(led) && NoNewline(button)
    ensures |SplitLines(Sketch(led, button))| >= 7
    ensures SplitLines(Sketch(led, button))[..7] == Header(led, button)
  {
    var h := Header(led, button);
    var rest := [""] + CodeGenerator.SetupBlock + [""] + LoopBlock;
    assert SketchLines(led, button) == h + rest;
    JoinLinesConcat(h, rest);
    HeaderLines(led, button);
    SplitLinesOfText(h, JoinLines(rest));
  }

  lemma HeaderDeclares(led: string, button: string, ls: seq<string>)
    requires |ls| >= 7 && ls[..7] == Header(led, button)
    ensures DeclaredValue(ls, "LED_PIN") == Some(led)
    ensures DeclaredValue(ls, "BUTTON_PIN") == Some(button)
  {
    var h := Header(led, button);
    assert ls[5] == h[5] && ls[6] == h[6];
    forall j | 0 <= j < 5 ensures |ls[j]| == 0 || ls[j][0] == '/' {
      assert ls[j] == h[j];
      if j == 0 { } else if j == 1 { } else if j == 2 { } else if j == 3 { } else { assert j == 4; }
    }
    FirstDeclarations(ls, 5, "LED_PIN", led, "BUTTON_PIN", button);
  }

  /** A complete circuit's sketch declares `LED_PIN` and `BUTTON_PIN` with the resolved
      pins (a pin value is written as is, so this assumes it holds no line break). */
  lemma DeclaresResolvedPins(circuit: Circuit)
    requires Complete(circuit)
    requires NoNewline(Render(LedPin(FindByType(circuit.components, LedRed).value)))
    requires NoNewline(Render(ButtonPin(FindByType(circuit.components, Pushbutton).value)))
    ensures var ls := SplitLines(Generate(circuit));
      DeclaredValue(ls, "LED_PIN") == Some(Render(LedPin(FindByType(circuit.components, LedRed).value)))
      && DeclaredValue(ls, "BUTTON_PIN") == Some(Render(ButtonPin(FindByType(circuit.components, Pushbutton).value)))
  {
    var l := Render(LedPin(FindByType(circuit.components, LedRed).value));
    var b := Render(ButtonPin(FindByType(circuit.components, Pushbutton).value));
    SketchHeader(l, b);
    HeaderDeclares(l, b, SplitLines(Sketch(l, b)));
  }

  /** With digital pins on both, the sketch declares the same pins the fixed generator
      declares for that configuration, and they read back as those numbers. */
  lemma AgreesWithFixedGenerator(circuit: Circuit, led: int, button: int)
    requires Complete(circuit)
    requires LedPin(FindByType(circuit.components, LedRed).value) == Digital(led)
    requires ButtonPin(FindByType(circuit.components, Pushbutton).value) == Digital(button)
    ensures var ls := SplitLines(Generate(circuit));
      var fixed := SplitLines(CodeGenerator.Generate(PinValidator.PinConfig(led, button)));
      DeclaredValue(ls, "LED_PIN") == DeclaredValue(fixed, "LED_PIN")
      && DeclaredValue(ls, "BUTTON_PIN") == DeclaredValue(fixed, "BUTTON_PIN")
      && DeclaredValue(ls, "LED_PIN").Some? && ParseInt(DeclaredValue(ls, "LED_PIN").value) == Some(led)
      && DeclaredValue(ls, "BUTTON_PIN").Some? && ParseInt(DeclaredValue(ls, "BUTTON_PIN").value) == Some(button)
  {
    DeclaresResolvedPins(circuit);
    CodeGenerator.DeclaresConfiguredPins(PinValidator.PinConfig(led, button));
  }

  // The fixed lines of this template's loop contain no line break (the two commented
  // writes are checked in halves to keep each proof small).

  lemma WriteLiterals()
    ensures NoNewline("    digitalWrite(LED_PIN, HIGH);  // LED ON")
    ensures NoNewline("    digitalWrite(LED_PIN, LOW);   // LED OFF")
  {
    var on, off := "    digitalWrite(LED_PIN, HIGH);  // LED ON", "    digitalWrite(LED_PIN, LOW);   // LED OFF";
    assert on == "    digitalWrite(LED_PIN, HIGH);" + "  // LED ON";
    assert off == "    digitalWrite(LED_PIN, LOW);" + "   // LED OFF";
    CodeGenerator.LoopLiteralsC();
    assert NoNewline("  // LED ON") && NoNewline("   // LED OFF");
    NoNewlineConcat("    digitalWrite(LED_PIN, HIGH);", "  // LED ON");
    NoNewlineConcat("    digitalWrite(LED_PIN, LOW);", "   // LED OFF");
  }

  lemma LoopBlockLines()
    ensures AllLines(LoopBlock)
  {
    CodeGenerator.SetupLiteralsA();
    CodeGenerator.LoopLiteralsA();
    CodeGenerator.LoopLiteralsB();
    CodeGenerator.LoopLiteralsC();
    CodeGenerator.LoopLiteralsD();
    CodeGenerator.LoopLiteralsE();
    WriteLiterals();
  }

  /** Everything after the header: an empty line, the setup, an empty line, the loop. */
  const Body: seq<string> := [""] + CodeGenerator.SetupBlock + [""] + LoopBlock

  /** Read back line by line, the sketch ends with its 26 fixed lines, whatever text
      the pins are written as. */
  lemma SketchTail(led: string, button: string)
    ensures SplitLines(Sketch(led, button)) == SplitLines(JoinLines(Header(led, button))) + Body
    ensures var ls := SplitLines(Sketch(led, button)); |ls| >= 26 && ls[|ls| - 26..] == Body
  {
    var h := Header(led, button);
    assert SketchLines(led, button) == h + Body;
    JoinLinesConcat(h, Body);
    assert Text(h) == JoinLines(h) + "\n";
    CodeGenerator.SetupBlockLines();
    LoopBlockLines();
    AllLinesConcat([""], CodeGenerator.SetupBlock);
    AllLinesConcat([""] + CodeGenerator.SetupBlock, [""]);
    AllLinesConcat([""] + CodeGenerator.SetupBlock + [""], LoopBlock);
    SplitLinesNewline(JoinLines(h), JoinLines(Body));
    SplitJoinLines(Body);
    var ls := SplitLines(Sketch(led, button));
    assert ls[|ls| - 26..] == Body;
  }

  /** The lines of interest in any line list that ends with the fixed lines. */
  lemma EndsWithBody(ls: seq<string>)
    requires |ls| >= 26 && ls[|ls| - 26..] == Body
    ensures var n := |ls|;
      ls[n - 23] == "  pinMode(LED_PIN, OUTPUT);"
      && ls[n - 20] == "  pinMode(BUTTON_PIN, INPUT);"
      && ls[n - 17] == "  digitalWrite(LED_PIN, LOW);"
      && ls[n - 12] == "  int buttonState = digitalRead(BUTTON_PIN);"
      && ls[n - 9] == "  if (buttonState == HIGH) {"
      && ls[n - 8] == "    digitalWrite(LED_PIN, HIGH);  // LED ON"
      && ls[n - 7] == "  } else {"
      && ls[n - 6] == "    digitalWrite(LED_PIN, LOW);   // LED OFF"
  {
    var n := |ls|;
    assert ls[n - 23] == Body[3] && ls[n - 20] == Body[6] && ls[n - 17] == Body[9];
    assert ls[n - 12] == Body[14] && ls[n - 9] == Body[17] && ls[n - 8] == Body[18];
    assert ls[n - 7] == Body[19] && ls[n - 6] == Body[20];
  }

  /** For a complete circuit, setup makes the LED an output and the button an input and
      starts with the LED off; the loop reads the button and writes the LED HIGH when
      it reads HIGH and LOW otherwise. These lines close the sketch whatever the pins. */
  lemma LoopMirrorsButton(circuit: Circuit)
    requires Complete(circuit)
    ensures var ls := SplitLines(Generate(circuit));
      var n := |ls|;
      n >= 26 && ls[n - 26..] == Body
      && ls[n - 23] == "  pinMode(LED_PIN, OUTPUT);"
      && ls[n - 20] == "  pinMode(BUTTON_PIN, INPUT);"
      && ls[n - 17] == "  digitalWrite(LED_PIN, LOW);"
      && ls[n - 12] == "  int buttonState = digitalRead(BUTTON_PIN);"
      && ls[n - 9] == "  if (buttonState == HIGH) {"
      && ls[n - 8] == "    digitalWrite(LED_PIN, HIGH);  // LED ON"
      && ls[n - 7] == "  } else {"
      && ls[n - 6] == "    digitalWrite(LED_PIN, LOW);   // LED OFF"
  {
    GeneratedTail(circuit);
    EndsWithBody(SplitLines(Generate(circuit)));
  }

  /** A complete circuit's sketch ends with the fixed lines. */
  lemma GeneratedTail(circuit: Circuit)
    requires Complete(circuit)
    ensures var ls := SplitLines(Generate(circuit)); |ls| >= 26 && ls[|ls| - 26..] == Body
  {
    var l := Render(LedPin(FindByType(circuit.components, LedRed).value));
    var b := Render(ButtonPin(FindByType(circuit.components, Pushbutton).value));
    assert Generate(circuit) == Sketch(l, b);
    SketchTail(l, b);
  }
}
