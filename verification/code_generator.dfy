/** The fixed LED-and-button sketch generator: one template over the wiring
    engine's pin configuration. */
module CodeGenerator {
  import opened Strings
  import opened PinValidator

  /** The six lines that depend on the configuration: title, two pin comments, a
      blank line and the two pin declarations. */
  function Header(cfg: PinConfig): seq<string>
  {
    [ "// Auto-generated Arduino Code",
      "// LED connected to Digital Pin " + IntToString(cfg.led),
      "// Button connected to Digital Pin " + IntToString(cfg.button),
      "",
      DeclarationLine("LED_PIN", IntToString(cfg.led)),
      DeclarationLine("BUTTON_PIN", IntToString(cfg.button)) ]
  }

  /** The `setup` function of the sketch: LED pin as output, button pin as input, LED off. */
  const SetupBlock: seq<string> := [
    "void setup() {",
    "  // Initialize LED pin as output",
    "  pinMode(LED_PIN, OUTPUT);",
    "  ",
    "  // Initialize button pin as input",
    "  pinMode(BUTTON_PIN, INPUT);",
    "  ",
    "  // Start with LED off",
    "  digitalWrite(LED_PIN, LOW);",
    "}"]

  /** The `loop` function: the LED follows the button. */
  const LoopBlock: seq<string> := [
    "void loop() {",
    "  // Read the button state",
    "  int buttonState = digitalRead(BUTTON_PIN);",
    "  ",
    "  // If button is pressed (HIGH), turn LED on",
    "  if (buttonState == HIGH) {",
    "    digitalWrite(LED_PIN, HIGH);",
    "  } else {",
    "    // Otherwise, turn LED off",
    "    digitalWrite(LED_PIN, LOW);",
    "  }",
    "  ",
    "  // Small delay for stability",
    "  delay(10);",
    "}"]

  /** The 33 lines of the sketch. */
  function Lines(cfg: PinConfig): seq<string>
  {
    Header(cfg) + [""] + SetupBlock + [""] + LoopBlock
  }

  /** `generate(pinConfig)`: the sketch's lines joined by newlines, no final newline. */
  function Generate(cfg: PinConfig): string
  {
    JoinLines(Lines(cfg))
  }

  /** `generateHex(pinConfig)`: no compilation takes place; the sketch text is returned as is. */
  function GenerateHex(cfg: PinConfig): (r: string)
    ensures r == Generate(cfg)
  {
    Generate(cfg)
  }

  // The fixed lines contain no line break (checked a few lines at a time to keep
  // each proof small).

  lemma SetupLiteralsA()
    ensures NoNewline("void setup() {") && NoNewline("  // Initialize LED pin as output")
    ensures NoNewline("  pinMode(LED_PIN, OUTPUT);") && NoNewline("  ")
  {
  }

  lemma SetupLiteralsB()
    ensures NoNewline("  // Initialize button pin as input") && NoNewline("  pinMode(BUTTON_PIN, INPUT);")
    ensures NoNewline("  // Start with LED off") && NoNewline("  digitalWrite(LED_PIN, LOW);") && NoNewline("}")
  {
  }

  lemma SetupBlockLines()
    ensures AllLines(SetupBlock)
  {
    SetupLiteralsA();
    SetupLiteralsB();
  }

  lemma LoopLiteralsA()
    ensures NoNewline("void loop() {") && NoNewline("  // Read the button state")
    ensures NoNewline("  int buttonState = digitalRead(BUTTON_PIN);")
  {
  }

  lemma LoopLiteralsB()
    ensures NoNewline("  // If button is pressed (HIGH), turn LED on")
  {
    var s := "  // If button is pressed (HIGH), turn LED on";
    assert s == "  // If button is pressed " + "(HIGH), turn LED on";
    assert NoNewline("  // If button is pressed ");
    assert NoNewline("(HIGH), turn LED on");
    forall i | 0 <= i < |s| ensures s[i] != '\n' {
    }
  }

  lemma LoopLiteralsE()
    ensures NoNewline("  if (buttonState == HIGH) {")
  {
  }

  lemma LoopLiteralsC()
    ensures NoNewline("    digitalWrite(LED_PIN, HIGH);") && NoNewline("  } else {")
    ensures NoNewline("    // Otherwise, turn LED off") && NoNewline("    digitalWrite(LED_PIN, LOW);")
  {
  }

  lemma LoopLiteralsD()
    ensures NoNewline("  }") && NoNewline("  // Small delay for stability") && NoNewline("  delay(10);")
  {
  }

  lemma LoopBlockLines()
    ensures AllLines(LoopBlock)
  {
    SetupLiteralsA();
    SetupLiteralsB();
    LoopLiteralsA();
    LoopLiteralsB();
    LoopLiteralsC();
    LoopLiteralsD();
    LoopLiteralsE();
  }

  lemma CommentLiterals()
    ensures NoNewline("// Auto-generated Arduino Code") && NoNewline("//  Arduino Simulator")
    ensures NoNewline("// LED connected to Digital Pin ") && NoNewline("// Button connected to Digital Pin ")
  {
  }

  lemma HeaderLines(cfg: PinConfig)
    ensures AllLines(Header(cfg))
  {
    CommentLiterals();
    NoNewlineConcat("// LED connected to Digital Pin ", IntToString(cfg.led));
    NoNewlineConcat("// Button connected to Digital Pin ", IntToString(cfg.button));
    DeclarationLineNoNewline("LED_PIN", IntToString(cfg.led));
    DeclarationLineNoNewline("BUTTON_PIN", IntToString(cfg.button));
  }

  /** Read back line by line, the text is exactly the sketch's 33 lines. */
  lemma GeneratedLines(cfg: PinConfig)
    ensures SplitLines(Generate(cfg)) == Lines(cfg)
    ensures |SplitLines(Generate(cfg))| == 33
  {
    HeaderLines(cfg);
    SetupBlockLines();
    LoopBlockLines();
    assert AllLines([""]);
    AllLinesConcat(Header(cfg), [""]);
    AllLinesConcat(Header(cfg) + [""], SetupBlock);
    AllLinesConcat(Header(cfg) + [""] + SetupBlock, [""]);
    AllLinesConcat(Header(cfg) + [""] + SetupBlock + [""], LoopBlock);
    SplitJoinLines(Lines(cfg));
  }

  /** Lines that begin with the header declare the two pins there. */
  lemma HeaderDeclares(cfg: PinConfig, ls: seq<string>)
    requires |ls| >= 6 && ls[..6] == Header(cfg)
    ensures DeclaredValue(ls, "LED_PIN") == Some(IntToString(cfg.led))
    ensures DeclaredValue(ls, "BUTTON_PIN") == Some(IntToString(cfg.button))
  {
    var h := Header(cfg);
    assert ls[4] == h[4] && ls[5] == h[5];
    forall j | 0 <= j < 4 ensures |ls[j]| == 0 || ls[j][0] == '/' {
      assert ls[j] == h[j];
      if j == 0 { } else if j == 1 { } else if j == 2 { } else { assert j == 3; }
    }
    FirstDeclarations(ls, 4, "LED_PIN", IntToString(cfg.led), "BUTTON_PIN", IntToString(cfg.button));
  }

  /** The sketch declares `LED_PIN` and `BUTTON_PIN` with the configured pins: the first
      declaration of each name carries the decimal text that reads back as that pin. */
  lemma DeclaresConfiguredPins(cfg: PinConfig)
    ensures DeclaredValue(SplitLines(Generate(cfg)), "LED_PIN") == Some(IntToString(cfg.led))
    ensures DeclaredValue(SplitLines(Generate(cfg)), "BUTTON_PIN") == Some(IntToString(cfg.button))
    ensures ParseInt(DeclaredValue(SplitLines(Generate(cfg)), "LED_PIN").value) == Some(cfg.led)
    ensures ParseInt(DeclaredValue(SplitLines(Generate(cfg)), "BUTTON_PIN").value) == Some(cfg.button)
  {
    GeneratedLines(cfg);
    var ls := SplitLines(Generate(cfg));
    assert ls[..6] == Header(cfg);
    HeaderDeclares(cfg, ls);
    IntToStringRoundTrip(cfg.led);
    IntToStringRoundTrip(cfg.button);
  }

  /** The header comments name the LED's pin and then the button's pin. */
  lemma HeaderNamesPins(cfg: PinConfig)
    ensures |SplitLines(Generate(cfg))| == 33
    ensures SplitLines(Generate(cfg))[0] == "// Auto-generated Arduino Code"
    ensures SplitLines(Generate(cfg))[1] == "// LED connected to Digital Pin " + IntToString(cfg.led)
    ensures SplitLines(Generate(cfg))[2] == "// Button connected to Digital Pin " + IntToString(cfg.button)
  {
    GeneratedLines(cfg);
  }

  /** Setup makes the LED an output and the button an input and starts with the LED off;
      the loop reads the button and writes the LED HIGH when it reads HIGH, LOW otherwise.
      None of these lines depend on the configuration. */
  lemma LoopMirrorsButton(cfg: PinConfig)
    ensures |SplitLines(Generate(cfg))| == 33
    ensures SplitLines(Generate(cfg))[6..] == [""] + SetupBlock + [""] + LoopBlock
    ensures SplitLines(Generate(cfg))[9] == "  pinMode(LED_PIN, OUTPUT);"
    ensures SplitLines(Generate(cfg))[12] == "  pinMode(BUTTON_PIN, INPUT);"
    ensures SplitLines(Generate(cfg))[15] == "  digitalWrite(LED_PIN, LOW);"
    ensures SplitLines(Generate(cfg))[20] == "  int buttonState = digitalRead(BUTTON_PIN);"
    ensures SplitLines(Generate(cfg))[23..28] == [
      "  if (buttonState == HIGH) {",
      "    digitalWrite(LED_PIN, HIGH);",
      "  } else {",
      "    // Otherwise, turn LED off",
      "    digitalWrite(LED_PIN, LOW);"]
  {
    GeneratedLines(cfg);
  }

  /** Different configurations give different sketches: the text determines the pins. */
  lemma GenerateInjective(a: PinConfig, b: PinConfig)
    requires Generate(a) == Generate(b)
    ensures a == b
  {
    DeclaresConfiguredPins(a);
    DeclaresConfiguredPins(b);
  }
}
