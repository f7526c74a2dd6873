/** The body of `loop()` in the advanced sketch: the inputs are read, the outputs are
    driven from them (or blinked), and a fallback comment is written when neither
    section has anything to say. */
module AdvancedLoop {
  import opened Strings
  import opened Types
  import opened AdvancedNames
  import opened AdvancedPins

  // ---------------------------------------------------------------------------
  // Inputs and outputs

  /** The tags the loop reads as inputs. The ultrasonic sensor is not one of them. */
  predicate IsInput(t: ComponentType)
  {
    t == Pushbutton || t == SlideSwitch || t == DipSwitch8 || t == Potentiometer
      || t == PirSensor || t == Dht22
  }

  /** The tags the loop drives: every tag whose name contains "led", the buzzer and
      the relay. */
  predicate IsOutput(t: ComponentType)
  {
    NamesLed(t) || t == Buzzer || t == RelayModule
  }

  /** `filter`: the peripherals whose tag is kept, in list order. */
  function Select(cs: seq<Component>, keep: ComponentType -> bool): seq<Component>
  {
    if cs == [] then []
    else Select(cs[..|cs| - 1], keep) + (if keep(cs[|cs| - 1].ctype) then [cs[|cs| - 1]] else [])
  }

  /** The inputs among the peripherals, in list order. */
  function Inputs(cs: seq<Component>): seq<Component>
  {
    Select(cs, IsInput)
  }

  /** The outputs among the peripherals, in list order. */
  function Outputs(cs: seq<Component>): seq<Component>
  {
    Select(cs, IsOutput)
  }

  /** `outputs.find(c => c.type.includes('led'))`, as the position of the first LED
      among the outputs, or the length of the list when there is none. */
  function FirstLed(outs: seq<Component>): (i: nat)
    ensures i <= |outs|
    ensures i < |outs| ==> NamesLed(outs[i].ctype)
    ensures forall j :: 0 <= j < i ==> !NamesLed(outs[j].ctype)
  {
    if outs == [] || NamesLed(outs[0].ctype) then 0 else 1 + FirstLed(outs[1..])
  }

  // ---------------------------------------------------------------------------
  // The lines

  const ReadHeader := "  // Read Inputs"
  const ControlHeader := "  // Control Outputs"
  const BlinkHeader := "  // Blink Pattern"
  const DelayLine := "  delay(500);"
  const ElseLine := "  } else {"
  const CloseLine := "  }"
  const UltrasonicHeader := "  // Ultrasonic Distance Measurement"
  const FallbackLine := "  // Add components to generate control logic"
  const High := "HIGH"
  const Low := "LOW"

  /** The variable holding the state of the push button at position k of the inputs. */
  function ButtonState(k: nat): string
  {
    "button" + NatToString(k) + "State"
  }

  function ButtonReadLine(k: nat, v: string): string
  {
    "  int " + ButtonState(k) + " = digitalRead(" + v + ");"
  }

  function PotReadLine(k: nat, v: string): string
  {
    "  int pot" + NatToString(k) + "Value = analogRead(" + v + ");"
  }

  function MotionReadLine(k: nat, v: string): string
  {
    "  int motion" + NatToString(k) + " = digitalRead(" + v + ");"
  }

  /** The DHT22 is only commented on: the reads are written as comments. */
  function DhtLines(k: nat, v: string): seq<string>
  {
    [ "  // Read DHT22 sensor on pin " + v,
      "  // float temp" + NatToString(k) + " = dht.readTemperature();",
      "  // float humidity" + NatToString(k) + " = dht.readHumidity();" ]
  }

  /** The lines reading the input c at position k of the inputs; the variable read is
      named after the `pin` pin and the position among the inputs. Switches are not read. */
  function ReadFor(c: Component, k: nat): seq<string>
  {
    var v := PinVariableName(c.ctype, SignalPin, k);
    if c.ctype == Pushbutton then [ButtonReadLine(k, v)]
    else if c.ctype == Potentiometer then [PotReadLine(k, v)]
    else if c.ctype == PirSensor then [MotionReadLine(k, v)]
    else if c.ctype == Dht22 then DhtLines(k, v)
    else []
  }

  function ReadsOf(ins: seq<Component>): seq<string>
  {
    if ins == [] then [] else ReadsOf(ins[..|ins| - 1]) + ReadFor(ins[|ins| - 1], |ins| - 1)
  }

  /** The reading section: a heading, the reads and an empty line, when there are inputs. */
  function ReadSection(ins: seq<Component>): seq<string>
  {
    if ins == [] then [] else [ReadHeader] + ReadsOf(ins) + [""]
  }

  function WriteLine(v: string, level: string): string
  {
    "  digitalWrite(" + v + ", " + level + ");"
  }

  /** The variable of the anode of the output c at position k of the outputs. */
  function LedVar(c: Component, k: nat): string
  {
    PinVariableName(c.ctype, AnodePin, k)
  }

  function MirrorTest(state: string): string
  {
    "  if (" + state + " == HIGH) {"
  }

  function MirrorOn(led: string): string
  {
    "    digitalWrite(" + led + ", HIGH);  // Turn LED ON"
  }

  function MirrorOff(led: string): string
  {
    "    digitalWrite(" + led + ", LOW);   // Turn LED OFF"
  }

  /** The LED follows the button: on while the button reads HIGH, off otherwise. */
  function MirrorLines(state: string, led: string): seq<string>
  {
    [MirrorTest(state), MirrorOn(led), ElseLine, MirrorOff(led), CloseLine]
  }

  /** One write of the given level per LED among the outputs, in order. */
  function LevelLines(outs: seq<Component>, level: string): seq<string>
  {
    if outs == [] then []
    else
      var k := |outs| - 1;
      LevelLines(outs[..k], level) + (if NamesLed(outs[k].ctype) then [WriteLine(LedVar(outs[k], k), level)] else [])
  }

  /** Each LED among the outputs blinked in turn: on, wait, off, wait. */
  function BlinkEach(outs: seq<Component>): seq<string>
  {
    if outs == [] then []
    else
      var k := |outs| - 1;
      BlinkEach(outs[..k]) + (if NamesLed(outs[k].ctype) then BlinkOne(LedVar(outs[k], k)) else [])
  }

  /** One LED blinked: on, wait, off, wait. */
  function BlinkOne(v: string): seq<string>
  {
    [WriteLine(v, High), DelayLine, WriteLine(v, Low), DelayLine]
  }

  /** The control section. With inputs and outputs, the first push button drives the
      first LED when both exist, and otherwise each LED blinks in turn; with outputs
      only, all LEDs blink together. Neither LED variable is named after the LED's
      position among the peripherals: it is its position among the outputs. */
  function ControlLines(ins: seq<Component>, outs: seq<Component>): seq<string>
  {
    if |outs| > 0 && |ins| > 0 then [ControlHeader] + Response(ins, outs)
    else if |outs| > 0 then BlinkPattern(outs)
    else []
  }

  /** What follows the heading of the control section when there are inputs. */
  function Response(ins: seq<Component>, outs: seq<Component>): seq<string>
  {
    if HasType(ins, Pushbutton) && FirstLed(outs) < |outs| then
      MirrorLines(ButtonState(FirstOfType(ins, Pushbutton)), LedVar(outs[FirstLed(outs)], FirstLed(outs)))
    else if |outs| > 0 then BlinkEach(outs)
    else []
  }

  /** All LEDs on, wait, all LEDs off, wait. */
  function BlinkPattern(outs: seq<Component>): seq<string>
  {
    [BlinkHeader] + LevelLines(outs, High) + [DelayLine] + LevelLines(outs, Low) + [DelayLine]
  }

  /** The distance measurement of the first ultrasonic sensor among the inputs. */
  function UltrasonicBlock(trig: string, echo: string): seq<string>
  {
    [ "", UltrasonicHeader,
      WriteLine(trig, Low), "  delayMicroseconds(2);",
      WriteLine(trig, High), "  delayMicroseconds(10);",
      WriteLine(trig, Low),
      "  long duration = pulseIn(" + echo + ", HIGH);",
      "  float distance = duration * 0.034 / 2; // cm",
      "  Serial.print(\"Distance: \");",
      "  Serial.print(distance);",
      "  Serial.println(\" cm\");" ]
  }

  function UltrasonicLines(ins: seq<Component>): seq<string>
  {
    if HasType(ins, HcSr04) then
      var k := FirstOfType(ins, HcSr04);
      UltrasonicBlock(PinVariableName(HcSr04, TrigPin, k), PinVariableName(HcSr04, EchoPin, k))
    else []
  }

  function Body(ins: seq<Component>, outs: seq<Component>): seq<string>
  {
    ReadSection(ins) + ControlLines(ins, outs) + UltrasonicLines(ins)
  }

  /** The lines of `loop()` for the peripherals cs: the sections, or the fallback
      comment when they are all empty. */
  function LoopLines(cs: seq<Component>): seq<string>
  {
    var b := Body(Inputs(cs), Outputs(cs));
    if b == [] then [FallbackLine] else b
  }

  // ---------------------------------------------------------------------------
  // Generation

  /** Appends lines, each followed by a line break, to text holding the lines `pre`. */
  method AppendLines(text0: string, ghost pre: seq<string>, ls: seq<string>) returns (text: string)
    requires text0 == Text(pre)
    ensures text == Text(pre + ls)
  {
    text := text0;
    var i := 0;
    assert pre + ls[..0] == pre;
    while i < |ls|
      invariant 0 <= i <= |ls|
      invariant text == Text(pre + ls[..i])
    {
      TextSnoc(pre + ls[..i], ls[i]);
      assert (pre + ls[..i]) + [ls[i]] == pre + ls[..i + 1];
      text := text + ls[i] + "\n";
      i := i + 1;
    }
    assert ls[..|ls|] == ls;
  }

  method ReadInputs(ins: seq<Component>) returns (text: string)
    ensures text == Text(ReadsOf(ins))
  {
    text := "";
    ghost var done: seq<string> := [];
    var k := 0;
    while k < |ins|
      invariant 0 <= k <= |ins|
      invariant done == ReadsOf(ins[..k])
      invariant text == Text(done)
    {
      var more := ReadFor(ins[k], k);
      ReadsOfSnoc(ins, k);
      text := AppendLines(text, done, more);
      done := done + more;
      k := k + 1;
    }
    assert ins[..|ins|] == ins;
  }

  lemma ReadsOfSnoc(ins: seq<Component>, k: nat)
    requires k < |ins|
    ensures ReadsOf(ins[..k + 1]) == ReadsOf(ins[..k]) + ReadFor(ins[k], k)
  {
    assert ins[..k + 1][..k] == ins[..k];
  }

  method WriteLevel(outs: seq<Component>, level: string) returns (text: string)
    ensures text == Text(LevelLines(outs, level))
  {
    text := "";
    ghost var done: seq<string> := [];
    var k := 0;
    while k < |outs|
      invariant 0 <= k <= |outs|
      invariant done == LevelLines(outs[..k], level)
      invariant text == Text(done)
    {
      LevelLinesSnoc(outs, k, level);
      if NamesLed(outs[k].ctype) {
        var line := WriteLine(LedVar(outs[k], k), level);
        TextSnoc(done, line);
        text := text + line + "\n";
        done := done + [line];
      }
      k := k + 1;
    }
    assert outs[..|outs|] == outs;
  }

  lemma LevelLinesSnoc(outs: seq<Component>, k: nat, level: string)
    requires k < |outs|
    ensures LevelLines(outs[..k + 1], level)
      == LevelLines(outs[..k], level) + (if NamesLed(outs[k].ctype) then [WriteLine(LedVar(outs[k], k), level)] else [])
  {
    assert outs[..k + 1][..k] == outs[..k];
  }

  method BlinkLeds(outs: seq<Component>) returns (text: string)
    ensures text == Text(BlinkEach(outs))
  {
    text := "";
    ghost var done: seq<string> := [];
    var k := 0;
    while k < |outs|
      invariant 0 <= k <= |outs|
      invariant done == BlinkEach(outs[..k])
      invariant text == Text(done)
    {
      BlinkEachSnoc(outs, k);
      if NamesLed(outs[k].ctype) {
        var more := BlinkOne(LedVar(outs[k], k));
        text := AppendLines(text, done, more);
        done := done + more;
      }
      k := k + 1;
    }
    assert outs[..|outs|] == outs;
  }

  lemma BlinkEachSnoc(outs: seq<Component>, k: nat)
    requires k < |outs|
    ensures BlinkEach(outs[..k + 1])
      == BlinkEach(outs[..k]) + (if NamesLed(outs[k].ctype) then BlinkOne(LedVar(outs[k], k)) else [])
  {
    assert outs[..k + 1][..k] == outs[..k];
  }

  /** The text of a heading, some lines and a closing line. */
  lemma TextAround(h: string, mid: seq<string>, t: string)
    ensures Text([h] + mid + [t]) == h + "\n" + Text(mid) + t + "\n"
  {
    TextSnoc([], h);
    assert [] + [h] == [h];
    TextConcat([h], mid);
    TextSnoc([h] + mid, t);
  }

  method GenerateReadSection(ins: seq<Component>) returns (text: string)
    ensures text == Text(ReadSection(ins))
  {
    text := "";
    if |ins| > 0 {
      text := ReadHeader + "\n";
      var lines := ReadInputs(ins);
      text := text + lines + "\n";
      TextAround(ReadHeader, ReadsOf(ins), "");
    }
  }

  method GenerateBlinkPattern(outs: seq<Component>) returns (text: string)
    ensures text == Text(BlinkPattern(outs))
  {
    var highs := WriteLevel(outs, High);
    var lows := WriteLevel(outs, Low);
    text := BlinkHeader + "\n" + highs + DelayLine + "\n" + lows + DelayLine + "\n";
    ghost var a := [BlinkHeader] + LevelLines(outs, High) + [DelayLine];
    TextAround(BlinkHeader, LevelLines(outs, High), DelayLine);
    TextConcat(a, LevelLines(outs, Low) + [DelayLine]);
    TextSnoc(LevelLines(outs, Low), DelayLine);
    assert BlinkPattern(outs) == a + (LevelLines(outs, Low) + [DelayLine]);
  }

  method GenerateResponse(ins: seq<Component>, outs: seq<Component>) returns (text: string)
    ensures text == Text(Response(ins, outs))
  {
    text := "";
    var l := FirstLed(outs);
    if HasType(ins, Pushbutton) && l < |outs| {
      var b := FirstOfType(ins, Pushbutton);
      text := AppendLines(text, [], MirrorLines(ButtonState(b), LedVar(outs[l], l)));
      assert [] + MirrorLines(ButtonState(b), LedVar(outs[l], l)) == MirrorLines(ButtonState(b), LedVar(outs[l], l));
    } else if |outs| > 0 {
      text := BlinkLeds(outs);
    }
  }

  method GenerateControl(ins: seq<Component>, outs: seq<Component>) returns (text: string)
    ensures text == Text(ControlLines(ins, outs))
  {
    text := "";
    if |outs| > 0 && |ins| > 0 {
      var response := GenerateResponse(ins, outs);
      text := ControlHeader + "\n" + response;
      TextConcat([ControlHeader], Response(ins, outs));
      TextSnoc([], ControlHeader);
      assert [] + [ControlHeader] == [ControlHeader];
    } else if |outs| > 0 {
      text := GenerateBlinkPattern(outs);
    }
  }

  method GenerateUltrasonic(ins: seq<Component>) returns (text: string)
    ensures text == Text(UltrasonicLines(ins))
  {
    text := "";
    if HasType(ins, HcSr04) {
      var k := FirstOfType(ins, HcSr04);
      var trig := PinVariableName(HcSr04, TrigPin, k);
      var echo := PinVariableName(HcSr04, EchoPin, k);
      text := AppendLines(text, [], UltrasonicBlock(trig, echo));
      assert [] + UltrasonicBlock(trig, echo) == UltrasonicBlock(trig, echo);
    }
  }

  /** `generateLoopCode(components)`: the text of the sections, or the fallback line
      when that text is empty. */
  method GenerateLoop(cs: seq<Component>) returns (loop: string)
    ensures loop == Text(LoopLines(cs))
  {
    var ins := Inputs(cs);
    var outs := Outputs(cs);
    var readText := GenerateReadSection(ins);
    var control := GenerateControl(ins, outs);
    var ultrasonic := GenerateUltrasonic(ins);
    loop := readText + control + ultrasonic;
    TextConcat(ReadSection(ins), ControlLines(ins, outs));
    TextConcat(ReadSection(ins) + ControlLines(ins, outs), UltrasonicLines(ins));
    TextEmpty(Body(ins, outs));
    if loop == "" {
      loop := FallbackLine + "\n";
      TextSnoc([], FallbackLine);
      assert [] + [FallbackLine] == [FallbackLine];
    }
  }

  // ---------------------------------------------------------------------------
  // Properties

  /** The output tags, with the substring test on the tag resolved: the LEDs (the
      RGB LED among them), the buzzer and the relay. */
  predicate IsOutputTag(t: ComponentType)
  {
    IsLedTag(t) || t == Buzzer || t == RelayModule
  }

  lemma OutputTags()
    ensures forall t :: IsOutput(t) <==> IsOutputTag(t)
    ensures forall t :: NamesLed(t) <==> IsLedTag(t)
  {
    forall t ensures NamesLed(t) <==> IsLedTag(t) {
      LedTags(t);
    }
  }

  /** The selection holds exactly the peripherals whose tag is kept. */
  lemma {:induction false} SelectMembers(cs: seq<Component>, keep: ComponentType -> bool)
    ensures forall c :: c in Select(cs, keep) <==> c in cs && keep(c.ctype)
  {
    if cs != [] {
      var n := |cs| - 1;
      SelectMembers(cs[..n], keep);
      assert cs == cs[..n] + [cs[n]];
    }
  }

  /** Where the peripheral at position i appears in the selection. */
  lemma {:induction false} SelectAt(cs: seq<Component>, keep: ComponentType -> bool, i: nat) returns (a: nat)
    requires i < |cs| && keep(cs[i].ctype)
    ensures a < |Select(cs, keep)| && Select(cs, keep)[a] == cs[i]
  {
    var n := |cs| - 1;
    if i < n {
      var init := cs[..n];
      assert init[i] == cs[i];
      a := SelectAt(init, keep, i);
    } else {
      a := |Select(cs[..n], keep)|;
    }
  }

  /** Where the peripherals at positions i < j appear in the selection: in the same order. */
  lemma {:induction false} SelectPairAt(cs: seq<Component>, keep: ComponentType -> bool, i: nat, j: nat)
    returns (a: nat, b: nat)
    requires i < j < |cs| && keep(cs[i].ctype) && keep(cs[j].ctype)
    ensures a < b < |Select(cs, keep)| && Select(cs, keep)[a] == cs[i] && Select(cs, keep)[b] == cs[j]
  {
    var n := |cs| - 1;
    var init := cs[..n];
    assert init[i] == cs[i];
    if j < n {
      assert init[j] == cs[j];
      a, b := SelectPairAt(init, keep, i, j);
    } else {
      a := SelectAt(init, keep, i);
      b := |Select(init, keep)|;
    }
  }

  /** x occurs in s at an earlier position than y. */
  predicate Before(s: seq<Component>, x: Component, y: Component)
  {
    exists a, b :: 0 <= a < b < |s| && s[a] == x && s[b] == y
  }

  /** The selection keeps the order of the peripherals. */
  lemma SelectInOrder(cs: seq<Component>, keep: ComponentType -> bool)
    ensures forall i, j :: 0 <= i < j < |cs| && keep(cs[i].ctype) && keep(cs[j].ctype) ==>
              Before(Select(cs, keep), cs[i], cs[j])
  {
    forall i, j | 0 <= i < j < |cs| && keep(cs[i].ctype) && keep(cs[j].ctype)
      ensures Before(Select(cs, keep), cs[i], cs[j])
    {
      var a, b := SelectPairAt(cs, keep, i, j);
    }
  }

  /** The inputs are exactly the peripherals with an input tag. */
  lemma InputsExactly(cs: seq<Component>)
    ensures forall c :: c in Inputs(cs) <==> c in cs && IsInput(c.ctype)
  {
    SelectMembers(cs, IsInput);
    assert Inputs(cs) == Select(cs, IsInput);
  }

  /** The inputs keep the order of the peripherals. */
  lemma InputsInOrder(cs: seq<Component>)
    ensures forall i, j :: 0 <= i < j < |cs| && IsInput(cs[i].ctype) && IsInput(cs[j].ctype) ==>
              Before(Inputs(cs), cs[i], cs[j])
  {
    SelectInOrder(cs, IsInput);
    assert Inputs(cs) == Select(cs, IsInput);
  }

  /** The outputs are exactly the peripherals with an output tag. */
  lemma OutputsExactly(cs: seq<Component>)
    ensures forall c :: c in Outputs(cs) <==> c in cs && IsOutputTag(c.ctype)
  {
    OutputTags();
    SelectMembers(cs, IsOutput);
    assert Outputs(cs) == Select(cs, IsOutput);
  }

  /** The outputs keep the order of the peripherals. */
  lemma OutputsInOrder(cs: seq<Component>)
    ensures forall i, j :: 0 <= i < j < |cs| && IsOutput(cs[i].ctype) && IsOutput(cs[j].ctype) ==>
              Before(Outputs(cs), cs[i], cs[j])
  {
    SelectInOrder(cs, IsOutput);
    assert Outputs(cs) == Select(cs, IsOutput);
  }

  /** No peripheral is both read and driven. */
  lemma InputsOutputsDisjoint(cs: seq<Component>)
    ensures forall c :: c in Inputs(cs) ==> c !in Outputs(cs)
  {
    InputsExactly(cs);
    OutputsExactly(cs);
  }

  /** The ultrasonic sensor is not an input, so the distance measurement is never
      written, whatever the peripherals. */
  lemma UltrasonicNeverWritten(cs: seq<Component>)
    ensures UltrasonicLines(Inputs(cs)) == []
  {
    NoUltrasonicInput(cs);
  }

  lemma NoUltrasonicInput(cs: seq<Component>)
    ensures !HasType(Inputs(cs), HcSr04)
  {
    var ins := Inputs(cs);
    InputsExactly(cs);
    forall i | 0 <= i < |ins| ensures ins[i].ctype != HcSr04 {
      assert ins[i] in ins;
    }
  }

  /** Without the distance measurement, the sections are empty exactly when there are
      neither inputs nor outputs, and otherwise open with a heading. */
  lemma BodyOpens(ins: seq<Component>, outs: seq<Component>)
    requires UltrasonicLines(ins) == []
    ensures Body(ins, outs) == [] <==> ins == [] && outs == []
    ensures Body(ins, outs) != [] ==> Body(ins, outs)[0] == ReadHeader || Body(ins, outs)[0] == BlinkHeader
  {
    if ins != [] {
      assert ReadSection(ins)[0] == ReadHeader;
    } else if outs != [] {
      assert ControlLines(ins, outs) == BlinkPattern(outs);
    } else {
      assert ControlLines(ins, outs) == [];
    }
  }

  lemma HeadingsAreNotFallback()
    ensures ReadHeader != FallbackLine && BlinkHeader != FallbackLine
  {
    assert ReadHeader[5] != FallbackLine[5] && BlinkHeader[5] != FallbackLine[5];
  }

  /** The loop is never empty, and it is the fallback comment alone exactly when no
      peripheral is an input or an output. */
  lemma FallbackExactly(cs: seq<Component>)
    ensures LoopLines(cs) != []
    ensures LoopLines(cs) == [FallbackLine]
      <==> forall i :: 0 <= i < |cs| ==> !IsInput(cs[i].ctype) && !IsOutputTag(cs[i].ctype)
  {
    InputsExactly(cs);
    OutputsExactly(cs);
    UltrasonicNeverWritten(cs);
    var ins := Inputs(cs);
    var outs := Outputs(cs);
    BodyOpens(ins, outs);
    HeadingsAreNotFallback();
    if ins != [] {
      assert ins[0] in ins;
    } else if outs != [] {
      assert outs[0] in outs;
    } else {
      forall i | 0 <= i < |cs| ensures !IsInput(cs[i].ctype) && !IsOutputTag(cs[i].ctype) {
        assert cs[i] in cs;
      }
    }
  }

  /** A peripheral that is neither an input nor an output leaves the loop unchanged. */
  lemma IgnoresOthers(cs: seq<Component>, c: Component)
    requires !IsInput(c.ctype) && !IsOutputTag(c.ctype)
    ensures LoopLines(cs + [c]) == LoopLines(cs)
  {
    SameSections(cs, c);
  }

  lemma SameSections(cs: seq<Component>, c: Component)
    requires !IsInput(c.ctype) && !IsOutputTag(c.ctype)
    ensures Inputs(cs + [c]) == Inputs(cs) && Outputs(cs + [c]) == Outputs(cs)
  {
    OutputTags();
    assert (cs + [c])[..|cs|] == cs;
  }

  /** Every line written for an input is among the reads. */
  lemma {:induction false} ReadsContain(ins: seq<Component>, k: nat, l: string)
    requires k < |ins| && l in ReadFor(ins[k], k)
    ensures l in ReadsOf(ins)
  {
    if k < |ins| - 1 {
      var init := ins[..|ins| - 1];
      assert init[k] == ins[k];
      ReadsContain(init, k, l);
    }
  }

  /** The mirror in the sections: the button's read, then the test of its state and
      the two writes of the LED. */
  lemma MirrorInBody(ins: seq<Component>, outs: seq<Component>) returns (i: nat, j: nat)
    requires HasType(ins, Pushbutton) && FirstLed(outs) < |outs|
    ensures var bd := Body(ins, outs);
      var b := FirstOfType(ins, Pushbutton);
      var l := FirstLed(outs);
      i < j && j + 4 < |bd|
      && bd[i] == ButtonReadLine(b, PinVariableName(Pushbutton, SignalPin, b))
      && bd[j] == MirrorTest(ButtonState(b))
      && bd[j + 1] == MirrorOn(LedVar(outs[l], l))
      && bd[j + 3] == MirrorOff(LedVar(outs[l], l))
  {
    var b := FirstOfType(ins, Pushbutton);
    var l := FirstLed(outs);
    var rs := ReadSection(ins);
    var p := ButtonReadAt(ins);
    var m := MirrorLines(ButtonState(b), LedVar(outs[l], l));
    ControlIsMirror(ins, outs);
    SectionsAt(rs, m, UltrasonicLines(ins), p);
    i, j := p, |rs| + 1;
  }

  /** Positions in the sections: the reading section first, then the control heading
      and the lines that follow it. */
  lemma SectionsAt(rs: seq<string>, m: seq<string>, us: seq<string>, p: nat)
    requires p < |rs| && |m| == 5
    ensures var bd := rs + ([ControlHeader] + m) + us;
      |rs| + 5 < |bd| && bd[p] == rs[p]
      && bd[|rs| + 1] == m[0] && bd[|rs| + 2] == m[1] && bd[|rs| + 4] == m[3]
  {
  }

  /** The position of the first push button's read in the reading section. */
  lemma ButtonReadAt(ins: seq<Component>) returns (p: nat)
    requires HasType(ins, Pushbutton)
    ensures var b := FirstOfType(ins, Pushbutton);
      0 < p < |ReadSection(ins)| - 1
      && ReadSection(ins)[p] == ButtonReadLine(b, PinVariableName(Pushbutton, SignalPin, b))
  {
    var b := FirstOfType(ins, Pushbutton);
    ButtonRead(ins, b);
    p := ReadAt(ins, ButtonReadLine(b, PinVariableName(Pushbutton, SignalPin, b)));
  }

  /** A push button's read is among the reads. */
  lemma ButtonRead(ins: seq<Component>, k: nat)
    requires k < |ins| && ins[k].ctype == Pushbutton
    ensures ButtonReadLine(k, PinVariableName(Pushbutton, SignalPin, k)) in ReadsOf(ins)
  {
    var line := ButtonReadLine(k, PinVariableName(Pushbutton, SignalPin, k));
    assert ReadFor(ins[k], k) == [line];
    ReadsContain(ins, k, line);
  }

  /** A read's position in the reading section, between the heading and the closing
      empty line. */
  lemma ReadAt(ins: seq<Component>, l: string) returns (p: nat)
    requires l in ReadsOf(ins)
    ensures 0 < p < |ReadSection(ins)| - 1 && ReadSection(ins)[p] == l
  {
    var rd := ReadsOf(ins);
    var q :| 0 <= q < |rd| && rd[q] == l;
    assert ins != [];
    Framed(rd, q);
    p := q + 1;
  }

  lemma Framed(rd: seq<string>, q: nat)
    requires q < |rd|
    ensures |[ReadHeader] + rd + [""]| == |rd| + 2 && ([ReadHeader] + rd + [""])[q + 1] == rd[q]
  {
  }

  lemma ControlIsMirror(ins: seq<Component>, outs: seq<Component>)
    requires HasType(ins, Pushbutton) && FirstLed(outs) < |outs|
    ensures ControlLines(ins, outs)
      == [ControlHeader] + MirrorLines(ButtonState(FirstOfType(ins, Pushbutton)), LedVar(outs[FirstLed(outs)], FirstLed(outs)))
  {
  }

  /** When a push button is read and an LED is driven, the LED follows the first push
      button among the inputs: the state variable the test reads is the one the reading
      section assigned, earlier in the loop, from that button's pin. */
  lemma MirrorReadsState(cs: seq<Component>)
    requires HasType(Inputs(cs), Pushbutton) && FirstLed(Outputs(cs)) < |Outputs(cs)|
    ensures var ins := Inputs(cs); var outs := Outputs(cs); var ls := LoopLines(cs);
      var b := FirstOfType(ins, Pushbutton);
      var l := FirstLed(outs);
      IsLedTag(outs[l].ctype)
      && exists i, j :: 0 <= i < j && j + 4 < |ls|
                        && ls[i] == ButtonReadLine(b, PinVariableName(Pushbutton, SignalPin, b))
                        && ls[j] == MirrorTest(ButtonState(b))
                        && ls[j + 1] == MirrorOn(LedVar(outs[l], l))
                        && ls[j + 3] == MirrorOff(LedVar(outs[l], l))
  {
    var outs := Outputs(cs);
    LedTags(outs[FirstLed(outs)].ctype);
    var i, j := MirrorInBody(Inputs(cs), outs);
    assert LoopLines(cs) == Body(Inputs(cs), outs);
  }

  /** The in-turn blink and the blink-together pattern switch the same LEDs in the same
      order: the in-turn blink is, LED by LED, the pattern's on-write, a wait, its
      off-write and a wait. */
  lemma {:induction false} BlinkEachFollowsLevels(outs: seq<Component>)
    ensures |LevelLines(outs, High)| == |LevelLines(outs, Low)|
    ensures |BlinkEach(outs)| == 4 * |LevelLines(outs, High)|
    ensures forall j :: 0 <= j < |LevelLines(outs, High)| ==>
      BlinkEach(outs)[4 * j..4 * j + 4]
        == [LevelLines(outs, High)[j], DelayLine, LevelLines(outs, Low)[j], DelayLine]
  {
    if outs != [] {
      var n := |outs| - 1;
      BlinkEachFollowsLevels(outs[..n]);
      var h := LevelLines(outs[..n], High);
      var e := BlinkEach(outs[..n]);
      forall j | 0 <= j < |h|
        ensures BlinkEach(outs)[4 * j..4 * j + 4] == e[4 * j..4 * j + 4]
      {
        assert BlinkEach(outs)[..|e|] == e;
      }
    }
  }

  /** With the peripherals [push button, red LED], the LED is driven through the
      variable named with its position among the outputs, 0; the pin definitions
      declare it with its position among the peripherals, 1, and never declare the
      name with 0. */
  lemma MirrorUsesOutputPosition(button: Component, led: Component)
    requires button.ctype == Pushbutton && led.ctype == LedRed && HasLivePin(led, AnodePin)
    ensures var cs := [button, led];
      MirrorOn(LedVar(led, 0)) in LoopLines(cs)
      && LedVar(led, 0) !in DeclaredNames(cs)
      && LedVar(led, 1) in DeclaredNames(cs)
  {
    var cs := [button, led];
    ExampleMirror(button, led);
    DeclaredIff(cs, 1, AnodePin);
    OnlyOwnIndexDeclared(button, led);
  }

  lemma ExampleMirror(button: Component, led: Component)
    requires button.ctype == Pushbutton && led.ctype == LedRed
    ensures MirrorOn(LedVar(led, 0)) in LoopLines([button, led])
  {
    var cs := [button, led];
    ExampleSections(button, led);
    assert Inputs(cs)[0] == button && Outputs(cs)[0] == led;
    MirrorReadsState(cs);
  }

  lemma ExampleSections(button: Component, led: Component)
    requires button.ctype == Pushbutton && led.ctype == LedRed
    ensures Inputs([button, led]) == [button] && Outputs([button, led]) == [led]
  {
    LedTags(LedRed);
    NotLedB(Pushbutton);
    var cs := [button, led];
    assert cs[..1] == [button] && [button][..0] == [];
    assert IsInput(button.ctype) && !IsInput(led.ctype);
    assert !IsOutput(button.ctype) && IsOutput(led.ctype);
    assert Select([button], IsInput) == [button] && Select(cs, IsInput) == [button];
    assert Select([button], IsOutput) == [] && Select(cs, IsOutput) == [led];
  }

  lemma OnlyOwnIndexDeclared(button: Component, led: Component)
    requires button.ctype == Pushbutton && led.ctype == LedRed
    ensures LedVar(led, 0) !in DeclaredNames([button, led])
  {
    var cs := [button, led];
    var v := LedVar(led, 0);
    DefinitionsExactly(cs);
    forall d | d in FirstOccurrences(Candidates(cs))
      ensures d.name != v
    {
      assert Offered(cs, d);
      var j, k :| 0 <= j < |cs| && cs[j].pins.Some? && 0 <= k < |cs[j].pins.value|
        && cs[j].pins.value[k].1 != Digital(0)
        && d == Decl(PinVariableName(cs[j].ctype, cs[j].pins.value[k].0, j), Render(cs[j].pins.value[k].1));
      if j == 0 {
        ButtonNameIsNotLedName(cs[j].pins.value[k].0, led);
      } else {
        IndexesDiffer(LedRed, cs[j].pins.value[k].0, 1, LedRed, AnodePin, 0);
      }
    }
  }

  lemma ButtonNameIsNotLedName(p: string, led: Component)
    requires led.ctype == LedRed
    ensures PinVariableName(Pushbutton, p, 0) != LedVar(led, 0)
  {
    assert PinVariableName(Pushbutton, p, 0)[0] == 'P' by {
      assert TypeName(Pushbutton) == "pushbutton";
      assert ReplaceChar("pushbutton", Dash, Underscore)[0] == 'p';
    }
    assert LedVar(led, 0)[0] == 'L' by {
      assert TypeName(LedRed) == "led-red";
      assert ReplaceChar("led-red", Dash, Underscore)[0] == 'l';
    }
  }

  lemma IndexesDiffer(t1: ComponentType, p1: string, i: nat, t2: ComponentType, p2: string, j: nat)
    requires i != j
    ensures PinVariableName(t1, p1, i) != PinVariableName(t2, p2, j)
  {
    if PinVariableName(t1, p1, i) == PinVariableName(t2, p2, j) {
      PinVariableNameIndex(t1, p1, i, t2, p2, j);
    }
  }
}
