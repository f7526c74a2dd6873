/** The body of `setup()` in the advanced sketch: for each peripheral, in list order,
    the statements its tag calls for. */
module AdvancedSetup {
  import opened Strings
  import opened Types
  import opened AdvancedNames
  import opened AdvancedPins
  import Catalog

  /** A statement written into `setup()` for one peripheral. A statement about a pin
      names the pin; the variable it is written with is the pin's variable name for
      the peripheral's tag and position. */
  datatype Statement =
    | PinMode(pin: string, output: bool, comment: string)  // `pinMode(VAR, OUTPUT|INPUT);  // comment`
    | WriteLow(pin: string)                                 // the relay's `digitalWrite(VAR, LOW);`
    | Remark(text: string)                                  // a comment line

  /** The line a statement of the peripheral with tag t at position index is written
      as (without its line break). */
  function StatementLine(t: ComponentType, index: nat, s: Statement): string
  {
    match s
    case PinMode(p, output, c) =>
      var v := PinVariableName(t, p, index);
      if output then "  pinMode(" + v + ", OUTPUT);  // " + c else "  pinMode(" + v + ", INPUT);   // " + c
    case WriteLow(p) => "  digitalWrite(" + PinVariableName(t, p, index) + ", LOW); // Start with relay OFF"
    case Remark(text) => "  // " + text
  }

  /** `comp.pins?.pin`: the component has a pin map whose `pin` entry is truthy. */
  predicate HasTruthyPin(c: Component)
  {
    c.pins.Some? && Lookup(c.pins.value, SignalPin).Some? && Truthy(Lookup(c.pins.value, SignalPin).value)
  }

  // The texts of the setup statements. They are named so that the proofs about the
  // branches below do not have to take the texts apart.
  const PushButtonComment := "Push Button"
  const PirComment := "PIR Motion Sensor"
  const TrigComment := "Ultrasonic TRIG"
  const EchoComment := "Ultrasonic ECHO"
  const ServoComment := "Servo Motor"
  const BuzzerComment := "Buzzer"
  const RelayComment := "Relay Module"
  const PotentiometerRemark := "Potentiometer on analog pin (no pinMode needed)"
  const Dht22Remark := "DHT22 sensor - Use DHT library"
  const PhotoRemark := "Photoresistor on analog pin"
  const ServoRemark := "Use Servo library for precise control"
  const LcdRemark := "LCD Display - Use LiquidCrystal library"
  const LcdBeginRemark := "lcd.begin(16, 2); // Initialize LCD"
  const OledRemark := "OLED Display - Use Adafruit_SSD1306 library"
  const SevenSegmentRemark := "7-Segment Display - Configure digit pins"

  /** The statements for a peripheral: the first branch of the tag tests that holds,
      in the order the generator tries them. */
  function SetupFor(c: Component): seq<Statement>
  {
    SetupBranches(c, NamesLed(c.ctype), NamesPhoto(c.ctype))
  }

  /** The branches of `SetupFor`, given the results of its two substring tests on the
      tag (`includes('led')` and `includes('photo')`). */
  function SetupBranches(c: Component, led: bool, photo: bool): seq<Statement>
  {
    var t := c.ctype;
    if led then [PinMode(AnodePin, true, ComponentName(t))]
    else if t == Pushbutton then [PinMode(SignalPin, false, PushButtonComment)]
    else if t == SlideSwitch || t == DipSwitch8 then
      (if HasTruthyPin(c) then [PinMode(SignalPin, false, ComponentName(t))] else [])
    else if t == Potentiometer then [Remark(PotentiometerRemark)]
    else if t == PirSensor then [PinMode(SignalPin, false, PirComment)]
    else if t == HcSr04 then [PinMode(TrigPin, true, TrigComment), PinMode(EchoPin, false, EchoComment)]
    else if t == Dht22 then [Remark(Dht22Remark)]
    else if photo then [Remark(PhotoRemark)]
    else if t == Servo then [PinMode(SignalPin, true, ServoComment), Remark(ServoRemark)]
    else if t == Buzzer then [PinMode(SignalPin, true, BuzzerComment)]
    else if t == RelayModule then [PinMode(SignalPin, true, RelayComment), WriteLow(SignalPin)]
    else if t == Lcd1602 then [Remark(LcdRemark), Remark(LcdBeginRemark)]
    else if t == Ssd1306 then [Remark(OledRemark)]
    else if t == SevenSegment then [Remark(SevenSegmentRemark)]
    else []
  }

  /** The lines of a list of statements of the peripheral with tag t at position index. */
  function StatementLines(t: ComponentType, index: nat, ss: seq<Statement>): seq<string>
  {
    if ss == [] then [] else StatementLines(t, index, ss[..|ss| - 1]) + [StatementLine(t, index, ss[|ss| - 1])]
  }

  /** The lines of the whole body, peripheral by peripheral, each written with its
      position in the list. */
  function SetupLines(cs: seq<Component>): seq<string>
  {
    if cs == [] then []
    else SetupLines(cs[..|cs| - 1]) + StatementLines(cs[|cs| - 1].ctype, |cs| - 1, SetupFor(cs[|cs| - 1]))
  }

  /** `generateSetupCode(components)`: each statement on a line of its own, each line
      ending in a line break. */
  method GenerateSetup(cs: seq<Component>) returns (setup: string)
    ensures setup == Text(SetupLines(cs))
  {
    setup := "";
    ghost var done: seq<string> := [];
    var i := 0;
    while i < |cs|
      invariant 0 <= i <= |cs|
      invariant done == SetupLines(cs[..i])
      invariant setup == Text(done)
    {
      var more := StatementLines(cs[i].ctype, i, SetupFor(cs[i]));
      SetupLinesSnoc(cs, i);
      TextConcat(done, more);
      setup := setup + Text(more);
      done := done + more;
      i := i + 1;
    }
    assert cs[..|cs|] == cs;
  }

  lemma SetupLinesSnoc(cs: seq<Component>, i: nat)
    requires i < |cs|
    ensures SetupLines(cs[..i + 1]) == SetupLines(cs[..i]) + StatementLines(cs[i].ctype, i, SetupFor(cs[i]))
  {
    assert cs[..i + 1][..i] == cs[..i];
  }

  // ---------------------------------------------------------------------------
  // Properties

  /** The pin names whose variables a tag's setup statements use, in order, once per
      use: the relay's `pin` is set as an output and then written LOW. */
  function SetupPins(t: ComponentType): seq<string>
  {
    if IsLedTag(t) then [AnodePin]
    else if t == HcSr04 then [TrigPin, EchoPin]
    else if t == RelayModule then [SignalPin, SignalPin]
    else if t in {Pushbutton, SlideSwitch, DipSwitch8, PirSensor, Servo, Buzzer} then [SignalPin]
    else []
  }

  /** The pin a statement refers to, if any. */
  function PinOf(s: Statement): Option<string>
  {
    match s
    case PinMode(p, _, _) => Some(p)
    case WriteLow(p) => Some(p)
    case Remark(_) => None
  }

  /** The substring tests pick out exactly the LED tags and no tag at all. */
  lemma SetupForTags(c: Component)
    ensures SetupFor(c) == SetupBranches(c, IsLedTag(c.ctype), false)
  {
    LedTags(c.ctype);
    NoPhotoTag(c.ctype);
  }

  /** The pins a list of statements refers to, in order. */
  function Pins(ss: seq<Statement>): (r: seq<string>)
    ensures forall p :: p in r <==> exists s :: s in ss && PinOf(s) == Some(p)
  {
    if ss == [] then []
    else (if PinOf(ss[0]).Some? then [PinOf(ss[0]).value] else []) + Pins(ss[1..])
  }

  /** A peripheral's setup refers, in order, to the pins `SetupPins` lists for its tag
      and to no other; a switch whose `pin` is missing or falsy refers to none. */
  lemma SetupPinsExactly(c: Component)
    ensures Pins(SetupFor(c)) == if IsSwitch(c.ctype) && !HasTruthyPin(c) then [] else SetupPins(c.ctype)
  {
    SetupForTags(c);
    SetupBranchesPins(c);
  }

  /** `SetupPinsExactly` for the branches taken once the substring tests are decided. */
  lemma SetupBranchesPins(c: Component)
    ensures Pins(SetupBranches(c, IsLedTag(c.ctype), false))
      == if IsSwitch(c.ctype) && !HasTruthyPin(c) then [] else SetupPins(c.ctype)
  {
    if NoSetupBranch(c.ctype) {
      BranchesEmpty(c);
    } else if IsSwitch(c.ctype) {
      BranchesSwitch(c);
    } else {
      BranchPins(c);
    }
  }

  lemma BranchPins(c: Component)
    requires !NoSetupBranch(c.ctype) && !IsSwitch(c.ctype)
    ensures Pins(SetupBranches(c, IsLedTag(c.ctype), false)) == SetupPins(c.ctype)
  {
    if c.ctype in {Potentiometer, Dht22, Lcd1602, Ssd1306, SevenSegment} {
      BranchPinsRemarks(c);
    } else if c.ctype in {HcSr04, Servo, RelayModule} {
      BranchPinsTwo(c);
    } else {
      BranchPinsOne(c);
    }
  }

  lemma BranchPinsRemarks(c: Component)
    requires c.ctype in {Potentiometer, Dht22, Lcd1602, Ssd1306, SevenSegment}
    ensures Pins(SetupBranches(c, IsLedTag(c.ctype), false)) == SetupPins(c.ctype)
  {
    var ss := SetupBranches(c, IsLedTag(c.ctype), false);
    assert forall s :: s in ss ==> s.Remark?;
    PinsOfRemarks(ss);
  }

  lemma BranchPinsTwo(c: Component)
    requires c.ctype in {HcSr04, Servo, RelayModule}
    ensures Pins(SetupBranches(c, IsLedTag(c.ctype), false)) == SetupPins(c.ctype)
  {
    var ss := SetupBranches(c, IsLedTag(c.ctype), false);
    assert |ss| == 2;
    PinsOfTwo(ss);
    assert Pins([ss[0]]) == [ss[0].pin];
    assert ss[0].pin == SetupPins(c.ctype)[0];
  }

  lemma BranchPinsOne(c: Component)
    requires !NoSetupBranch(c.ctype) && !IsSwitch(c.ctype)
    requires c.ctype !in {Potentiometer, Dht22, Lcd1602, Ssd1306, SevenSegment, HcSr04, Servo, RelayModule}
    ensures Pins(SetupBranches(c, IsLedTag(c.ctype), false)) == SetupPins(c.ctype)
  {
    var ss := SetupBranches(c, IsLedTag(c.ctype), false);
    assert |ss| == 1 && ss[0].PinMode?;
    PinsOfTwo(ss);
  }

  lemma {:induction false} PinsOfRemarks(ss: seq<Statement>)
    requires forall s :: s in ss ==> s.Remark?
    ensures Pins(ss) == []
  {
    if ss != [] {
      assert ss[0] in ss;
      PinsOfRemarks(ss[1..]);
    }
  }

  lemma PinsOfTwo(ss: seq<Statement>)
    requires 1 <= |ss| <= 2
    ensures |ss| == 1 && ss[0].PinMode? ==> Pins(ss) == [ss[0].pin]
    ensures |ss| == 2 ==> Pins(ss) == Pins([ss[0]]) + Pins([ss[1]])
  {
    assert ss[1..] == [] || ss[1..][1..] == [];
  }

  /** The tags no branch of the setup mentions. */
  predicate NoSetupBranch(t: ComponentType)
  {
    t in {ArduinoUno, ArduinoMega, ArduinoNano, Esp32, PiPico, Resistor, MembraneKeypad, Neopixels}
  }

  predicate IsSwitch(t: ComponentType)
  {
    t == SlideSwitch || t == DipSwitch8
  }

  /** A peripheral writes nothing into `setup()` exactly when its tag has no branch (a
      board, the resistor, the keypad, the NeoPixel strip) or it is a switch without a
      truthy `pin`; otherwise it writes one or two statements. */
  lemma SetupEmptyExactly(c: Component)
    ensures |SetupFor(c)| <= 2
    ensures SetupFor(c) == [] <==> NoSetupBranch(c.ctype) || (IsSwitch(c.ctype) && !HasTruthyPin(c))
  {
    SetupForTags(c);
    if NoSetupBranch(c.ctype) {
      BranchesEmpty(c);
    } else if IsSwitch(c.ctype) {
      BranchesSwitch(c);
    } else {
      BranchesNonEmpty(c);
    }
  }

  lemma BranchesEmpty(c: Component)
    requires NoSetupBranch(c.ctype)
    ensures SetupBranches(c, IsLedTag(c.ctype), false) == []
  {
  }

  lemma BranchesSwitch(c: Component)
    requires IsSwitch(c.ctype)
    ensures SetupBranches(c, IsLedTag(c.ctype), false)
      == if HasTruthyPin(c) then [PinMode(SignalPin, false, ComponentName(c.ctype))] else []
  {
  }

  lemma BranchesNonEmpty(c: Component)
    requires !NoSetupBranch(c.ctype) && !IsSwitch(c.ctype)
    ensures 1 <= |SetupBranches(c, IsLedTag(c.ctype), false)| <= 2
  {
  }

  // ---------------------------------------------------------------------------
  // Setup variables against pin definitions

  /** Placed with its catalog pins, a peripheral's setup uses a variable that the pin
      definitions never declare exactly when it is an RGB LED (it has no `anode`), a
      PIR sensor (its pin is `out`), a servo (`signal`) or a relay module (`in`): the
      setup asks for `anode` or `pin`, which those catalog entries lack. */
  lemma CatalogSetupUndeclared(cs: seq<Component>, i: nat)
    requires i < |cs| && cs[i].pins == Catalog.Library(cs[i].ctype).defaultPins
    ensures (exists p :: p in Pins(SetupFor(cs[i])) && PinVariableName(cs[i].ctype, p, i) !in DeclaredNames(cs))
      <==> cs[i].ctype in {RgbLed, PirSensor, Servo, RelayModule}
  {
    var c := cs[i];
    SetupPinsExactly(c);
    if c.ctype in {RgbLed, PirSensor, Servo, RelayModule} {
      var p := SetupPins(c.ctype)[0];
      CatalogLacksPin(c);
      DeclaredIff(cs, i, p);
      assert p in Pins(SetupFor(c));
    } else {
      forall p | p in Pins(SetupFor(c))
        ensures PinVariableName(c.ctype, p, i) in DeclaredNames(cs)
      {
        CatalogHasPin(c, p);
        DeclaredIff(cs, i, p);
      }
    }
  }

  lemma CatalogHasPin(c: Component, p: string)
    requires c.pins == Catalog.Library(c.ctype).defaultPins
    requires c.ctype !in {RgbLed, PirSensor, Servo, RelayModule}
    requires p in (if IsSwitch(c.ctype) && !HasTruthyPin(c) then [] else SetupPins(c.ctype))
    ensures HasLivePin(c, p)
  {
    if IsLedTag(c.ctype) {
      LedHasPin(c, p);
    } else if c.ctype != DipSwitch8 {
      PeripheralHasPin(c, p);
    }
  }

  lemma LedHasPin(c: Component, p: string)
    requires c.pins == Catalog.Library(c.ctype).defaultPins
    requires c.ctype in {LedRed, LedGreen, LedBlue, LedYellow, LedWhite} && p == AnodePin
    ensures HasLivePin(c, p)
  {
    var ps := c.pins.value;
    assert ps[0].0 == p && ps[0].1 != Digital(0);
  }

  lemma PeripheralHasPin(c: Component, p: string)
    requires c.pins == Catalog.Library(c.ctype).defaultPins
    requires c.ctype in {HcSr04, Pushbutton, SlideSwitch, Buzzer} && p in SetupPins(c.ctype)
    ensures HasLivePin(c, p)
  {
    var ps := c.pins.value;
    if c.ctype == HcSr04 && p == EchoPin {
      assert ps[1].0 == p && ps[1].1 != Digital(0);
    } else {
      assert ps[0].0 == p && ps[0].1 != Digital(0);
    }
  }

  /** Different first letters, after upper-casing, make different upper-cased names. */
  lemma UpperDiffers(a: string, b: string)
    requires |a| > 0 && |b| > 0 && UpperChar(a[0]) != UpperChar(b[0])
    ensures Upper(a) != Upper(b)
  {
    UpperChars(a);
    UpperChars(b);
  }

  lemma CatalogLacksPin(c: Component)
    requires c.pins == Catalog.Library(c.ctype).defaultPins
    requires c.ctype in {RgbLed, PirSensor, Servo, RelayModule}
    ensures !HasLivePin(c, SetupPins(c.ctype)[0])
  {
    var ps := c.pins.value;
    var p := SetupPins(c.ctype)[0];
    forall k | 0 <= k < |ps| && ps[k].1 != Digital(0)
      ensures Upper(ps[k].0) != Upper(p)
    {
      UpperDiffers(ps[k].0, p);
    }
  }
}
