/** The component catalog: reference metadata for every tag (display name,
    functional category, pin count, default pin assignments), and the ordered
    list of categories shown by the palette. Icons and descriptions are display
    text only and are not modelled. */
module Catalog {
  import opened Strings
  import opened Types

  datatype Metadata = Metadata(
    name: string,
    category: Category,
    pinCount: nat,
    defaultPins: Option<PinMap>)

  function D(n: int): PinValue { Digital(n) }

  /** `COMPONENT_LIBRARY[t]`: the record is keyed by every tag, so this is total. */
  function Library(t: ComponentType): Metadata
  {
    match t
    // Microcontrollers
    case ArduinoUno => Metadata("Arduino Uno", Microcontroller, 28, None)
    case ArduinoMega => Metadata("Arduino Mega", Microcontroller, 70, None)
    case ArduinoNano => Metadata("Arduino Nano", Microcontroller, 22, None)
    case Esp32 => Metadata("ESP32", Microcontroller, 38, None)
    case PiPico => Metadata("Raspberry Pi Pico", Microcontroller, 26, None)
    // LEDs
    case LedRed => Metadata("LED (Red)", Output, 2, Some([("anode", D(10)), ("cathode", D(0))]))
    case LedGreen => Metadata("LED (Green)", Output, 2, Some([("anode", D(10)), ("cathode", D(0))]))
    case LedBlue => Metadata("LED (Blue)", Output, 2, Some([("anode", D(10)), ("cathode", D(0))]))
    case LedYellow => Metadata("LED (Yellow)", Output, 2, Some([("anode", D(10)), ("cathode", D(0))]))
    case LedWhite => Metadata("LED (White)", Output, 2, Some([("anode", D(10)), ("cathode", D(0))]))
    case RgbLed =>
      Metadata("RGB LED", Output, 4, Some([("r", D(9)), ("g", D(10)), ("b", D(11)), ("cathode", D(0))]))
    // Input components
    case Pushbutton => Metadata("Push Button", Input, 2, Some([("pin", D(2)), ("gnd", D(0))]))
    case SlideSwitch => Metadata("Slide Switch", Input, 3, Some([("pin", D(2)), ("gnd", D(0))]))
    case DipSwitch8 => Metadata("DIP Switch (8)", Input, 8, None)
    case Potentiometer =>
      Metadata("Potentiometer", Input, 3, Some([("signal", Analog("A0")), ("vcc", D(0)), ("gnd", D(0))]))
    // Displays
    case Lcd1602 =>
      Metadata("LCD 16x2", Display, 6,
        Some([("rs", D(12)), ("e", D(11)), ("d4", D(5)), ("d5", D(4)), ("d6", D(3)), ("d7", D(2))]))
    case SevenSegment => Metadata("7-Segment Display", Display, 8, None)
    case Ssd1306 => Metadata("OLED Display", Display, 2, Some([("sda", Analog("A4")), ("scl", Analog("A5"))]))
    // Sensors
    case Dht22 => Metadata("DHT22", Sensor, 3, Some([("data", D(2)), ("vcc", D(0)), ("gnd", D(0))]))
    case HcSr04 =>
      Metadata("HC-SR04", Sensor, 4, Some([("trig", D(9)), ("echo", D(10)), ("vcc", D(0)), ("gnd", D(0))]))
    case PirSensor => Metadata("PIR Sensor", Sensor, 3, Some([("out", D(2)), ("vcc", D(0)), ("gnd", D(0))]))
    case MembraneKeypad => Metadata("4x4 Keypad", Input, 8, None)
    // Actuators
    case Servo => Metadata("Servo Motor", Actuator, 3, Some([("signal", D(9)), ("vcc", D(0)), ("gnd", D(0))]))
    case Buzzer => Metadata("Buzzer", Output, 2, Some([("pin", D(8)), ("gnd", D(0))]))
    case RelayModule => Metadata("Relay Module", Actuator, 3, Some([("in", D(7)), ("vcc", D(0)), ("gnd", D(0))]))
    // Passive components
    case Resistor => Metadata("Resistor", Passive, 2, None)
    case Neopixels => Metadata("NeoPixel Strip", Output, 3, Some([("din", D(6)), ("vcc", D(0)), ("gnd", D(0))]))
  }

  predicate IsMicrocontroller(t: ComponentType)
  {
    Library(t).category == Microcontroller
  }

  predicate IsSingleColourLed(t: ComponentType)
  {
    t == LedRed || t == LedGreen || t == LedBlue || t == LedYellow || t == LedWhite
  }

  /** Exactly the five boards are microcontrollers, and no board has default pins. */
  lemma MicrocontrollersAreTheBoards(t: ComponentType)
    ensures IsMicrocontroller(t) <==> t in {ArduinoUno, ArduinoMega, ArduinoNano, Esp32, PiPico}
    ensures IsMicrocontroller(t) ==> Library(t).defaultPins.None?
  {
  }

  /** Each single-colour LED defaults to anode 10 and cathode 0; the push button to pin 2 and gnd 0. */
  lemma LedAndButtonDefaults(t: ComponentType)
    ensures IsSingleColourLed(t) ==> Library(t).defaultPins == Some([("anode", Digital(10)), ("cathode", Digital(0))])
    ensures Library(Pushbutton).defaultPins == Some([("pin", Digital(2)), ("gnd", Digital(0))])
  {
  }

  /** Analog tokens appear only as the potentiometer's signal A0 and the OLED's sda A4 and scl A5. */
  lemma AnalogDefaultsOnly(t: ComponentType, k: string, s: string)
    requires Library(t).defaultPins.Some? && (k, Analog(s)) in Library(t).defaultPins.value
    ensures (t == Potentiometer && k == "signal" && s == "A0")
         || (t == Ssd1306 && ((k == "sda" && s == "A4") || (k == "scl" && s == "A5")))
  {
  }

  /** Every default digital value is the ground sentinel 0 or one of the board's digital pins. */
  lemma DigitalDefaultsInRange(t: ComponentType, k: string, n: int)
    requires Library(t).defaultPins.Some? && (k, Digital(n)) in Library(t).defaultPins.value
    ensures n == 0 || n in DigitalPins
  {
  }

  /** A default pin map, when present, is non-empty and names each pin once. */
  lemma DefaultPinsWellFormed(t: ComponentType)
    ensures Library(t).defaultPins.Some? ==>
      |Library(t).defaultPins.value| > 0 && UniqueKeys(Library(t).defaultPins.value)
  {
    if t in {ArduinoUno, ArduinoMega, ArduinoNano, Esp32, PiPico, LedRed, LedGreen} {
      DefaultPinsA(t);
    } else if t in {LedBlue, LedYellow, LedWhite, RgbLed, Pushbutton, SlideSwitch, DipSwitch8} {
      DefaultPinsB(t);
    } else if t in {Potentiometer, Lcd1602, SevenSegment, Ssd1306, Dht22, HcSr04, PirSensor} {
      DefaultPinsC(t);
    } else {
      DefaultPinsD(t);
    }
  }

  // The tags in small groups, to keep each proof small.
  lemma DefaultPinsA(t: ComponentType)
    requires t in {ArduinoUno, ArduinoMega, ArduinoNano, Esp32, PiPico, LedRed, LedGreen}
    ensures Library(t).defaultPins.Some? ==>
      |Library(t).defaultPins.value| > 0 && UniqueKeys(Library(t).defaultPins.value)
  {
    var ds := Library(t).defaultPins;
    if ds.Some? {
      var pm := ds.value;
      forall i, j | 0 <= i < j < |pm| ensures pm[i].0 != pm[j].0 {
        KeysDiffer(pm[i].0, pm[j].0);
      }
    }
  }

  lemma DefaultPinsB(t: ComponentType)
    requires t in {LedBlue, LedYellow, LedWhite, RgbLed, Pushbutton, SlideSwitch, DipSwitch8}
    ensures Library(t).defaultPins.Some? ==>
      |Library(t).defaultPins.value| > 0 && UniqueKeys(Library(t).defaultPins.value)
  {
    var ds := Library(t).defaultPins;
    if ds.Some? {
      var pm := ds.value;
      forall i, j | 0 <= i < j < |pm| ensures pm[i].0 != pm[j].0 {
        KeysDiffer(pm[i].0, pm[j].0);
      }
    }
  }

  lemma DefaultPinsC(t: ComponentType)
    requires t in {Potentiometer, Lcd1602, SevenSegment, Ssd1306, Dht22, HcSr04, PirSensor}
    ensures Library(t).defaultPins.Some? ==>
      |Library(t).defaultPins.value| > 0 && UniqueKeys(Library(t).defaultPins.value)
  {
    var ds := Library(t).defaultPins;
    if ds.Some? {
      var pm := ds.value;
      forall i, j | 0 <= i < j < |pm| ensures pm[i].0 != pm[j].0 {
        KeysDiffer(pm[i].0, pm[j].0);
      }
    }
  }

  lemma DefaultPinsD(t: ComponentType)
    requires t in {MembraneKeypad, Servo, Buzzer, RelayModule, Resistor, Neopixels}
    ensures Library(t).defaultPins.Some? ==>
      |Library(t).defaultPins.value| > 0 && UniqueKeys(Library(t).defaultPins.value)
  {
    var ds := Library(t).defaultPins;
    if ds.Some? {
      var pm := ds.value;
      forall i, j | 0 <= i < j < |pm| ensures pm[i].0 != pm[j].0 {
        KeysDiffer(pm[i].0, pm[j].0);
      }
    }
  }

  /** Two pin names differ when their lengths or one of their first two characters do. */
  lemma KeysDiffer(a: string, b: string)
    ensures |a| != |b| ==> a != b
    ensures |a| > 0 && |b| > 0 && a[0] != b[0] ==> a != b
    ensures |a| > 1 && |b| > 1 && a[1] != b[1] ==> a != b
  {
  }

  datatype CategoryEntry = CategoryEntry(id: Category, name: string)

  /** `COMPONENT_CATEGORIES`, in palette order. */
  const Categories: seq<CategoryEntry> := [
    CategoryEntry(Microcontroller, "Microcontrollers"),
    CategoryEntry(Input, "Input Devices"),
    CategoryEntry(Output, "Output Devices"),
    CategoryEntry(Sensor, "Sensors"),
    CategoryEntry(Display, "Displays"),
    CategoryEntry(Actuator, "Actuators"),
    CategoryEntry(Passive, "Passive Components")]

  function Ids(es: seq<CategoryEntry>): (r: seq<Category>)
    ensures |r| == |es| && forall i :: 0 <= i < |es| ==> r[i] == es[i].id
  {
    if es == [] then [] else [es[0].id] + Ids(es[1..])
  }

  /** The palette lists each of the seven categories exactly once, in the fixed order
      microcontroller, input, output, sensor, display, actuator, passive. */
  lemma CategoriesListEachOnce()
    ensures Ids(Categories) == [Microcontroller, Input, Output, Sensor, Display, Actuator, Passive]
    ensures forall c: Category :: c in Ids(Categories)
    ensures forall i, j :: 0 <= i < j < |Categories| ==> Categories[i].id != Categories[j].id
  {
    var ids := Ids(Categories);
    CategoryIds();
    forall c: Category ensures c in ids {
      match c
      case Microcontroller => assert ids[0] == c;
      case Input => assert ids[1] == c;
      case Output => assert ids[2] == c;
      case Sensor => assert ids[3] == c;
      case Display => assert ids[4] == c;
      case Actuator => assert ids[5] == c;
      case Passive => assert ids[6] == c;
    }
    forall i, j | 0 <= i < j < |Categories| ensures Categories[i].id != Categories[j].id {
      assert Categories[i].id == ids[i] && Categories[j].id == ids[j];
    }
  }

  lemma CategoryIds()
    ensures Ids(Categories) == [Microcontroller, Input, Output, Sensor, Display, Actuator, Passive]
  {
    var ids := Ids(Categories);
    var expected := [Microcontroller, Input, Output, Sensor, Display, Actuator, Passive];
    assert |Categories| == 7;
    assert Categories[0].id == Microcontroller && Categories[1].id == Input && Categories[2].id == Output;
    assert Categories[3].id == Sensor && Categories[4].id == Display && Categories[5].id == Actuator;
    assert Categories[6].id == Passive;
    assert forall i :: 0 <= i < 7 ==> ids[i] == expected[i];
  }
}
