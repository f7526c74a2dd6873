/** The data model of the circuit editor: the closed set of component tags, the
    seven functional categories, pin values and pin maps, placed components and
    the circuit aggregate, and the fixed pin lists of the board. */
module Types {
  import opened Strings

  /** The closed set of component tags. */
  datatype ComponentType =
    // Microcontrollers
    | ArduinoUno | ArduinoMega | ArduinoNano | Esp32 | PiPico
    // LEDs
    | LedRed | LedGreen | LedBlue | LedYellow | LedWhite | RgbLed
    // Inputs
    | Pushbutton | SlideSwitch | DipSwitch8 | Potentiometer
    // Displays
    | Lcd1602 | SevenSegment | Ssd1306
    // Sensors
    | Dht22 | HcSr04 | PirSensor | MembraneKeypad
    // Actuators
    | Servo | Buzzer | RelayModule
    // Passive components
    | Resistor | Neopixels

  /** The tag as the program spells it. */
  function TypeName(t: ComponentType): string
  {
    match t
    case ArduinoUno => "arduino-uno"
    case ArduinoMega => "arduino-mega"
    case ArduinoNano => "arduino-nano"
    case Esp32 => "esp32"
    case PiPico => "pi-pico"
    case LedRed => "led-red"
    case LedGreen => "led-green"
    case LedBlue => "led-blue"
    case LedYellow => "led-yellow"
    case LedWhite => "led-white"
    case RgbLed => "rgb-led"
    case Pushbutton => "pushbutton"
    case SlideSwitch => "slide-switch"
    case DipSwitch8 => "dip-switch-8"
    case Potentiometer => "potentiometer"
    case Lcd1602 => "lcd1602"
    case SevenSegment => "7segment"
    case Ssd1306 => "ssd1306"
    case Dht22 => "dht22"
    case HcSr04 => "hc-sr04"
    case PirSensor => "pir-sensor"
    case MembraneKeypad => "membrane-keypad"
    case Servo => "servo"
    case Buzzer => "buzzer"
    case RelayModule => "relay-module"
    case Resistor => "resistor"
    case Neopixels => "neopixels"
  }

  /** Every tag, in declaration order. */
  const AllTypes: seq<ComponentType> := [
    ArduinoUno, ArduinoMega, ArduinoNano, Esp32, PiPico,
    LedRed, LedGreen, LedBlue, LedYellow, LedWhite, RgbLed,
    Pushbutton, SlideSwitch, DipSwitch8, Potentiometer,
    Lcd1602, SevenSegment, Ssd1306,
    Dht22, HcSr04, PirSensor, MembraneKeypad,
    Servo, Buzzer, RelayModule,
    Resistor, Neopixels]

  /** The position of a tag in declaration order. */
  function Ordinal(t: ComponentType): nat
  {
    match t
    case ArduinoUno => 0
    case ArduinoMega => 1
    case ArduinoNano => 2
    case Esp32 => 3
    case PiPico => 4
    case LedRed => 5
    case LedGreen => 6
    case LedBlue => 7
    case LedYellow => 8
    case LedWhite => 9
    case RgbLed => 10
    case Pushbutton => 11
    case SlideSwitch => 12
    case DipSwitch8 => 13
    case Potentiometer => 14
    case Lcd1602 => 15
    case SevenSegment => 16
    case Ssd1306 => 17
    case Dht22 => 18
    case HcSr04 => 19
    case PirSensor => 20
    case MembraneKeypad => 21
    case Servo => 22
    case Buzzer => 23
    case RelayModule => 24
    case Resistor => 25
    case Neopixels => 26
  }

  lemma OrdinalsOfAllTypes()
    ensures |AllTypes| == 27
    ensures forall i :: 0 <= i < |AllTypes| ==> Ordinal(AllTypes[i]) == i
  {
  }

  /** Each tag is listed at its ordinal. */
  lemma ListedAtOrdinal(t: ComponentType)
    ensures Ordinal(t) < |AllTypes| && AllTypes[Ordinal(t)] == t
  {
    match t
    case ArduinoUno => assert AllTypes[0] == t;
    case ArduinoMega => assert AllTypes[1] == t;
    case ArduinoNano => assert AllTypes[2] == t;
    case Esp32 => assert AllTypes[3] == t;
    case PiPico => assert AllTypes[4] == t;
    case LedRed => assert AllTypes[5] == t;
    case LedGreen => assert AllTypes[6] == t;
    case LedBlue => assert AllTypes[7] == t;
    case LedYellow => assert AllTypes[8] == t;
    case LedWhite => assert AllTypes[9] == t;
    case RgbLed => assert AllTypes[10] == t;
    case Pushbutton => assert AllTypes[11] == t;
    case SlideSwitch => assert AllTypes[12] == t;
    case DipSwitch8 => assert AllTypes[13] == t;
    case Potentiometer => assert AllTypes[14] == t;
    case Lcd1602 => assert AllTypes[15] == t;
    case SevenSegment => assert AllTypes[16] == t;
    case Ssd1306 => assert AllTypes[17] == t;
    case Dht22 => assert AllTypes[18] == t;
    case HcSr04 => assert AllTypes[19] == t;
    case PirSensor => assert AllTypes[20] == t;
    case MembraneKeypad => assert AllTypes[21] == t;
    case Servo => assert AllTypes[22] == t;
    case Buzzer => assert AllTypes[23] == t;
    case RelayModule => assert AllTypes[24] == t;
    case Resistor => assert AllTypes[25] == t;
    case Neopixels => assert AllTypes[26] == t;
  }

  /** The tag set is closed: exactly 27 distinct tags, and every tag is listed. */
  lemma AllTypesClosed()
    ensures |AllTypes| == 27
    ensures forall t: ComponentType :: t in AllTypes
    ensures forall i, j :: 0 <= i < j < |AllTypes| ==> AllTypes[i] != AllTypes[j]
  {
    OrdinalsOfAllTypes();
    forall t: ComponentType ensures t in AllTypes {
      ListedAtOrdinal(t);
    }
  }

  /** The seven functional categories of the catalog. */
  datatype Category = Microcontroller | Input | Output | Sensor | Display | Actuator | Passive

  function CategoryId(c: Category): string
  {
    match c
    case Microcontroller => "microcontroller"
    case Input => "input"
    case Output => "output"
    case Sensor => "sensor"
    case Display => "display"
    case Actuator => "actuator"
    case Passive => "passive"
  }

  // ---------------------------------------------------------------------------
  // Pins

  /** A pin assignment: a digital pin number (0 is the ground / "not wired"
      sentinel) or an analog token such as "A0". */
  datatype PinValue = Digital(n: int) | Analog(token: string)

  /** `${value}` in a template literal. */
  function Render(v: PinValue): string
  {
    match v
    case Digital(n) => IntToString(n)
    case Analog(s) => s
  }

  /** JavaScript truthiness of a pin value: 0 and "" are falsy. */
  predicate Truthy(v: PinValue)
  {
    match v
    case Digital(n) => n != 0
    case Analog(s) => s != ""
  }

  /** A pin map: pin names to values, in insertion order (the order in which
      the object's entries are listed). */
  type PinMap = seq<(string, PinValue)>

  predicate UniqueKeys(pm: PinMap)
  {
    forall i, j :: 0 <= i < j < |pm| ==> pm[i].0 != pm[j].0
  }

  predicate HasKey(pm: PinMap, k: string)
  {
    exists i :: 0 <= i < |pm| && pm[i].0 == k
  }

  /** `pins[k]`, or None when the key is absent. */
  function Lookup(pm: PinMap, k: string): (r: Option<PinValue>)
    ensures r.Some? <==> HasKey(pm, k)
    ensures r.Some? ==> (k, r.value) in pm
  {
    if pm == [] then None
    else if pm[0].0 == k then Some(pm[0].1)
    else
      var r := Lookup(pm[1..], k);
      assert HasKey(pm, k) ==> pm[0].0 == k || HasKey(pm[1..], k) by {
        if HasKey(pm, k) {
          var i :| 0 <= i < |pm| && pm[i].0 == k;
          if i > 0 { assert pm[1..][i - 1].0 == k; }
        }
      }
      r
  }

  /** `Object.values(pins).includes(v)`. */
  predicate HasValue(pm: PinMap, v: PinValue)
  {
    exists i :: 0 <= i < |pm| && pm[i].1 == v
  }

  /** `{ ...pins, [k]: v }`: an existing key keeps its place and takes the new
      value; a new key is added at the end. */
  function Assign(pm: PinMap, k: string, v: PinValue): (r: PinMap)
    ensures !HasKey(pm, k) ==> r == pm + [(k, v)]
    ensures HasKey(pm, k) ==> |r| == |pm| && forall i :: 0 <= i < |pm| ==> r[i].0 == pm[i].0
  {
    if pm == [] then [(k, v)]
    else if pm[0].0 == k then [(k, v)] + pm[1..]
    else
      assert HasKey(pm, k) ==> HasKey(pm[1..], k) by {
        if HasKey(pm, k) {
          var i :| 0 <= i < |pm| && pm[i].0 == k;
          assert pm[1..][i - 1].0 == k;
        }
      }
      var r := [pm[0]] + Assign(pm[1..], k, v);
      assert !HasKey(pm, k) ==> r == pm + [(k, v)] by {
        if !HasKey(pm, k) {
          assert pm == [pm[0]] + pm[1..];
        }
      }
      r
  }

  /** After the assignment k maps to v, and every other key to what it mapped to before. */
  lemma {:induction false} AssignLookup(pm: PinMap, k: string, v: PinValue)
    ensures Lookup(Assign(pm, k, v), k) == Some(v)
    ensures forall k' :: k' != k ==> Lookup(Assign(pm, k, v), k') == Lookup(pm, k')
  {
    if pm != [] && pm[0].0 != k {
      var t := Assign(pm[1..], k, v);
      var r := Assign(pm, k, v);
      AssignLookup(pm[1..], k, v);
      assert r == [pm[0]] + t;
      assert r[1..] == t;
    } else if pm != [] {
      var r := Assign(pm, k, v);
      assert r[1..] == pm[1..];
    }
  }

  /** The assignment adds no key but k. */
  lemma AssignKeys(pm: PinMap, k: string, v: PinValue)
    ensures forall i :: 0 <= i < |Assign(pm, k, v)| ==> Assign(pm, k, v)[i].0 == k || HasKey(pm, Assign(pm, k, v)[i].0)
  {
    var r := Assign(pm, k, v);
    forall i | 0 <= i < |r| && r[i].0 != k ensures HasKey(pm, r[i].0) {
      assert r[i].0 == pm[i].0;
    }
  }

  /** Keys given once stay given once. */
  lemma AssignKeepsKeysUnique(pm: PinMap, k: string, v: PinValue)
    requires UniqueKeys(pm)
    ensures UniqueKeys(Assign(pm, k, v))
  {
    var r := Assign(pm, k, v);
    if !HasKey(pm, k) {
      forall i, j | 0 <= i < j < |r| ensures r[i].0 != r[j].0 {
        if j < |pm| {
          assert r[i] == pm[i] && r[j] == pm[j];
        } else {
          assert r[i].0 == pm[i].0;
        }
      }
    } else {
      forall i, j | 0 <= i < j < |r| ensures r[i].0 != r[j].0 {
        assert r[i].0 == pm[i].0 && r[j].0 == pm[j].0;
      }
    }
  }

  // ---------------------------------------------------------------------------
  // Fixed pin lists of the board

  const DigitalPins: seq<int> := [2, 3, 4, 5, 6, 7, 8, 9, 10, 11, 12, 13]
  const AnalogPins: seq<string> := ["A0", "A1", "A2", "A3", "A4", "A5"]
  const PwmPins: seq<int> := [3, 5, 6, 9, 10, 11]

  /** The digital pins are 2..13 in ascending order; 0 and 1 (the serial pins) are absent. */
  lemma DigitalPinsAreTwoToThirteen()
    ensures |DigitalPins| == 12
    ensures forall i :: 0 <= i < |DigitalPins| ==> DigitalPins[i] == i + 2
    ensures forall p :: p in DigitalPins <==> 2 <= p <= 13
  {
    forall p | 2 <= p <= 13 ensures p in DigitalPins {
      assert DigitalPins[p - 2] == p;
    }
  }

  /** The analog pins are A0..A5. */
  lemma AnalogPinsAreA0ToA5()
    ensures |AnalogPins| == 6
    ensures forall i :: 0 <= i < 6 ==> AnalogPins[i] == ['A', Digit(i)]
  {
  }

  /** Every PWM pin is a digital pin. */
  lemma PwmPinsAreDigital()
    ensures forall p :: p in PwmPins ==> p in DigitalPins
  {
  }

  // ---------------------------------------------------------------------------
  // Placed components and circuits

  datatype Position = Position(x: int, y: int)

  /** The display scale factor (0.8, 1.0 or 1.2 in the editor); the model only stores it. */
  type Scale = real

  /** A component placed on the canvas. `properties` holds only the scale factor. */
  datatype Component = Component(
    id: string,
    ctype: ComponentType,
    position: Position,
    pins: Option<PinMap>,
    scale: Option<Scale>)

  /** The placed components in insertion order and the designated microcontroller. */
  datatype Circuit = Circuit(components: seq<Component>, microcontroller: Option<Component>)

  const EmptyCircuit := Circuit([], None)

  predicate HasType(cs: seq<Component>, t: ComponentType)
  {
    exists i :: 0 <= i < |cs| && cs[i].ctype == t
  }

  /** The position of the first component of tag t, or |cs| when there is none. */
  function FirstOfType(cs: seq<Component>, t: ComponentType): (i: nat)
    ensures i <= |cs|
    ensures i < |cs| ==> cs[i].ctype == t
    ensures forall j :: 0 <= j < i ==> cs[j].ctype != t
  {
    if cs == [] || cs[0].ctype == t then 0 else 1 + FirstOfType(cs[1..], t)
  }

  /** `components.find(c => c.type === t)`: the first component of tag t in list order. */
  function FindByType(cs: seq<Component>, t: ComponentType): (r: Option<Component>)
    ensures r.None? <==> !HasType(cs, t)
    ensures r.Some? ==> r.value.ctype == t && r.value == cs[FirstOfType(cs, t)]
  {
    var i := FirstOfType(cs, t);
    if i < |cs| then Some(cs[i]) else None
  }

  predicate HasId(cs: seq<Component>, id: string)
  {
    exists i :: 0 <= i < |cs| && cs[i].id == id
  }

  /** The position of the first component with that id, or |cs| when there is none. */
  function FirstOfId(cs: seq<Component>, id: string): (i: nat)
    ensures i <= |cs|
    ensures i < |cs| ==> cs[i].id == id
    ensures forall j :: 0 <= j < i ==> cs[j].id != id
  {
    if cs == [] || cs[0].id == id then 0 else 1 + FirstOfId(cs[1..], id)
  }

  /** `components.find(c => c.id === id)`: the first component with that id. */
  function FindById(cs: seq<Component>, id: string): (r: Option<Component>)
    ensures r.None? <==> !HasId(cs, id)
    ensures r.Some? ==> r.value in cs && r.value.id == id
    ensures r.Some? ==> FirstOfId(cs, id) < |cs| && r.value == cs[FirstOfId(cs, id)]
  {
    if cs == [] then None
    else if cs[0].id == id then Some(cs[0])
    else
      var r := FindById(cs[1..], id);
      assert HasId(cs, id) ==> HasId(cs[1..], id) by {
        if HasId(cs, id) {
          var i :| 0 <= i < |cs| && cs[i].id == id;
          assert cs[1..][i - 1].id == id;
        }
      }
      assert HasId(cs[1..], id) ==> HasId(cs, id) by {
        if HasId(cs[1..], id) {
          var i :| 0 <= i < |cs[1..]| && cs[1..][i].id == id;
          assert cs[i + 1].id == id;
        }
      }
      r
  }
}
