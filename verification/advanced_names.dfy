/** Naming in the advanced sketch generator: the `#define`-style variable names
    built from a tag, a pin name and an index, the display names written into
    comments, and the substring tests the generator applies to tags. */
module AdvancedNames {
  import opened Strings
  import opened Types

  /** `getPinVariableName(type, pinName, index)`: the tag with '-' turned into '_',
      upper-cased, then the upper-cased pin name, then the index, joined by '_'. */
  function PinVariableName(t: ComponentType, pin: string, index: nat): string
  {
    Upper(ReplaceChar(TypeName(t), Dash, Underscore)) + "_" + Upper(pin) + "_" + NatToString(index)
  }

  /** `type.replace(/-/g, ' ').toUpperCase()`, used for tags the name table lacks. */
  function FallbackName(t: ComponentType): string
  {
    Upper(ReplaceChar(TypeName(t), Dash, ' '))
  }

  /** `getComponentName(type)`. The table is keyed by strings; its keys 'led-rgb',
      'ultrasonic', 'temperature-sensor' and '7' match no tag, so the RGB LED, the
      servo, the buzzer and the 7-segment display get the fallback. */
  function ComponentName(t: ComponentType): string
  {
    match t
    case ArduinoUno => "Arduino Uno"
    case ArduinoMega => "Arduino Mega"
    case ArduinoNano => "Arduino Nano"
    case Esp32 => "ESP32"
    case PiPico => "Raspberry Pi Pico"
    case LedRed => "Red LED"
    case LedGreen => "Green LED"
    case LedBlue => "Blue LED"
    case LedYellow => "Yellow LED"
    case LedWhite => "White LED"
    case RgbLed => FallbackName(t)
    case Pushbutton => "Push Button"
    case SlideSwitch => "Slide Switch"
    case DipSwitch8 => "DIP Switch"
    case Potentiometer => "Potentiometer"
    case PirSensor => "PIR Motion Sensor"
    case HcSr04 => "Ultrasonic Sensor HC-SR04"
    case Dht22 => "DHT22 Temperature/Humidity Sensor"
    case Lcd1602 => "LCD 16x2"
    case Ssd1306 => "OLED Display SSD1306"
    case RelayModule => "Relay Module"
    case Resistor => "Resistor"
    case MembraneKeypad => "Membrane Keypad"
    case Neopixels => "NeoPixels"
    case SevenSegment => FallbackName(t)
    case Servo => FallbackName(t)
    case Buzzer => FallbackName(t)
  }

  const Dash := '-'
  const Underscore := '_'
  // The pin names the generator asks for when it names a variable.
  const AnodePin := "anode"
  const SignalPin := "pin"
  const TrigPin := "trig"
  const EchoPin := "echo"

  const LedText := "led"
  const PhotoText := "photo"

  /** `type.includes('led')`. */
  predicate NamesLed(t: ComponentType)
  {
    Contains(TypeName(t), LedText)
  }

  /** `type.includes('photo')`. */
  predicate NamesPhoto(t: ComponentType)
  {
    Contains(TypeName(t), PhotoText)
  }

  predicate IsLedTag(t: ComponentType)
  {
    t in {LedRed, LedGreen, LedBlue, LedYellow, LedWhite, RgbLed}
  }

  // ---------------------------------------------------------------------------
  // Variable names

  /** In `a + "_" + d` with d all digits, position |a| holds the last '_'. */
  lemma UnderscoreBeforeDigits(a: string, d: string)
    requires IsDigits(d)
    ensures (a + "_" + d)[|a|] == '_'
    ensures forall k :: |a| < k < |a + "_" + d| ==> (a + "_" + d)[k] != '_'
  {
    var s := a + "_" + d;
    forall k | |a| < k < |s| ensures s[k] != '_' {
      assert s[k] == d[k - |a| - 1];
    }
  }

  /** The text after the last '_' of `a + "_" + d` is d when d is all digits. */
  lemma DigitsSuffix(a: string, d1: string, b: string, d2: string)
    requires IsDigits(d1) && IsDigits(d2) && a + "_" + d1 == b + "_" + d2
    ensures d1 == d2 && a == b
  {
    var s := a + "_" + d1;
    UnderscoreBeforeDigits(a, d1);
    UnderscoreBeforeDigits(b, d2);
    assert |a| == |b|;
    assert d1 == s[|a| + 1..] == d2;
    assert a == s[..|a|] == b;
  }

  lemma NatToStringInjective(i: nat, j: nat)
    requires NatToString(i) == NatToString(j)
    ensures i == j
  {
    ParseNatOfNatToString(i);
    ParseNatOfNatToString(j);
  }

  /** Two pins of the same tag get the same variable name exactly when they have the
      same index and their names agree up to case: the index can be read back from the
      name, and pin names that differ only in case collide. */
  lemma PinVariableNameEquality(t: ComponentType, p1: string, i: nat, p2: string, j: nat)
    ensures PinVariableName(t, p1, i) == PinVariableName(t, p2, j) <==> i == j && Upper(p1) == Upper(p2)
  {
    var pre := Upper(ReplaceChar(TypeName(t), Dash, Underscore)) + "_";
    if PinVariableName(t, p1, i) == PinVariableName(t, p2, j) {
      assert PinVariableName(t, p1, i) == (pre + Upper(p1)) + "_" + NatToString(i);
      assert PinVariableName(t, p2, j) == (pre + Upper(p2)) + "_" + NatToString(j);
      DigitsSuffix(pre + Upper(p1), NatToString(i), pre + Upper(p2), NatToString(j));
      NatToStringInjective(i, j);
      assert Upper(p1) == (pre + Upper(p1))[|pre|..];
      assert Upper(p2) == (pre + Upper(p2))[|pre|..];
    }
  }

  /** Variable names of different components never collide: the index, which is the
      component's position, is recovered from the name whatever the tags and pins. */
  lemma PinVariableNameIndex(t1: ComponentType, p1: string, i: nat, t2: ComponentType, p2: string, j: nat)
    requires PinVariableName(t1, p1, i) == PinVariableName(t2, p2, j)
    ensures i == j
  {
    var a := Upper(ReplaceChar(TypeName(t1), Dash, Underscore)) + "_" + Upper(p1);
    var b := Upper(ReplaceChar(TypeName(t2), Dash, Underscore)) + "_" + Upper(p2);
    DigitsSuffix(a, NatToString(i), b, NatToString(j));
    NatToStringInjective(i, j);
  }

  // ---------------------------------------------------------------------------
  // Display names

  // The four tags the name table misses are named by the fallback.

  lemma FallbackRgbLed() ensures ComponentName(RgbLed) == "RGB LED" { FallbackOf("rgb-led", "RGB LED"); }
  lemma FallbackSevenSegment() ensures ComponentName(SevenSegment) == "7SEGMENT" { FallbackOf("7segment", "7SEGMENT"); }
  lemma FallbackServo() ensures ComponentName(Servo) == "SERVO" { FallbackOf("servo", "SERVO"); }
  lemma FallbackBuzzer() ensures ComponentName(Buzzer) == "BUZZER" { FallbackOf("buzzer", "BUZZER"); }

  lemma FallbackOf(s: string, r: string)
    requires |s| == |r| && forall i :: 0 <= i < |s| ==> UpperChar(if s[i] == '-' then ' ' else s[i]) == r[i]
    ensures Upper(ReplaceChar(s, '-', ' ')) == r
  {
    ReplaceCharChars(s, '-', ' ');
    UpperChars(ReplaceChar(s, '-', ' '));
  }

  // ---------------------------------------------------------------------------
  // Substring tests on tags

  /** The tags containing "led" are exactly the five single-colour LEDs and the RGB LED. */
  lemma LedTags(t: ComponentType)
    ensures NamesLed(t) <==> IsLedTag(t)
  {
    if t in {LedRed, LedGreen, LedBlue, LedYellow, LedWhite} {
      assert MatchAt(TypeName(t), "led", 0, 0);
    } else if t == RgbLed {
      assert MatchAt(TypeName(t), "led", 4, 0);
      assert ContainsFrom(TypeName(t), "led", 4);
    } else if t in {ArduinoUno, ArduinoMega, ArduinoNano, Esp32} {
      BoardTags(t);
    } else if t in {PiPico, Pushbutton, SlideSwitch, DipSwitch8} {
      NotLedB(t);
    } else if t in {Potentiometer, Lcd1602, SevenSegment, Ssd1306} {
      NotLedC(t);
    } else if t in {Dht22, HcSr04, PirSensor, MembraneKeypad} {
      NotLedD(t);
    } else if t in {Servo, Buzzer, RelayModule, Resistor} {
      NotLedE(t);
    } else if t in {Neopixels} {
      NotLedF(t);
    }
  }

  // The tags other than the LEDs, in small groups: each group's lemma checks a few
  // tags only, so that no single proof has to unfold every tag's name. They carry no
  // meaning of their own beyond that split.

  /** The board tags contain neither "led" nor "photo". */
  lemma BoardTags(t: ComponentType)
    requires t in {ArduinoUno, ArduinoMega, ArduinoNano, Esp32}
    ensures !Contains(TypeName(t), "led") && !Contains(TypeName(t), "photo")
  {
    match t
    case ArduinoUno =>
      NotContainsFrom(TypeName(t), "led", 0);
      NotContainsFrom(TypeName(t), "photo", 0);
    case ArduinoMega =>
      NotContainsFrom(TypeName(t), "led", 0);
      NotContainsFrom(TypeName(t), "photo", 0);
    case ArduinoNano =>
      NotContainsFrom(TypeName(t), "led", 0);
      NotContainsFrom(TypeName(t), "photo", 0);
    case Esp32 =>
      NotContainsFrom(TypeName(t), "led", 0);
      NotContainsFrom(TypeName(t), "photo", 0);
  }

  lemma NotLedB(t: ComponentType)
    requires t in {PiPico, Pushbutton, SlideSwitch, DipSwitch8}
    ensures !Contains(TypeName(t), "led")
  {
    match t
    case PiPico => NotContainsFrom(TypeName(t), "led", 0);
    case Pushbutton => NotContainsFrom(TypeName(t), "led", 0);
    case SlideSwitch => NotContainsFrom(TypeName(t), "led", 0);
    case DipSwitch8 => NotContainsFrom(TypeName(t), "led", 0);
  }

  lemma NotLedC(t: ComponentType)
    requires t in {Potentiometer, Lcd1602, SevenSegment, Ssd1306}
    ensures !Contains(TypeName(t), "led")
  {
    match t
    case Potentiometer => NotContainsFrom(TypeName(t), "led", 0);
    case Lcd1602 => NotContainsFrom(TypeName(t), "led", 0);
    case SevenSegment => NotContainsFrom(TypeName(t), "led", 0);
    case Ssd1306 => NotContainsFrom(TypeName(t), "led", 0);
  }

  lemma NotLedD(t: ComponentType)
    requires t in {Dht22, HcSr04, PirSensor, MembraneKeypad}
    ensures !Contains(TypeName(t), "led")
  {
    match t
    case Dht22 => NotContainsFrom(TypeName(t), "led", 0);
    case HcSr04 => NotContainsFrom(TypeName(t), "led", 0);
    case PirSensor => NotContainsFrom(TypeName(t), "led", 0);
    case MembraneKeypad => NotContainsFrom(TypeName(t), "led", 0);
  }

  lemma NotLedE(t: ComponentType)
    requires t in {Servo, Buzzer, RelayModule, Resistor}
    ensures !Contains(TypeName(t), "led")
  {
    match t
    case Servo => NotContainsFrom(TypeName(t), "led", 0);
    case Buzzer => NotContainsFrom(TypeName(t), "led", 0);
    case RelayModule => NotContainsFrom(TypeName(t), "led", 0);
    case Resistor => NotContainsFrom(TypeName(t), "led", 0);
  }

  lemma NotLedF(t: ComponentType)
    requires t in {Neopixels}
    ensures !Contains(TypeName(t), "led")
  {
    match t
    case Neopixels => NotContainsFrom(TypeName(t), "led", 0);
  }

  /** No tag contains "photo": the generator's photoresistor branch is never taken. */
  lemma NoPhotoTag(t: ComponentType)
    ensures !NamesPhoto(t)
  {
    if t in {ArduinoUno, ArduinoMega, ArduinoNano, Esp32} {
      BoardTags(t);
    } else if t in {PiPico, LedRed, LedGreen, LedBlue} {
      NoPhotoB(t);
    } else if t in {LedYellow, LedWhite, RgbLed, Pushbutton} {
      NoPhotoC(t);
    } else if t in {SlideSwitch, DipSwitch8, Potentiometer, Lcd1602} {
      NoPhotoD(t);
    } else if t in {SevenSegment, Ssd1306, Dht22, HcSr04} {
      NoPhotoE(t);
    } else if t in {PirSensor, MembraneKeypad, Servo, Buzzer} {
      NoPhotoF(t);
    } else {
      NoPhotoG(t);
    }
  }

  lemma NoPhotoB(t: ComponentType)
    requires t in {PiPico, LedRed, LedGreen, LedBlue}
    ensures !Contains(TypeName(t), "photo")
  {
    match t
    case PiPico => NotContainsFrom(TypeName(t), "photo", 0);
    case LedRed => NotContainsFrom(TypeName(t), "photo", 0);
    case LedGreen => NotContainsFrom(TypeName(t), "photo", 0);
    case LedBlue => NotContainsFrom(TypeName(t), "photo", 0);
  }

  lemma NoPhotoC(t: ComponentType)
    requires t in {LedYellow, LedWhite, RgbLed, Pushbutton}
    ensures !Contains(TypeName(t), "photo")
  {
    match t
    case LedYellow => NotContainsFrom(TypeName(t), "photo", 0);
    case LedWhite => NotContainsFrom(TypeName(t), "photo", 0);
    case RgbLed => NotContainsFrom(TypeName(t), "photo", 0);
    case Pushbutton => NotContainsFrom(TypeName(t), "photo", 0);
  }

  lemma NoPhotoD(t: ComponentType)
    requires t in {SlideSwitch, DipSwitch8, Potentiometer, Lcd1602}
    ensures !Contains(TypeName(t), "photo")
  {
    match t
    case SlideSwitch => NotContainsFrom(TypeName(t), "photo", 0);
    case DipSwitch8 => NotContainsFrom(TypeName(t), "photo", 0);
    case Potentiometer => NotContainsFrom(TypeName(t), "photo", 0);
    case Lcd1602 => NotContainsFrom(TypeName(t), "photo", 0);
  }

  lemma NoPhotoE(t: ComponentType)
    requires t in {SevenSegment, Ssd1306, Dht22, HcSr04}
    ensures !Contains(TypeName(t), "photo")
  {
    match t
    case SevenSegment => NotContainsFrom(TypeName(t), "photo", 0);
    case Ssd1306 => NotContainsFrom(TypeName(t), "photo", 0);
    case Dht22 => NotContainsFrom(TypeName(t), "photo", 0);
    case HcSr04 => NotContainsFrom(TypeName(t), "photo", 0);
  }

  lemma NoPhotoF(t: ComponentType)
    requires t in {PirSensor, MembraneKeypad, Servo, Buzzer}
    ensures !Contains(TypeName(t), "photo")
  {
    match t
    case PirSensor => NotContainsFrom(TypeName(t), "photo", 0);
    case MembraneKeypad => NotContainsFrom(TypeName(t), "photo", 0);
    case Servo => NotContainsFrom(TypeName(t), "photo", 0);
    case Buzzer => NotContainsFrom(TypeName(t), "photo", 0);
  }

  lemma NoPhotoG(t: ComponentType)
    requires t in {RelayModule, Resistor, Neopixels}
    ensures !Contains(TypeName(t), "photo")
  {
    match t
    case RelayModule => NotContainsFrom(TypeName(t), "photo", 0);
    case Resistor => NotContainsFrom(TypeName(t), "photo", 0);
    case Neopixels => NotContainsFrom(TypeName(t), "photo", 0);
  }
}
