# Arduino circuit editor core in Dafny

This project models the logic of a browser-based Arduino circuit editor and simulator.
The user drops components from a catalog onto a canvas, wires their pins, and the editor
generates an Arduino sketch for the circuit. A logic-level simulation then lets a push
button drive an LED. The model covers:

- the data model: the closed set of 27 component tags, pin values, pin maps in insertion
  order, placed components and the circuit with its designated microcontroller, and the
  board's digital, analog and PWM pin lists (`Types`);
- the component catalog: category, pin count and default pins per tag, and the palette's
  category list (`Catalog`);
- the two-role pin validator and the wiring engine that commits only legal pin updates
  (`PinValidator`, `Wiring`);
- the three sketch generators:
  - the fixed LED-and-button template (`CodeGenerator`);
  - the FOSSEE generator, which looks up the first red LED and push button (`FosseeGenerator`);
  - the advanced generator, split into its name synthesis (`AdvancedNames`), header
    (`AdvancedHeader`), pin definitions (`AdvancedPins`), `setup()` (`AdvancedSetup`),
    `loop()` (`AdvancedLoop`) and the assembly with its placeholders (`AdvancedGenerator`);
- the canvas edits: drop, pin change, remove, move and resize. The strict editor is
  `SimpleCanvas` and the permissive one is `Canvas`. The copy-on-write edits both share are
  in `CircuitEdits`;
- the simulation engine's running, button and LED state (`Simulation`);
- the application shell: generator mode, circuit, shown code, simulation flag and LED
  state, and the start, stop and interaction rules (`AppState`).

`Strings` holds the text helpers the generators need:
- JavaScript's rendering of integers and its inverse;
- ASCII upper-casing and character replacement;
- `includes` and `join`;
- a line view of generated text.

A stateful component becomes a class: `Wiring.WiringEngine`, `Simulation.SimulationEngine`
and `AppState.App`. Their methods carry `modifies` clauses and state the whole new state.
The generator helpers that build text with `+=` in loops are methods. Each method is proved
equal to a function over lists of lines, and the properties are proved about those
functions. The canvas handlers build a new circuit by spread, `map` and `filter`, so they
are functions from circuit to an `Edit`: changed, unchanged or refused with a reason. The
permissive drop copies the catalog's default pins in a loop (`Canvas.CopyPins`).

Where the code does something that its own comments, names or messages do not lead one to
expect, the model follows the code. The lemmas below exhibit these cases:

- `SimpleCanvas.GroundIsChecked`: the strict pin check looks for the new value among all of
  another component's pin values (`Object.values(...).includes`). The ground sentinel 0 is
  not excluded, so with a default LED on the canvas no other pin can be set to 0.
- `SimpleCanvas.DropMayShareAPin`: the strict editor never checks a drop's default pins, so
  two components can share a non-zero pin. "No shared pins" holds only for pin changes
  (`SimpleCanvas.PinChangeKeepsPinsApart`).
- `CircuitEdits.MoveLeavesBoardStale`: move and resize leave the microcontroller reference
  as it was, so it no longer equals the listed board. Pin changes and removals keep it in
  step (`CircuitEdits.ApplyPinKeepsBoardTracked`, `CircuitEdits.RemoveKeepsBoardTracked`).
- `AdvancedGenerator.PlaceholdersExactly`: the advanced generator compares the count of all
  components, board included, with 1. A board alone therefore gets the "add a
  microcontroller" placeholder, not the "add components" one. The second placeholder
  appears only when more than one component is listed and all of them carry the board's
  id. `AdvancedGenerator.LonePeripheralIgnored` shows the converse: a single listed
  component that is not the board is never described.
- `AdvancedLoop.UltrasonicNeverWritten`: the ultrasonic sensor is not among the inputs the
  loop filters for, so the distance block is never emitted.
- `AdvancedLoop.MirrorUsesOutputPosition`: the loop names the LED variable with the LED's
  position among the outputs, but the pin definitions name it with its position among all
  peripherals. For a button followed by an LED, the mirror writes a variable that is never
  declared.
- `AdvancedSetup.CatalogSetupUndeclared`: with catalog default pins, the setup of an RGB
  LED, a PIR sensor, a servo or a relay module uses a pin name (`anode` or `pin`) that its
  catalog entry lacks. The variable it uses is never declared. The DHT22's commented read
  in the loop likewise names a `pin` pin, while its catalog pin is `data`.
- `AdvancedNames.ComponentName`: the name table's keys `led-rgb`, `ultrasonic`,
  `temperature-sensor` and `7` match no tag. So the RGB LED, the servo, the buzzer and the
  7-segment display get the upper-cased fallback (`AdvancedNames.FallbackRgbLed` and its
  siblings).
- `AppState.BoardAloneStartsInAdvancedMode`: the start handler does not check the component
  count, which `canSimulate` does.
- `AppState.App.SetMode`: switching mode does not regenerate the code. The initial code
  text is one neither generator produces (`AppState.InitialCodeIsNotGenerated`).
- `Simulation.PressBeforeStart`: a button pressed while stopped is recorded but not shown.
  After a start the LED stays off until the next button event.
- The pin map is declared with numeric values, but the catalog stores analog tokens such
  as "A0" in it. A pin value is therefore a digital number or an analog token
  (`Types.PinValue`).
- `PinConfig` and `AVAILABLE_PINS` are imported by the validator but not defined in the
  types file. The model takes the LED-and-button pair the wiring engine uses, and the
  digital pins 2..13 as the available pins.

## Model

| member | source | states |
|---|---|---|
| Types.ListedAtOrdinal | src/types/index.ts:6-20 | Each tag is listed at its ordinal. |
| Types.AllTypesClosed | src/types/index.ts:6-20 | There are exactly 27 tags, no tag is listed twice, and every tag is listed. |
| Types.OrdinalsOfAllTypes | src/types/index.ts:6-20 | Each tag's ordinal is its position in declaration order. |
| Types.DigitalPinsAreTwoToThirteen | src/types/index.ts:41 | The digital pins are 2..13 in ascending order, so 0 and 1 are absent: p is listed iff 2 <= p <= 13. |
| Types.AnalogPinsAreA0ToA5 | src/types/index.ts:42 | The analog pins are exactly "A0".."A5". |
| Types.PwmPinsAreDigital | src/types/index.ts:41-43 | Every PWM pin is a digital pin. |
| Types.Lookup | src/engine/FOSSEECodeGenerator.ts:20-21 | `pins[k]` is present exactly when the key is in the map, and it is the value paired with the key. |
| Types.Assign | src/components/SimpleCanvas.tsx:123-126 | `{...pins, [k]: v}`: a new key is appended at the end; an existing key keeps its place and every key stays in position. |
| Types.AssignLookup | src/components/SimpleCanvas.tsx:123-126 | After the assignment k maps to v and every other key maps to what it did before. |
| Types.AssignKeys | src/components/SimpleCanvas.tsx:123-126 | The assignment adds no key other than k. |
| Types.AssignKeepsKeysUnique | src/components/SimpleCanvas.tsx:123-126 | A map naming each pin once still names each pin once after an assignment. |
| Types.FirstOfType | src/engine/FOSSEECodeGenerator.ts:12-13 | The position returned holds the tag, and no earlier position does; it is the length when the tag is absent. |
| Types.FindByType | src/engine/FOSSEECodeGenerator.ts:12-13 | `find` by tag is None exactly when no component has the tag; otherwise it is the first component with that tag. |
| Types.FirstOfId | src/components/SimpleCanvas.tsx:105 | The position returned holds the id, and no earlier position does; it is the length when the id is absent. |
| Types.FindById | src/components/SimpleCanvas.tsx:105 | `find` by id is None exactly when no component has the id; otherwise it is the first component with that id in list order. |
| Catalog.MicrocontrollersAreTheBoards | src/data/componentLibrary.ts:5-39 | The category is microcontroller exactly for the five boards, and no board has default pins. |
| Catalog.LedAndButtonDefaults | src/data/componentLibrary.ts:41-98 | Each single-colour LED defaults to anode 10 and cathode 0; the push button defaults to pin 2 and gnd 0. |
| Catalog.AnalogDefaultsOnly | src/data/componentLibrary.ts:120-145 | The only analog defaults are the potentiometer's signal A0 and the OLED's sda A4 and scl A5. |
| Catalog.DigitalDefaultsInRange | src/data/componentLibrary.ts:47-221 | Every default digital value is the ground sentinel 0 or one of the digital pins. |
| Catalog.DefaultPinsWellFormed | src/data/componentLibrary.ts:47-221 | A default pin map, when present, is non-empty and names each pin once. |
| Catalog.CategoriesListEachOnce | src/data/componentLibrary.ts:226-234 | The palette lists the seven categories once each, in the order microcontroller, input, output, sensor, display, actuator, passive. |
| PinValidator.IsValidPinRange | src/utils/pinValidator.ts:5-7 | A pin is valid exactly when it is one of 2..13. |
| PinValidator.CanAssignPinExactly | src/utils/pinValidator.ts:9-22 | A pin is assignable iff it is valid and differs from the other role's pin. An invalid pin never is. The LED cannot take the button's pin, nor the button the LED's. A role's own valid pin is assignable. |
| PinValidator.FilterAssignable | src/utils/pinValidator.ts:28-30 | The filter keeps exactly the listed pins the role can take, and never lengthens the list. |
| PinValidator.FilterKeepsOrder | src/utils/pinValidator.ts:28-30 | Filtering an ascending list gives an ascending list. |
| PinValidator.FilterCount | src/utils/pinValidator.ts:28-30 | Filtering valid ascending pins drops one pin if the other role holds one of them, and none otherwise. |
| PinValidator.AvailablePinsExactly | src/utils/pinValidator.ts:24-31 | The pins offered are ascending: every digital pin except the other role's pin, 11 of them when that pin is valid and 12 otherwise. |
| Wiring.WiringEngine.constructor | src/engine/WiringEngine.ts:7-12 | The engine starts with the LED on 10 and the button on 2. |
| Wiring.WiringEngine.GetPinConfig | src/engine/WiringEngine.ts:14-16 | Returns the configuration held and changes nothing. |
| Wiring.WiringEngine.SetPinConfig | src/engine/WiringEngine.ts:18-20 | Replaces the configuration without validation. |
| Wiring.WiringEngine.UpdatePin | src/engine/WiringEngine.ts:22-29 | Returns whether the validator accepts the pin. A refusal leaves the configuration unchanged. An acceptance moves only the named role to the new pin. |
| Wiring.WiringEngine.GetAvailablePinsFor | src/engine/WiringEngine.ts:32-34 | Returns the validator's available pins for the role under the current configuration. |
| Wiring.UpdatedKeepsWellWired | src/engine/WiringEngine.ts:22-29 | An update keeps both pins valid and distinct. |
| Wiring.UpdatesKeepWellWired | src/engine/WiringEngine.ts:22-29 | Any sequence of updates from a well-wired configuration keeps it well wired. |
| Wiring.InitialConfigWellWired | src/engine/WiringEngine.ts:7-29 | The initial configuration is well wired, and so is every configuration reached from it by updates. |
| Wiring.DriveFromInitial | src/engine/WiringEngine.ts:7-29 | A fresh engine driven by any updates ends with the LED and the button on distinct valid pins. |
| CodeGenerator.GeneratedLines | src/engine/CodeGenerator.ts:4-38 | Split at its line breaks, the sketch is exactly its 33 template lines. |
| CodeGenerator.HeaderDeclares | src/engine/CodeGenerator.ts:5-10 | Lines that begin with the header declare LED_PIN and BUTTON_PIN with the configured pins. |
| CodeGenerator.DeclaresConfiguredPins | src/engine/CodeGenerator.ts:9-10 | The sketch's first declarations of LED_PIN and BUTTON_PIN carry the configured pins, and read back as those integers. |
| CodeGenerator.HeaderNamesPins | src/engine/CodeGenerator.ts:5-7 | The header comments name the LED's pin and then the button's pin. |
| CodeGenerator.LoopMirrorsButton | src/engine/CodeGenerator.ts:12-37 | Setup makes the LED an output and the button an input and turns the LED off. The loop reads the button and writes the LED HIGH on HIGH and LOW otherwise. These lines do not depend on the configuration. |
| CodeGenerator.GenerateInjective | src/engine/CodeGenerator.ts:4-38 | Equal sketches come from equal configurations. |
| FosseeGenerator.PinOrFallback | src/engine/FOSSEECodeGenerator.ts:20-21 | `pins?.[key] \|\| fallback` uses a present truthy value as is, and the fallback for a missing map, a missing key, 0 or "". |
| FosseeGenerator.SketchLongerThanPlaceholder | src/engine/FOSSEECodeGenerator.ts:16-27 | Every sketch is longer than the placeholder. |
| FosseeGenerator.PlaceholderExactly | src/engine/FOSSEECodeGenerator.ts:12-18 | The output is the placeholder exactly when the board, a red LED or a push button is missing. |
| FosseeGenerator.UsesFirstLedAndButton | src/engine/FOSSEECodeGenerator.ts:12-21 | The sketch is filled with the pins of the first red LED and the first push button in list order. |
| FosseeGenerator.DependsOnlyOnResolvedPins | src/engine/FOSSEECodeGenerator.ts:23-55 | Two complete circuits with the same resolved LED and button pins get the same sketch. |
| FosseeGenerator.SameCode | src/engine/FOSSEECodeGenerator.ts:11-56 | Circuits that are both incomplete, or both complete with the same resolved pins, get the same code. |
| FosseeGenerator.SketchHeader | src/engine/FOSSEECodeGenerator.ts:23-29 | Split at its line breaks, the sketch begins with its seven header lines. |
| FosseeGenerator.HeaderDeclares | src/engine/FOSSEECodeGenerator.ts:28-29 | Lines that begin with the header declare LED_PIN and BUTTON_PIN with the given pin texts. |
| FosseeGenerator.DeclaresResolvedPins | src/engine/FOSSEECodeGenerator.ts:20-29 | A complete circuit's sketch declares LED_PIN with the resolved anode and BUTTON_PIN with the resolved button pin. |
| FosseeGenerator.LoopBlockLines | src/engine/FOSSEECodeGenerator.ts:42-55 | No line of the loop holds a line break. |
| FosseeGenerator.SketchTail | src/engine/FOSSEECodeGenerator.ts:23-55 | Split into lines, the sketch is its header's lines followed by the 26 fixed lines, whatever text the pins are written as. |
| FosseeGenerator.GeneratedTail | src/engine/FOSSEECodeGenerator.ts:30-55 | A complete circuit's sketch ends with the 26 fixed lines: an empty line, the setup, an empty line, the loop. |
| FosseeGenerator.LoopMirrorsButton | src/engine/FOSSEECodeGenerator.ts:31-55 | Setup makes the LED an output and the button an input and starts with the LED off; the loop reads the button and writes the LED HIGH on HIGH and LOW otherwise. |
| FosseeGenerator.AgreesWithFixedGenerator | src/engine/FOSSEECodeGenerator.ts:23-55 | With digital pins, the sketch declares the same pins as the fixed generator's sketch for that configuration, and they read back as those numbers. |
| AdvancedNames.PinVariableNameEquality | src/engine/AdvancedCodeGenerator.ts:295-299 | Two pins of one tag get the same variable name iff their indices are equal and their names agree after upper-casing. |
| AdvancedNames.PinVariableNameIndex | src/engine/AdvancedCodeGenerator.ts:295-299 | Equal variable names have equal indices, whatever the tags and pins. |
| AdvancedNames.FallbackRgbLed | src/engine/AdvancedCodeGenerator.ts:301-333 | The RGB LED is named "RGB LED" by the fallback, since the table's key is `led-rgb`. |
| AdvancedNames.FallbackSevenSegment | src/engine/AdvancedCodeGenerator.ts:301-333 | The 7-segment display is named "7SEGMENT" by the fallback. |
| AdvancedNames.FallbackServo | src/engine/AdvancedCodeGenerator.ts:301-333 | The servo is named "SERVO" by the fallback. |
| AdvancedNames.FallbackBuzzer | src/engine/AdvancedCodeGenerator.ts:301-333 | The buzzer is named "BUZZER" by the fallback, since the table's entry for it is keyed `7`. |
| AdvancedNames.LedTags | src/engine/AdvancedCodeGenerator.ts:95 | `type.includes('led')` holds exactly for the five single-colour LEDs and the RGB LED. |
| AdvancedNames.NoPhotoTag | src/engine/AdvancedCodeGenerator.ts:140 | No tag contains "photo". |
| AdvancedHeader.NonZeroPins | src/engine/AdvancedCodeGenerator.ts:52-53 | The filter keeps exactly the entries whose value is not the number 0. |
| AdvancedHeader.NonZeroPinsInOrder | src/engine/AdvancedCodeGenerator.ts:52-53 | The list is empty iff every pin is 0, and each non-zero pin follows the non-zero pins before it. |
| AdvancedHeader.PinTexts | src/engine/AdvancedCodeGenerator.ts:54 | Each entry is written `key=value`, one per entry, in order. |
| AdvancedHeader.GeneratePreamble | src/engine/AdvancedCodeGenerator.ts:43-47 | The five fixed header lines: title, board, count, separator and configuration heading. |
| AdvancedHeader.AppendComponentLines | src/engine/AdvancedCodeGenerator.ts:49-60 | Appends one numbered line per component to the text built so far. |
| AdvancedHeader.GenerateHeader | src/engine/AdvancedCodeGenerator.ts:42-63 | `generateHeader` returns the text of the header lines. |
| AdvancedHeader.HeaderListsComponents | src/engine/AdvancedCodeGenerator.ts:45-60 | The header states the number of peripherals and lists each one in order, numbered from 1. |
| AdvancedHeader.ComponentLinesAt | src/engine/AdvancedCodeGenerator.ts:49-60 | Line i describes the component at position i. |
| AdvancedHeader.LedLineExample | src/engine/AdvancedCodeGenerator.ts:51-56 | A red LED with its catalog pins is listed as "// 1. Red LED (anode=10)": the cathode at 0 is left out. |
| AdvancedPins.DeclarePin | src/engine/AdvancedCodeGenerator.ts:73-81 | A pin's declaration is appended unless its name is already declared, and the map of declared names records it. |
| AdvancedPins.DeclareStep | src/engine/AdvancedCodeGenerator.ts:78-81 | A name already declared adds nothing; a new name adds its declaration line. |
| AdvancedPins.DeclarePins | src/engine/AdvancedCodeGenerator.ts:72-82 | The inner loop declares the first occurrences among the earlier declarations and this map's non-zero pins. |
| AdvancedPins.GeneratePinDefinitions | src/engine/AdvancedCodeGenerator.ts:65-86 | `generatePinDefinitions` returns the text of the first-occurrence declarations of all peripherals' non-zero pins. |
| AdvancedPins.PinDeclsComplete | src/engine/AdvancedCodeGenerator.ts:72-76 | Every non-zero pin of a map offers its declaration. |
| AdvancedPins.PinDeclsSound | src/engine/AdvancedCodeGenerator.ts:72-76 | Every declaration a map offers comes from one of its non-zero pins. |
| AdvancedPins.CandidatesComplete | src/engine/AdvancedCodeGenerator.ts:69-83 | Every component's declarations are offered by the list. |
| AdvancedPins.CandidatesSound | src/engine/AdvancedCodeGenerator.ts:69-83 | Every offered declaration comes from a component, at that component's position. |
| AdvancedPins.FirstOccurrencesExactly | src/engine/AdvancedCodeGenerator.ts:78-81 | Skipping repeated names keeps each name once and loses no name. For each name it keeps the declaration of that name's first occurrence, and the names come out in the order of their first occurrences. |
| AdvancedPins.FirstIndexSnoc | src/engine/AdvancedCodeGenerator.ts:78-81 | A name is offered before the end exactly when it occurs; appending a declaration moves no first position, and a new name first occurs at the end. |
| AdvancedPins.FirstOccurrencesInOrder | src/engine/AdvancedCodeGenerator.ts:68-82 | The declarations kept come in the order in which their names are first offered. |
| AdvancedPins.DefinitionsExactly | src/engine/AdvancedCodeGenerator.ts:65-86 | Each variable name is declared once. Every non-zero pin of every peripheral has its variable declared. Every declaration comes from a non-zero pin, named with that component's position. The declarations come in the order in which their names are first offered, component by component. |
| AdvancedPins.DeclaredIff | src/engine/AdvancedCodeGenerator.ts:69-83 | The variable for position i and a pin name is declared iff that component has a non-zero pin whose name upper-cases the same. |
| AdvancedSetup.GenerateSetup | src/engine/AdvancedCodeGenerator.ts:88-182 | `generateSetupCode` returns each peripheral's statements in list order, one per line. |
| AdvancedSetup.SetupForTags | src/engine/AdvancedCodeGenerator.ts:95-142 | With the two substring tests decided, the branch chain picks the LED branch for the LED tags and never the photoresistor branch. |
| AdvancedSetup.SetupPinsExactly | src/engine/AdvancedCodeGenerator.ts:91-179 | A peripheral's setup uses, in order, exactly the pins its tag calls for. A switch without a truthy `pin` uses none. |
| AdvancedSetup.SetupEmptyExactly | src/engine/AdvancedCodeGenerator.ts:91-179 | A peripheral writes at most two statements. It writes none iff its tag has no branch or it is a switch without a truthy `pin`. |
| AdvancedSetup.CatalogSetupUndeclared | src/engine/AdvancedCodeGenerator.ts:94-162 | With catalog pins, a peripheral's setup uses an undeclared variable iff it is an RGB LED, a PIR sensor, a servo or a relay module. |
| AdvancedSetup.CatalogHasPin | src/engine/AdvancedCodeGenerator.ts:94-162 | For the other tags, each pin the setup uses is a non-zero catalog pin. |
| AdvancedSetup.CatalogLacksPin | src/engine/AdvancedCodeGenerator.ts:94-162 | The RGB LED, the PIR sensor, the servo and the relay module lack a non-zero catalog pin of the name their setup uses. |
| AdvancedLoop.FirstLed | src/engine/AdvancedCodeGenerator.ts:226 | `outputs.find(includes('led'))` is the first output whose tag contains "led". |
| AdvancedLoop.ReadInputs | src/engine/AdvancedCodeGenerator.ts:200-216 | The reads of all inputs, in order. |
| AdvancedLoop.GenerateReadSection | src/engine/AdvancedCodeGenerator.ts:198-218 | A heading, the reads and an empty line when there are inputs; nothing otherwise. |
| AdvancedLoop.WriteLevel | src/engine/AdvancedCodeGenerator.ts:254-266 | One write of the level per LED among the outputs, named with its position among the outputs. |
| AdvancedLoop.BlinkLeds | src/engine/AdvancedCodeGenerator.ts:241-249 | Each LED among the outputs blinks in turn. |
| AdvancedLoop.GenerateBlinkPattern | src/engine/AdvancedCodeGenerator.ts:251-268 | All LEDs on, a wait, all LEDs off, a wait. |
| AdvancedLoop.GenerateResponse | src/engine/AdvancedCodeGenerator.ts:225-250 | The mirror when a button and an LED exist, the in-turn blink otherwise. |
| AdvancedLoop.GenerateControl | src/engine/AdvancedCodeGenerator.ts:221-268 | The control section for inputs with outputs, the blink pattern for outputs alone, nothing otherwise. |
| AdvancedLoop.GenerateUltrasonic | src/engine/AdvancedCodeGenerator.ts:271-290 | The distance block of the first ultrasonic sensor among the inputs, if any. |
| AdvancedLoop.GenerateLoop | src/engine/AdvancedCodeGenerator.ts:184-293 | `generateLoopCode` returns the sections, or the fallback comment when they are empty. |
| AdvancedLoop.OutputTags | src/engine/AdvancedCodeGenerator.ts:193-195 | The outputs are the LEDs (the RGB LED among them), the buzzer and the relay. |
| AdvancedLoop.SelectInOrder | src/engine/AdvancedCodeGenerator.ts:188-195 | `filter` keeps the peripherals' order. |
| AdvancedLoop.InputsExactly | src/engine/AdvancedCodeGenerator.ts:188-191 | The inputs are exactly the peripherals with an input tag. |
| AdvancedLoop.InputsInOrder | src/engine/AdvancedCodeGenerator.ts:188-191 | The inputs keep the peripherals' order. |
| AdvancedLoop.OutputsExactly | src/engine/AdvancedCodeGenerator.ts:193-195 | The outputs are exactly the peripherals with an output tag. |
| AdvancedLoop.OutputsInOrder | src/engine/AdvancedCodeGenerator.ts:193-195 | The outputs keep the peripherals' order. |
| AdvancedLoop.InputsOutputsDisjoint | src/engine/AdvancedCodeGenerator.ts:188-195 | No peripheral is both an input and an output. |
| AdvancedLoop.NoUltrasonicInput | src/engine/AdvancedCodeGenerator.ts:188-191 | No input is an ultrasonic sensor. |
| AdvancedLoop.UltrasonicNeverWritten | src/engine/AdvancedCodeGenerator.ts:271-290 | The distance block is never written, whatever the peripherals. |
| AdvancedLoop.BodyOpens | src/engine/AdvancedCodeGenerator.ts:198-268 | Without the distance block, the sections are empty iff there are no inputs and no outputs. Otherwise they open with a heading. |
| AdvancedLoop.FallbackExactly | src/engine/AdvancedCodeGenerator.ts:292 | The loop is never empty. It is the fallback comment alone iff no peripheral is an input or an output. |
| AdvancedLoop.IgnoresOthers | src/engine/AdvancedCodeGenerator.ts:188-195 | A peripheral that is neither an input nor an output leaves the loop unchanged. |
| AdvancedLoop.ControlIsMirror | src/engine/AdvancedCodeGenerator.ts:225-238 | With a push button among the inputs and an LED among the outputs, the control section is the mirror of the first button onto the first LED. |
| AdvancedLoop.MirrorReadsState | src/engine/AdvancedCodeGenerator.ts:200-238 | The state variable the mirror tests is assigned earlier in the loop from the first button's pin. The LED then follows it: HIGH on HIGH, LOW otherwise. |
| AdvancedLoop.BlinkEachFollowsLevels | src/engine/AdvancedCodeGenerator.ts:239-267 | The in-turn blink and the blink pattern switch the same LEDs in the same order. |
| AdvancedLoop.MirrorUsesOutputPosition | src/engine/AdvancedCodeGenerator.ts:229-232 | For a button followed by an LED, the mirror writes the LED's variable with index 0. The definitions declare it with index 1 and never with 0. |
| AdvancedGenerator.Generate | src/engine/AdvancedCodeGenerator.ts:4-40 | `generate` returns the placeholder or the sketch assembled from the four sections. |
| AdvancedGenerator.PeripheralsExactly | src/engine/AdvancedCodeGenerator.ts:9 | The peripherals are exactly the components whose id is not the board's. |
| AdvancedGenerator.PlaceholdersDiffer | src/engine/AdvancedCodeGenerator.ts:5-13 | The two placeholders differ, and both are shorter than any sketch's fixed text. |
| AdvancedGenerator.SketchIsNotPlaceholder | src/engine/AdvancedCodeGenerator.ts:27-39 | A sketch is neither placeholder. |
| AdvancedGenerator.PlaceholdersExactly | src/engine/AdvancedCodeGenerator.ts:5-13 | The first placeholder appears iff there is no board or at most one component. The second appears iff there is a board and more than one component, all carrying the board's id. |
| AdvancedGenerator.HeaderListsPeripherals | src/engine/AdvancedCodeGenerator.ts:9-25 | The header counts and lists the peripherals only; the board is never among them. |
| AdvancedGenerator.SketchSplit | src/engine/AdvancedCodeGenerator.ts:27-29 | Split into lines, a sketch is its header's lines, two empty lines (the header ends in a line break and the template adds two), and the lines of the rest. |
| AdvancedGenerator.GapLines | src/engine/AdvancedCodeGenerator.ts:27-29 | Text ending in a line break, followed by the template's two line breaks, leaves two empty lines before what follows. |
| AdvancedGenerator.SketchLinesOpening | src/engine/AdvancedCodeGenerator.ts:27-39 | Header lines without line breaks come back exactly, followed by two empty lines and then, when they hold no line break either, the pin definition lines. |
| AdvancedGenerator.SketchOfCircuit | src/engine/AdvancedCodeGenerator.ts:4-39 | With a board, more than one component and a peripheral, the output is the template filled with the four sections of the peripherals. |
| AdvancedGenerator.SketchOpening | src/engine/AdvancedCodeGenerator.ts:27-63 | A generated sketch opens with its header's lines and then two empty lines; header lines without line breaks come back exactly. |
| AdvancedGenerator.LonePeripheralIgnored | src/engine/AdvancedCodeGenerator.ts:5-9 | With a board set and a single listed component that is not the board, the output is the first placeholder, although that component is a peripheral. |
| CircuitEdits.Clamp | src/components/SimpleCanvas.tsx:67-68 | A coordinate becomes at least 20, and is kept when it already is. |
| CircuitEdits.NewIdInjective | src/components/SimpleCanvas.tsx:80 | Two drops of one tag at different clock readings get different ids. |
| CircuitEdits.Apply | src/components/SimpleCanvas.tsx:119-130 | A change keeps the component's id and tag. |
| CircuitEdits.Updated | src/components/SimpleCanvas.tsx:159-161 | `map` by id changes exactly the components with the id and keeps the length. |
| CircuitEdits.MoveTouchesOnlyPosition | src/components/SimpleCanvas.tsx:158-168 | A move sets the position of each component with the id. Ids, tags, pins, scales and the board reference are unchanged. |
| CircuitEdits.ResizeTouchesOnlyScale | src/components/SimpleCanvas.tsx:170-182 | A resize sets the scale of each component with the id and changes nothing else. |
| CircuitEdits.ApplyPinTouchesOnlyThatPin | src/components/SimpleCanvas.tsx:119-130 | A pin change writes that pin of each component with the id and a pin map, and keeps its other pins. Components without a map, or with another id, are untouched. |
| CircuitEdits.ApplyPinRefreshesBoard | src/components/SimpleCanvas.tsx:132-138 | When the board has the id and the id is listed, the reference becomes the updated component. Otherwise it is kept. |
| CircuitEdits.RemoveExactly | src/components/SimpleCanvas.tsx:148-156 | Removal keeps exactly the components with another id. It clears the board reference iff the board has the id. |
| CircuitEdits.WithoutExactly | src/components/SimpleCanvas.tsx:149 | `filter` by id keeps exactly the components with another id, and the whole list when the id is absent. |
| CircuitEdits.AppendKeepsBoardTracked | src/components/SimpleCanvas.tsx:87-92 | Appending a component with a fresh id keeps the board reference equal to the listed board. |
| CircuitEdits.RemoveKeepsBoardTracked | src/components/SimpleCanvas.tsx:148-156 | Removal keeps the board reference equal to the listed board. |
| CircuitEdits.ApplyPinKeepsBoardTracked | src/components/SimpleCanvas.tsx:119-138 | A pin change keeps the board reference equal to the listed board. |
| CircuitEdits.MoveLeavesBoardStale | src/components/SimpleCanvas.tsx:158-168 | Moving the board leaves the reference pointing at the old component, which then differs from the listed board. |
| CircuitEdits.UpdatedKeepsBoardsAgree | src/components/SimpleCanvas.tsx:158-182 | Moves and resizes keep at most one board, the referenced one. |
| CircuitEdits.ApplyPinKeepsBoardsAgree | src/components/SimpleCanvas.tsx:119-138 | Pin changes keep at most one board, the referenced one. |
| CircuitEdits.RemoveKeepsBoardsAgree | src/components/SimpleCanvas.tsx:148-156 | Removals keep at most one board, the referenced one. |
| CircuitEdits.AppendKeepsBoardsAgree | src/components/SimpleCanvas.tsx:61-92 | Appending a non-board, or a board to a circuit without one, keeps at most one board, the referenced one. |
| CircuitEdits.LayoutKeepsFosseeCode | src/components/SimpleCanvas.tsx:158-182 | Moving or resizing any component leaves the FOSSEE sketch as it was. |
| CircuitEdits.LayoutKeepsFirstOfType | src/components/SimpleCanvas.tsx:158-182 | Moves and resizes keep which tags are present, and the pins of the first component of each. |
| SimpleCanvas.DropRules | src/components/SimpleCanvas.tsx:43-100 | A drop does nothing without a tag. It is refused for a tag already present, then for a second board, and accepted otherwise. |
| SimpleCanvas.DropAppends | src/components/SimpleCanvas.tsx:66-92 | An accepted drop appends one component at the clamped point. It carries the fixed LED or button pins (none for other tags) and becomes the board iff it is a microcontroller. |
| SimpleCanvas.DropKeepsTypesDistinct | src/components/SimpleCanvas.tsx:54-58 | Accepted drops keep every tag at most once. |
| SimpleCanvas.DropKeepsBoardsAgree | src/components/SimpleCanvas.tsx:61-92 | Accepted drops keep at most one board, the referenced one. |
| SimpleCanvas.PinChangeRules | src/components/SimpleCanvas.tsx:102-146 | An unknown id does nothing. The change is refused iff another component holds the value, and is otherwise the shared pin edit. |
| SimpleCanvas.SetPinValues | src/components/SimpleCanvas.tsx:119-130 | A value the edited component holds after the change is the new value or one it held before. |
| SimpleCanvas.SharesAfterSetPin | src/components/SimpleCanvas.tsx:109-130 | Sharing a pin with the edited component afterwards means sharing the new value, or sharing before. |
| SimpleCanvas.PinChangeKeepsPinsApart | src/components/SimpleCanvas.tsx:102-138 | An accepted pin change keeps non-zero pins apart across components. |
| SimpleCanvas.GroundIsChecked | src/components/SimpleCanvas.tsx:109-117 | With a default red LED present, setting another component's pin to 0 is refused. |
| SimpleCanvas.DropMayShareAPin | src/components/SimpleCanvas.tsx:71-92 | A red LED dropped next to a button on pin 10 is accepted, and the two share pin 10. |
| Canvas.CopyPins | src/components/Canvas.tsx:63-69 | The copied dictionary names each pin once, has the defaults' pin names, and is the defaults themselves when those name each pin once. |
| Canvas.DropComponent | src/components/Canvas.tsx:43-92 | `handleDrop` produces the drop edit. |
| Canvas.DropRules | src/components/Canvas.tsx:43-92 | A drop does nothing without a tag, is refused iff it adds a second board, and is accepted otherwise. |
| Canvas.DropAppends | src/components/Canvas.tsx:59-84 | An accepted drop appends one component at the clamped point. It carries the catalog's default pins (none when there are none) and becomes the board iff it is a microcontroller. |
| Canvas.DuplicatesAccepted | src/components/Canvas.tsx:53-57 | A tag already present is accepted again, where the strict editor refuses it. |
| Canvas.DropKeepsBoardsAgree | src/components/Canvas.tsx:53-84 | Accepted drops keep at most one board, the referenced one. |
| Canvas.DefaultsOfTheTwoEditors | src/components/Canvas.tsx:63-75 | Both editors give the red LED and the push button the same pins. For other tags the strict editor gives none where the catalog may have some. |
| Canvas.CollisionsApplied | src/components/Canvas.tsx:94-115 | A value another component holds is written anyway, where the strict editor refuses it. |
| Simulation.SimulationEngine.constructor | src/engine/SimulationEngine.ts:6-17 | The engine starts stopped, with the button released, the LED off and no callback. |
| Simulation.SimulationEngine.UpdatePinConfig | src/engine/SimulationEngine.ts:19-21 | Only the pin configuration changes. |
| Simulation.SimulationEngine.Start | src/engine/SimulationEngine.ts:23-31 | Afterwards the simulation runs, with the button and the LED as they were. |
| Simulation.SimulationEngine.Stop | src/engine/SimulationEngine.ts:33-43 | Everything is switched off, and a registered callback is told the LED is off. |
| Simulation.SimulationEngine.SetButtonState | src/engine/SimulationEngine.ts:45-54 | The button state is always recorded. While running, the LED takes it and the callback is told. While stopped, nothing else changes. |
| Simulation.SimulationEngine.OnLedChange | src/engine/SimulationEngine.ts:56-58 | A callback is registered; nothing else changes. |
| Simulation.SimulationEngine.GetIsRunning | src/engine/SimulationEngine.ts:60-62 | Returns whether the simulation runs. |
| Simulation.SimulationEngine.UpdateLed | src/engine/SimulationEngine.ts:77-81 | A registered callback receives the state; nothing else changes. |
| Simulation.PressBeforeStart | src/engine/SimulationEngine.ts:23-54 | A press while stopped, then a start, leaves the simulation running with the button down and the LED off. |
| Simulation.PressAndRelease | src/engine/SimulationEngine.ts:45-81 | While running, a press and a release are passed to the callback as on and then off. |
| AppState.App.constructor | src/App.tsx:14-19 | The shell starts in FOSSEE mode, not simulating, LED off, with the empty circuit and the initial code. |
| AppState.App.SetMode | src/App.tsx:140-154 | Only the mode changes; the shown code is kept. |
| AppState.App.HandleCircuitChange | src/App.tsx:26-36 | The circuit is stored and its code is generated by the mode's generator. |
| AppState.App.HandleComponentInteract | src/App.tsx:39-51 | While simulating, a press on a push button lights the LED and a release puts it out. Any other interaction changes nothing. |
| AppState.App.HandleStart | src/App.tsx:71-106 | Start is refused without a board, and in FOSSEE mode without a red LED and a push button. Otherwise the simulation runs with the LED off. |
| AppState.App.HandleStop | src/App.tsx:109-113 | The simulation stops and the LED goes out. |
| AppState.CanSimulateExactlyWhenGenerated | src/App.tsx:120-127 | `canSimulate` holds exactly when the mode's generator produces something other than its no-board placeholder (FOSSEE: its only placeholder). |
| AppState.StartFollowsCanSimulate | src/App.tsx:71-127 | In FOSSEE mode the start check and `canSimulate` agree. In advanced mode `canSimulate` implies the start check. |
| AppState.BoardAloneStartsInAdvancedMode | src/App.tsx:71-127 | A board alone passes the start check in advanced mode, though `canSimulate` is false. |
| AppState.InitialCodeIsNotGenerated | src/App.tsx:17 | Neither generator produces the initial code for the empty circuit: each produces its placeholder. |
| Strings.IntToStringRoundTrip | src/engine/CodeGenerator.ts:9-10 | An integer written in decimal reads back as itself. |
| Strings.SplitLinesNewline | src/engine/AdvancedCodeGenerator.ts:27-39 | Splitting at a line break splits the text before it and the text after it separately. |
| Strings.SplitJoinLines | src/engine/CodeGenerator.ts:4-38 | Splitting text joined with line breaks gives the lines back. |
| Strings.UpperChars | src/engine/AdvancedCodeGenerator.ts:296-297 | Upper-casing works character by character and keeps the length. |
| Strings.ReplaceCharChars | src/engine/AdvancedCodeGenerator.ts:296 | Replacing '-' works character by character and keeps the length. |

## Left out

- Rendering and the drag UI (palettes, toolbar, code view, the component views and the wokwi elements) are not part of this model.
- `src/AppFOSSEE.tsx` is not part of this model: it is a superseded duplicate of the App shell.
- `alert` and `console.log` are left out. A refusal is reported as the reason carried by `Refused`.
- `Date.now()` becomes the `now` parameter of a drop, and the mouse position and canvas geometry become the `cx`, `cy`, `left` and `top` parameters.
- A dragged tag string outside the catalog is not modelled: the drag carries a tag or nothing (`Option<ComponentType>`).
- Positions are unbounded integers: fractional mouse coordinates are not modelled.
- The scale factor is an opaque real that resize stores; the rest of the properties bag is not modelled.
- React's state plumbing is not modelled: `useState`, `useCallback` closures, and the editors' sync from an external circuit. Each handler works on the current circuit.
- The simulation's `requestAnimationFrame` loop and its cancellation are left out: they schedule work but compute nothing. `Start` ignores the code it is given, which the source only logs.
- The LED callback is modelled as a flag saying whether one is registered, plus the log of the states handed to it. The callback's own effect is outside the engine.
- The App's effect that pushes the LED state into the DOM (`src/App.tsx:54-68`) and the view mode are left out.
- The toolbar's use of `canSimulate` to disable the start button is not modelled. `canSimulate` is a predicate, related to the start check by lemmas.
- CodeGenerator.GenerateHex: no hex image is produced; like the source, the model returns the sketch text unchanged.
- Canvas.DropComponent: the copied pin dictionary is the catalog's, so an accepted drop's pins equal the catalog defaults. This is stated through `Canvas.DropAppends` and `Canvas.CopyPins`, not in the method's own contract.
- Strings.Upper: upper-casing covers ASCII letters only; JavaScript's Unicode case mapping is not modelled. Every tag and pin name is ASCII.
- FosseeGenerator.DeclaresResolvedPins: stated only for pin values whose text holds no line break, since the claim reads the sketch line by line. Pin values come from fixed pin lists.
- AdvancedLoop.MirrorReadsState: states that the read precedes the test, not that nothing in between reassigns the state variable. No line the loop writes assigns that variable except its read.
