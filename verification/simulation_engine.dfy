/** The logic-level simulation: a running flag, the button's and the LED's states, and
    an LED callback told of each LED change. While running, the LED follows the button. */
module Simulation {
  import opened PinValidator

  class SimulationEngine {
    var isRunning: bool
    var buttonState: bool
    var ledState: bool
    var pinConfig: PinConfig
    /** Whether an LED callback has been registered. */
    var hasCallback: bool
    /** The states handed to the LED callback so far, oldest first. */
    var notified: seq<bool>

    /** The LED is off while the simulation is stopped, and the last state handed to
        the callback is the LED's current state. */
    ghost predicate Valid()
      reads this
    {
      (!isRunning ==> !ledState)
      && (|notified| > 0 ==> hasCallback && notified[|notified| - 1] == ledState)
    }

    constructor(cfg: PinConfig)
      ensures Valid()
      ensures !isRunning && !buttonState && !ledState
      ensures pinConfig == cfg && !hasCallback && notified == []
    {
      isRunning := false;
      buttonState := false;
      ledState := false;
      pinConfig := cfg;
      hasCallback := false;
      notified := [];
    }

    method UpdatePinConfig(cfg: PinConfig)
      requires Valid()
      modifies this
      ensures Valid()
      ensures pinConfig == cfg
      ensures isRunning == old(isRunning) && buttonState == old(buttonState) && ledState == old(ledState)
      ensures hasCallback == old(hasCallback) && notified == old(notified)
    {
      pinConfig := cfg;
    }

    /** `start(code)`: nothing happens while running; otherwise the simulation runs, with
        the button and the LED as they were. The code is only logged. */
    method Start(code: string)
      requires Valid()
      modifies this
      ensures Valid()
      ensures isRunning
      ensures buttonState == old(buttonState) && ledState == old(ledState) && pinConfig == old(pinConfig)
      ensures hasCallback == old(hasCallback) && notified == old(notified)
    {
      if isRunning {
        return;
      }
      isRunning := true;
    }

    /** `stop()`: everything is switched off and the callback, if any, is told the LED is off. */
    method Stop()
      requires Valid()
      modifies this
      ensures Valid()
      ensures !isRunning && !ledState && !buttonState
      ensures notified == old(notified) + (if hasCallback then [false] else [])
      ensures pinConfig == old(pinConfig) && hasCallback == old(hasCallback)
    {
      isRunning := false;
      ledState := false;
      buttonState := false;
      UpdateLed(false);
    }

    /** `setButtonState(pressed)`: the button state is always recorded; while running the
        LED takes it and the callback is told; while stopped nothing else changes. */
    method SetButtonState(pressed: bool)
      requires Valid()
      modifies this
      ensures Valid()
      ensures buttonState == pressed && isRunning == old(isRunning)
      ensures old(isRunning) ==>
                ledState == pressed && notified == old(notified) + (if hasCallback then [pressed] else [])
      ensures !old(isRunning) ==> ledState == old(ledState) && notified == old(notified)
      ensures pinConfig == old(pinConfig) && hasCallback == old(hasCallback)
    {
      buttonState := pressed;
      if isRunning {
        ledState := pressed;
        UpdateLed(ledState);
      }
    }

    /** `onLEDChange(callback)`: registers the callback (the model records only that
        there is one). */
    method OnLedChange()
      requires Valid()
      modifies this
      ensures Valid()
      ensures hasCallback
      ensures isRunning == old(isRunning) && buttonState == old(buttonState) && ledState == old(ledState)
      ensures pinConfig == old(pinConfig) && notified == old(notified)
    {
      hasCallback := true;
    }

    method GetIsRunning() returns (running: bool)
      ensures running == isRunning
    {
      running := isRunning;
    }

    /** `updateLED(state)`: hands the state to the callback when one is registered. */
    method UpdateLed(state: bool)
      modifies this
      ensures notified == old(notified) + (if hasCallback then [state] else [])
      ensures isRunning == old(isRunning) && buttonState == old(buttonState) && ledState == old(ledState)
      ensures pinConfig == old(pinConfig) && hasCallback == old(hasCallback)
    {
      if hasCallback {
        notified := notified + [state];
      }
    }
  }

  /** A button pressed while stopped is recorded but not shown: after a start the LED
      stays off, out of step with the button, until the next button event. */
  method PressBeforeStart(cfg: PinConfig) returns (engine: SimulationEngine)
    ensures engine.Valid()
    ensures engine.isRunning && engine.buttonState && !engine.ledState
  {
    engine := new SimulationEngine(cfg);
    engine.SetButtonState(true);
    engine.Start("");
  }

  /** While running, the callback sees the button's states in order: a press and a
      release are shown as on and then off. */
  method PressAndRelease(cfg: PinConfig) returns (engine: SimulationEngine)
    ensures engine.Valid()
    ensures engine.isRunning && !engine.ledState && engine.notified == [true, false]
  {
    engine := new SimulationEngine(cfg);
    engine.OnLedChange();
    engine.Start("");
    engine.SetButtonState(true);
    engine.SetButtonState(false);
  }
}
