/** The step/direction stepper drivers of the two vertical conveyors: a
    `move_stepper` call writes the DIR pin once and then pulses the STEP pin,
    each pulse a HIGH write followed by a LOW write. */
module StepDir {
  import opened Gpio

  /** The trace of one `move_stepper` call: DIR driven to `dirLevel`, then
      `steps` pulses on the STEP pin (none when `steps <= 0`, as `range`). */
  function StepperWrites(dirPin: int, stepPin: int, dirLevel: int, steps: int): seq<PinWrite>
  {
    [PinWrite(dirPin, dirLevel)] + Pulses(stepPin, steps)
  }

  /** DIR is written exactly once, first, and every later write is a STEP
      write, alternating HIGH and LOW; `steps` pulses give `2 * steps` STEP
      writes, `steps` of them HIGH, and the STEP pin is left LOW. */
  lemma StepperWritesShape(dirPin: int, stepPin: int, dirLevel: int, steps: int)
    requires dirPin != stepPin
    ensures var w := StepperWrites(dirPin, stepPin, dirLevel, steps);
      && |w| == 1 + 2 * Max0(steps)
      && w[0] == PinWrite(dirPin, dirLevel)
      && (forall k :: 1 <= k < |w| ==> w[k] == PinWrite(stepPin, if k % 2 == 1 then HIGH else LOW))
      && CountWrites(w, PinWrite(dirPin, dirLevel)) == 1
      && CountWrites(w, PinWrite(stepPin, HIGH)) == Max0(steps)
      && LastLevel(w, dirPin) == Some(dirLevel)
      && (steps > 0 ==> LastLevel(w, stepPin) == Some(LOW))
  {
    var head := [PinWrite(dirPin, dirLevel)];
    var pulses := Pulses(stepPin, steps);
    var w := StepperWrites(dirPin, stepPin, dirLevel, steps);
    PulsesShape(stepPin, steps);
    assert w == head + pulses;
    forall k | 1 <= k < |w| ensures w[k] == PinWrite(stepPin, if k % 2 == 1 then HIGH else LOW) {
      assert w[k] == pulses[k - 1];
    }
    CountWritesAppend(head, pulses, PinWrite(dirPin, dirLevel));
    CountWritesAppend(head, pulses, PinWrite(stepPin, HIGH));
    assert head[..0] == [];
    assert CountWrites(head, PinWrite(stepPin, HIGH)) == 0;
    assert PinWrite(dirPin, dirLevel) !in pulses;
    LastLevelAppend(head, pulses, dirPin);
    LastLevelAppend(head, pulses, stepPin);
    if steps > 0 {
      assert pulses[|pulses| - 1] == PinWrite(stepPin, LOW);
    }
  }

  /** Driving SLEEP then RESET to `level` leaves both pins at `level`. */
  lemma DriverEnableLevels(t: seq<PinWrite>, sleepPin: int, resetPin: int, level: int)
    requires sleepPin != resetPin
    ensures LastLevel(t + [PinWrite(sleepPin, level), PinWrite(resetPin, level)], sleepPin) == Some(level)
    ensures LastLevel(t + [PinWrite(sleepPin, level), PinWrite(resetPin, level)], resetPin) == Some(level)
  {
    var u := [PinWrite(sleepPin, level), PinWrite(resetPin, level)];
    LastLevelAppend(t, u, sleepPin);
    LastLevelAppend(t, u, resetPin);
    assert u[..1] == [PinWrite(sleepPin, level)];
  }
}
