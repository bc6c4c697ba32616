/** The right vertical conveyor's step/direction driver: DIR = GPIO 21,
    STEP = GPIO 20, SLEEP = GPIO 16, RESET = GPIO 12. Positive step counts
    move the conveyor up (clockwise), others move it down (anticlockwise). */
module RightConveyor {
  import opened Gpio
  import opened StepDir

  const DIR_PIN := 21
  const STEP_PIN := 20
  const SLEEP_PIN := 16
  const RESET_PIN := 12

  /** The DIR level for a direction name: HIGH exactly for "CW". */
  function DirectionLevel(direction: string): (r: int)
    ensures r == HIGH <==> direction == "CW"
    ensures r == LOW <==> direction != "CW"
  {
    if direction == "CW" then HIGH else LOW
  }

  /** The trace of `move_stepper(steps, direction)`. */
  function MoveStepperWrites(steps: int, direction: string): seq<PinWrite>
  {
    StepperWrites(DIR_PIN, STEP_PIN, DirectionLevel(direction), steps)
  }

  /** The trace of `move_right_conveyor(steps)`. */
  function MoveWrites(steps: int): seq<PinWrite>
  {
    if steps > 0 then MoveStepperWrites(steps, "CW") else MoveStepperWrites(-steps, "CCW")
  }

  /** `move_stepper(steps, direction)`. */
  method MoveStepper(board: Board, steps: int, direction: string)
    modifies board
    ensures board.trace == old(board.trace) + MoveStepperWrites(steps, direction)
  {
    board.Output(DIR_PIN, if direction == "CW" then HIGH else LOW);
    var i := 0;
    while i < steps
      invariant 0 <= i <= Max0(steps)
      invariant board.trace == old(board.trace) + [PinWrite(DIR_PIN, DirectionLevel(direction))] + Pulses(STEP_PIN, i)
    {
      board.Output(STEP_PIN, HIGH);
      board.Output(STEP_PIN, LOW);
      i := i + 1;
    }
  }

  /** `move_right_conveyor(steps)`: up for `steps > 0`, otherwise down by `|steps|`. */
  method MoveRightConveyor(board: Board, steps: int)
    modifies board
    ensures board.trace == old(board.trace) + MoveWrites(steps)
  {
    if steps > 0 {
      MoveStepper(board, steps, "CW");
    } else {
      var magnitude := if steps < 0 then -steps else steps;
      MoveStepper(board, magnitude, "CCW");
    }
  }

  /** `set_up_right_conveyor()`: enables the driver by pulling SLEEP and RESET HIGH,
      which leaves both HIGH (DriverEnableLevels). */
  method SetUpRightConveyor(board: Board)
    modifies board
    ensures board.trace == old(board.trace) + [PinWrite(SLEEP_PIN, HIGH), PinWrite(RESET_PIN, HIGH)]
  {
    board.Output(SLEEP_PIN, HIGH);
    board.Output(RESET_PIN, HIGH);
  }

  /** `clean_up_right_conveyor()`: disables the driver by pulling SLEEP and RESET LOW,
      which leaves both LOW (DriverEnableLevels). */
  method CleanUpRightConveyor(board: Board)
    modifies board
    ensures board.trace == old(board.trace) + [PinWrite(SLEEP_PIN, LOW), PinWrite(RESET_PIN, LOW)]
  {
    board.Output(SLEEP_PIN, LOW);
    board.Output(RESET_PIN, LOW);
  }

  /** `move_right_conveyor(s)` writes DIR once, first, HIGH (clockwise, up)
      exactly when `s > 0`, and then emits `|s|` pulses in either direction,
      leaving STEP LOW. */
  lemma MoveRightConveyorTrace(s: int)
    ensures var w := MoveWrites(s);
      && w[0] == PinWrite(DIR_PIN, if s > 0 then HIGH else LOW)
      && (forall k :: 1 <= k < |w| ==> w[k].pin == STEP_PIN)
      && |w| == 1 + 2 * (if s < 0 then -s else s)
      && CountWrites(w, PinWrite(STEP_PIN, HIGH)) == (if s < 0 then -s else s)
      && (s != 0 ==> LastLevel(w, STEP_PIN) == Some(LOW))
  {
    var w := MoveWrites(s);
    var level := if s > 0 then HIGH else LOW;
    var n := if s < 0 then -s else s;
    assert w == StepperWrites(DIR_PIN, STEP_PIN, level, n);
    StepperWritesShape(DIR_PIN, STEP_PIN, level, n);
    assert Max0(n) == n;
    forall k | 1 <= k < |w| ensures w[k].pin == STEP_PIN {
      assert w[k] == PinWrite(STEP_PIN, if k % 2 == 1 then HIGH else LOW);
    }
  }
}
