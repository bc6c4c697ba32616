/** The left vertical conveyor's step/direction driver: DIR = GPIO 7,
    STEP = GPIO 8, SLEEP = GPIO 24, RESET = GPIO 25. The motor is mounted the
    other way round from the right one, so "up" is anticlockwise (DIR LOW).
    `move_left_conveyor` hands a non-positive count to `move_stepper`
    unchanged, and `range` of it is empty: the conveyor never moves down.
    MoveWrites keeps that behaviour; IntendedMoveWrites is the evident intent. */
module LeftConveyor {
  import opened Gpio
  import opened StepDir
  import RightConveyor

  const DIR_PIN := 7
  const STEP_PIN := 8
  const SLEEP_PIN := 24
  const RESET_PIN := 25

  /** The trace of `move_stepper(steps, direction)`: DIR HIGH for "CW", LOW otherwise. */
  function MoveStepperWrites(steps: int, direction: string): seq<PinWrite>
  {
    StepperWrites(DIR_PIN, STEP_PIN, if direction == "CW" then HIGH else LOW, steps)
  }

  /** The trace of `move_left_conveyor(steps)` as written: a non-positive
      count is passed on as it is. */
  function MoveWrites(steps: int): seq<PinWrite>
  {
    if steps > 0 then MoveStepperWrites(steps, "CCW") else MoveStepperWrites(steps, "CW")
  }

  /** The trace `move_left_conveyor(steps)` evidently means: down by `|steps|`. */
  function IntendedMoveWrites(steps: int): seq<PinWrite>
  {
    if steps > 0 then MoveStepperWrites(steps, "CCW") else MoveStepperWrites(-steps, "CW")
  }

  /** `move_stepper(steps, direction)`. */
  method MoveStepper(board: Board, steps: int, direction: string)
    modifies board
    ensures board.trace == old(board.trace) + MoveStepperWrites(steps, direction)
  {
    if direction == "CW" {
      board.Output(DIR_PIN, HIGH);
    } else {
      board.Output(DIR_PIN, LOW);
    }
    ghost var afterDir := board.trace;
    var i := 0;
    while i < steps
      invariant 0 <= i <= Max0(steps)
      invariant board.trace == afterDir + Pulses(STEP_PIN, i)
    {
      board.Output(STEP_PIN, HIGH);
      board.Output(STEP_PIN, LOW);
      i := i + 1;
    }
  }

  /** `move_left_conveyor(steps)` as written. */
  method MoveLeftConveyor(board: Board, steps: int)
    modifies board
    ensures board.trace == old(board.trace) + MoveWrites(steps)
  {
    if steps > 0 {
      MoveStepper(board, steps, "CCW");
    } else {
      MoveStepper(board, steps, "CW");
    }
  }

  /** `move_left_conveyor(steps)` with the count made positive before it is
      passed on, as the right conveyor does. */
  method MoveLeftConveyorIntended(board: Board, steps: int)
    modifies board
    ensures board.trace == old(board.trace) + IntendedMoveWrites(steps)
  {
    if steps > 0 {
      MoveStepper(board, steps, "CCW");
    } else {
      var magnitude := if steps < 0 then -steps else steps;
      MoveStepper(board, magnitude, "CW");
    }
  }

  /** `set_up_left_conveyor()`: enables the driver by pulling SLEEP and RESET HIGH,
      which leaves both HIGH (DriverEnableLevels). */
  method SetUpLeftConveyor(board: Board)
    modifies board
    ensures board.trace == old(board.trace) + [PinWrite(SLEEP_PIN, HIGH), PinWrite(RESET_PIN, HIGH)]
  {
    board.Output(SLEEP_PIN, HIGH);
    board.Output(RESET_PIN, HIGH);
  }

  /** `clean_up_left_conveyor()`: disables the driver by pulling SLEEP and RESET LOW,
      which leaves both LOW (DriverEnableLevels). */
  method CleanUpLeftConveyor(board: Board)
    modifies board
    ensures board.trace == old(board.trace) + [PinWrite(SLEEP_PIN, LOW), PinWrite(RESET_PIN, LOW)]
  {
    board.Output(SLEEP_PIN, LOW);
    board.Output(RESET_PIN, LOW);
  }

  /** `move_left_conveyor(s)` as written writes DIR once, first, HIGH
      (clockwise) exactly when `s <= 0`, and emits `max(s, 0)` pulses. */
  lemma MoveLeftConveyorTrace(s: int)
    ensures var w := MoveWrites(s);
      && w[0] == PinWrite(DIR_PIN, if s > 0 then LOW else HIGH)
      && (forall k :: 1 <= k < |w| ==> w[k].pin == STEP_PIN)
      && |w| == 1 + 2 * Max0(s)
      && CountWrites(w, PinWrite(STEP_PIN, HIGH)) == Max0(s)
      && (s > 0 ==> LastLevel(w, STEP_PIN) == Some(LOW))
  {
    if s > 0 {
      StepperWritesShape(DIR_PIN, STEP_PIN, LOW, s);
    } else {
      StepperWritesShape(DIR_PIN, STEP_PIN, HIGH, s);
    }
  }

  /** As written, a non-positive count only sets the direction: no STEP pin
      write at all, so the left conveyor never moves down. Asked for 600
      steps down, it moves none, while the intended trace has 600 pulses. */
  lemma NegativeStepsAreDropped(s: int)
    requires s <= 0
    ensures MoveWrites(s) == [PinWrite(DIR_PIN, HIGH)]
    ensures CountWrites(MoveWrites(-600), PinWrite(STEP_PIN, HIGH)) == 0
    ensures CountWrites(IntendedMoveWrites(-600), PinWrite(STEP_PIN, HIGH)) == 600
  {
    assert Pulses(STEP_PIN, s) == [];
    IntendedMoveLeftConveyorTrace(-600);
    MoveLeftConveyorTrace(-600);
  }

  /** The intended `move_left_conveyor(s)` writes DIR once, first, HIGH
      exactly when `s <= 0`, and emits `|s|` pulses, leaving STEP LOW. */
  lemma IntendedMoveLeftConveyorTrace(s: int)
    ensures var w := IntendedMoveWrites(s);
      && w[0] == PinWrite(DIR_PIN, if s > 0 then LOW else HIGH)
      && (forall k :: 1 <= k < |w| ==> w[k].pin == STEP_PIN)
      && |w| == 1 + 2 * (if s < 0 then -s else s)
      && CountWrites(w, PinWrite(STEP_PIN, HIGH)) == (if s < 0 then -s else s)
      && (s != 0 ==> LastLevel(w, STEP_PIN) == Some(LOW))
  {
    var w := IntendedMoveWrites(s);
    var level := if s > 0 then LOW else HIGH;
    var n := if s < 0 then -s else s;
    assert w == StepperWrites(DIR_PIN, STEP_PIN, level, n);
    StepperWritesShape(DIR_PIN, STEP_PIN, level, n);
    assert Max0(n) == n;
    forall k | 1 <= k < |w| ensures w[k].pin == STEP_PIN {
      assert w[k] == PinWrite(STEP_PIN, if k % 2 == 1 then HIGH else LOW);
    }
  }

  /** For the same count the left DIR level is always the opposite of the
      right one. For `s > 0` both drivers emit `s` pulses; the intended
      version emits as many pulses as the right driver for every `s`. */
  lemma OppositeToRightConveyor(s: int)
    ensures MoveWrites(s)[0].level != RightConveyor.MoveWrites(s)[0].level
    ensures s > 0 ==> CountWrites(MoveWrites(s), PinWrite(STEP_PIN, HIGH))
                      == CountWrites(RightConveyor.MoveWrites(s), PinWrite(RightConveyor.STEP_PIN, HIGH))
    ensures CountWrites(IntendedMoveWrites(s), PinWrite(STEP_PIN, HIGH))
            == CountWrites(RightConveyor.MoveWrites(s), PinWrite(RightConveyor.STEP_PIN, HIGH))
  {
    MoveLeftConveyorTrace(s);
    IntendedMoveLeftConveyorTrace(s);
    RightConveyor.MoveRightConveyorTrace(s);
  }
}
