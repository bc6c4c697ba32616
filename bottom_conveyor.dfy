/** The bottom (horizontal) conveyor's stepper, driven through a ULN2003 board
    on IN1..IN4 = GPIO 14, 15, 18, 23 with an 8-pattern half-step table.
    "Backward" runs the table in order and "forward" runs it reversed. */
module BottomConveyor {
  import opened Gpio
  import opened HalfStep

  const IN1 := 14
  const IN2 := 15
  const IN3 := 18
  const IN4 := 23
  const PINS := [IN1, IN2, IN3, IN4]

  /** The half-step table `seq`. */
  const SEQ: seq<Pattern> := [
    Pattern(1, 0, 0, 1),
    Pattern(1, 0, 0, 0),
    Pattern(1, 1, 0, 0),
    Pattern(0, 1, 0, 0),
    Pattern(0, 1, 1, 0),
    Pattern(0, 0, 1, 0),
    Pattern(0, 0, 1, 1),
    Pattern(0, 0, 0, 1)
  ]

  /** The table is an 8-pattern half-step cycle: four coil levels per pattern,
      one coil or two adjacent coils energised, and one coil changing between
      neighbouring patterns, last to first included. */
  lemma SeqIsHalfStepCycle()
    ensures IsHalfStepCycle(SEQ)
  {
    assert AdjacentPairOn(SEQ[0], 3);
    assert AdjacentPairOn(SEQ[2], 0);
    assert AdjacentPairOn(SEQ[4], 1);
    assert AdjacentPairOn(SEQ[6], 2);
    forall i | 0 <= i < 8
      ensures IsHalfStepPattern(SEQ[i]) && SingleCoilChange(SEQ, i)
    {
      if i == 0 {
        assert IsHalfStepPattern(SEQ[0]) && SingleCoilChange(SEQ, 0);
      } else if i == 1 {
        assert IsHalfStepPattern(SEQ[1]) && SingleCoilChange(SEQ, 1);
      } else if i == 2 {
        assert IsHalfStepPattern(SEQ[2]) && SingleCoilChange(SEQ, 2);
      } else if i == 3 {
        assert IsHalfStepPattern(SEQ[3]) && SingleCoilChange(SEQ, 3);
      } else if i == 4 {
        assert IsHalfStepPattern(SEQ[4]) && SingleCoilChange(SEQ, 4);
      } else if i == 5 {
        assert IsHalfStepPattern(SEQ[5]) && SingleCoilChange(SEQ, 5);
      } else if i == 6 {
        assert IsHalfStepPattern(SEQ[6]) && SingleCoilChange(SEQ, 6);
      } else {
        assert IsHalfStepPattern(SEQ[7]) && SingleCoilChange(SEQ, 7);
      }
    }
  }

  /** `step(delay, step_sequence)`: the four coil writes of one pattern. */
  method Step(board: Board, p: Pattern)
    modifies board
    ensures board.trace == old(board.trace) + StepWrites(PINS, p)
  {
    board.Output(IN1, p.in1);
    board.Output(IN2, p.in2);
    board.Output(IN3, p.in3);
    board.Output(IN4, p.in4);
  }

  /** The patterns `step_bottom_conveyor_backward(steps)` emits. */
  function BackwardPatterns(steps: int): seq<Pattern>
  {
    Repeat(SEQ, steps)
  }

  /** The patterns `step_bottom_conveyor_forward(steps)` emits. */
  function ForwardPatterns(steps: int): seq<Pattern>
  {
    Repeat(Reversed(SEQ), steps)
  }

  /** One trip through `table`, one `step` per pattern in the order given. */
  method StepThrough(board: Board, table: seq<Pattern>)
    modifies board
    ensures board.trace == old(board.trace) + CoilWrites(PINS, table)
  {
    for j := 0 to |table|
      invariant board.trace == old(board.trace) + CoilWrites(PINS, table[..j])
    {
      assert table[..j + 1] == table[..j] + [table[j]];
      Step(board, table[j]);
    }
    assert table[..|table|] == table;
  }

  /** `for _ in range(steps)` around one trip through `table`: `steps` trips,
      none at all when `steps <= 0`. */
  method StepRepeatedly(board: Board, table: seq<Pattern>, steps: int)
    modifies board
    ensures board.trace == old(board.trace) + CoilWrites(PINS, Repeat(table, steps))
  {
    ghost var start := board.trace;
    var i := 0;
    while i < steps
      invariant 0 <= i <= Max0(steps)
      invariant board.trace == start + CoilWrites(PINS, Repeat(table, i))
    {
      ghost var done := CoilWrites(PINS, Repeat(table, i));
      StepThrough(board, table);
      assert board.trace == start + done + CoilWrites(PINS, table);
      CoilWritesAppend(PINS, Repeat(table, i), table);
      assert Repeat(table, i + 1) == Repeat(table, i) + table;
      i := i + 1;
    }
  }

  /** `step_bottom_conveyor_backward(steps)`: `steps` passes through the table. */
  method StepBottomConveyorBackward(board: Board, steps: int)
    modifies board
    ensures board.trace == old(board.trace) + CoilWrites(PINS, BackwardPatterns(steps))
  {
    StepRepeatedly(board, SEQ, steps);
  }

  /** `step_bottom_conveyor_forward(steps)`: `steps` passes through the
      reversed table. */
  method StepBottomConveyorForward(board: Board, steps: int)
    modifies board
    ensures board.trace == old(board.trace) + CoilWrites(PINS, ForwardPatterns(steps))
  {
    StepRepeatedly(board, Reversed(SEQ), steps);
  }

  /** Backward emits 8 patterns per step, nothing when steps <= 0, and its
      trace reads back as exactly those patterns. */
  lemma BackwardTrace(steps: int)
    ensures |BackwardPatterns(steps)| == 8 * Max0(steps)
    ensures Patterns(CoilWrites(PINS, BackwardPatterns(steps))) == BackwardPatterns(steps)
  {
    RepeatLength(SEQ, steps);
    PatternsOfCoilWrites(PINS, BackwardPatterns(steps));
  }

  /** The forward pattern trace is exactly the backward one reversed. */
  lemma ForwardReversesBackward(steps: int)
    ensures ForwardPatterns(steps) == Reversed(BackwardPatterns(steps))
    ensures |ForwardPatterns(steps)| == 8 * Max0(steps)
  {
    RepeatReversed(SEQ, steps);
    RepeatLength(SEQ, steps);
  }
}
