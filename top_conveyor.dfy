/** The top (horizontal) conveyor's stepper, driven through a ULN2003 board on
    IN1..IN4 = GPIO 26, 19, 13, 6 with the same half-step table as the bottom
    conveyor. Here "forward" runs the table in order and "backward" runs it
    reversed: the direction names are the other way round from the bottom
    conveyor's. */
module TopConveyor {
  import opened Gpio
  import opened HalfStep
  import BottomConveyor

  const IN1 := 26
  const IN2 := 19
  const IN3 := 13
  const IN4 := 6
  const PINS := [IN1, IN2, IN3, IN4]

  /** The half-step table `seq`. */
  const SEQ: seq<Pattern> := [
    Pattern(1, 0, 0, 1),
    Pattern(1, 0, 0, 0),
    Pattern(1, 1, 0, 0),
    Pattern(0, 1, 0, 0),
    Pattern(0, 1, 1, 0),
    Pattern(0, 0, 1, 0),
    Pattern(0, 0, 1, 1),
    Pattern(0, 0, 0, 1)
  ]

  /** The top table is the bottom conveyor's table, so it too is a half-step
      cycle, and so is its reverse. */
  lemma SeqMatchesBottom()
    ensures SEQ == BottomConveyor.SEQ
    ensures IsHalfStepCycle(SEQ) && IsHalfStepCycle(Reversed(SEQ))
  {
    BottomConveyor.SeqIsHalfStepCycle();
    ReversedCycle(SEQ);
  }

  /** `step(delay, step_sequence)`: the four coil writes of one pattern. */
  method Step(board: Board, p: Pattern)
    modifies board
    ensures board.trace == old(board.trace) + StepWrites(PINS, p)
  {
    board.Output(IN1, p.in1);
    board.Output(IN2, p.in2);
    board.Output(IN3, p.in3);
    board.Output(IN4, p.in4);
  }

  /** The patterns `step_forward(delay, steps)` emits. */
  function ForwardPatterns(steps: int): seq<Pattern>
  {
    Repeat(SEQ, steps)
  }

  /** The patterns `step_backward(delay, steps)` emits. */
  function BackwardPatterns(steps: int): seq<Pattern>
  {
    Repeat(Reversed(SEQ), steps)
  }

  /** One trip through `table`, one `step` per pattern in the order given. */
  method StepThrough(board: Board, table: seq<Pattern>)
    modifies board
    ensures board.trace == old(board.trace) + CoilWrites(PINS, table)
  {
    for j := 0 to |table|
      invariant board.trace == old(board.trace) + CoilWrites(PINS, table[..j])
    {
      assert table[..j + 1] == table[..j] + [table[j]];
      Step(board, table[j]);
    }
    assert table[..|table|] == table;
  }

  /** `for i in range(steps)` around one trip through `table`: `steps` trips,
      none at all when `steps <= 0`. */
  method StepRepeatedly(board: Board, table: seq<Pattern>, steps: int)
    modifies board
    ensures board.trace == old(board.trace) + CoilWrites(PINS, Repeat(table, steps))
  {
    ghost var start := board.trace;
    var i := 0;
    while i < steps
      invariant 0 <= i <= Max0(steps)
      invariant board.trace == start + CoilWrites(PINS, Repeat(table, i))
    {
      ghost var done := CoilWrites(PINS, Repeat(table, i));
      StepThrough(board, table);
      assert board.trace == start + done + CoilWrites(PINS, table);
      CoilWritesAppend(PINS, Repeat(table, i), table);
      assert Repeat(table, i + 1) == Repeat(table, i) + table;
      i := i + 1;
    }
  }

  /** `step_forward(delay, steps)`: `steps` passes through the table. */
  method StepForward(board: Board, steps: int)
    modifies board
    ensures board.trace == old(board.trace) + CoilWrites(PINS, ForwardPatterns(steps))
  {
    StepRepeatedly(board, SEQ, steps);
  }

  /** `step_backward(delay, steps)`: `steps` passes through the reversed table. */
  method StepBackward(board: Board, steps: int)
    modifies board
    ensures board.trace == old(board.trace) + CoilWrites(PINS, BackwardPatterns(steps))
  {
    StepRepeatedly(board, Reversed(SEQ), steps);
  }

  /** Forward emits 8 patterns per step (none when steps <= 0), backward
      emits their exact reverse, and both traces read back as those patterns. */
  lemma ForwardAndBackwardTraces(steps: int)
    ensures |ForwardPatterns(steps)| == 8 * Max0(steps)
    ensures BackwardPatterns(steps) == Reversed(ForwardPatterns(steps))
    ensures Patterns(CoilWrites(PINS, ForwardPatterns(steps))) == ForwardPatterns(steps)
    ensures Patterns(CoilWrites(PINS, BackwardPatterns(steps))) == BackwardPatterns(steps)
  {
    RepeatLength(SEQ, steps);
    RepeatReversed(SEQ, steps);
    PatternsOfCoilWrites(PINS, ForwardPatterns(steps));
    PatternsOfCoilWrites(PINS, BackwardPatterns(steps));
  }

  /** Top `step_forward(n)` energises the coils exactly as bottom
      `step_bottom_conveyor_backward(n)` does, and top `step_backward(n)` as
      bottom `step_bottom_conveyor_forward(n)`: the two traces carry the same
      levels in the same order and differ only in the pin numbers. */
  lemma SwappedDirectionNames(steps: int)
    ensures ForwardPatterns(steps) == BottomConveyor.BackwardPatterns(steps)
    ensures BackwardPatterns(steps) == BottomConveyor.ForwardPatterns(steps)
    ensures forall k :: 0 <= k < |CoilWrites(PINS, ForwardPatterns(steps))| ==>
              CoilWrites(PINS, ForwardPatterns(steps))[k].level
                == CoilWrites(BottomConveyor.PINS, BottomConveyor.BackwardPatterns(steps))[k].level
  {
    SeqMatchesBottom();
    CoilWritesAt(PINS, ForwardPatterns(steps));
    CoilWritesAt(BottomConveyor.PINS, BottomConveyor.BackwardPatterns(steps));
  }
}
