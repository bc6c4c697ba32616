/** Motor calibration: each routine measures how far a conveyor moves for a
    known number of steps, turns that into pixels per step rounded down to two
    decimal places, and merges the ratios into a JSON store of named values.
    The camera and the vision helpers that locate legs and barcodes are not
    modelled: their measurements are the routines' parameters. The store's
    file is a FileState, and GPIO writes go to a Board trace. */
module Calibration {
  import opened Gpio
  import opened HalfStep
  import BottomConveyor
  import RightConveyor
  import LeftConveyor

  const RIGHT_CONVEYOR_SPEED := "right_conveyor_motor_pixels_per_step"
  const LEFT_CONVEYOR_SPEED := "left_conveyor_motor_pixels_per_step"
  const TOP_CONVEYOR_SPEED_FORWARD := "top_conveyor_motor_pixels_per_step_forward"
  const TOP_CONVEYOR_SPEED_BACKWARD := "top_conveyor_motor_pixels_per_step_backward"
  const BOTTOM_CONVEYOR_SPEED_FORWARD := "bottom_conveyor_motor_pixels_per_step_forward"
  const BOTTOM_CONVEYOR_SPEED_BACKWARD := "bottom_conveyor_motor_pixels_per_step_backward"

  /** The default `num_steps_to_test` of the vertical and horizontal routines. */
  const VERTICAL_STEPS_TO_TEST := 600
  const HORIZONTAL_STEPS_TO_TEST := 800

  /** The six keys a full calibration run stores. */
  const ALL_KEYS: set<string> := {
    RIGHT_CONVEYOR_SPEED, LEFT_CONVEYOR_SPEED,
    BOTTOM_CONVEYOR_SPEED_FORWARD, BOTTOM_CONVEYOR_SPEED_BACKWARD,
    TOP_CONVEYOR_SPEED_FORWARD, TOP_CONVEYOR_SPEED_BACKWARD
  }

  /** `round_down_2dp`: the greatest multiple of 0.01 not above `x`. */
  function RoundDown2dp(x: real): (r: real)
    ensures r <= x < r + 0.01
    ensures (r * 100.0).Floor as real == r * 100.0
    ensures x >= 0.0 ==> r >= 0.0
  {
    ((x * 100.0).Floor as real) / 100.0
  }

  /** Rounding an already rounded value changes nothing. */
  lemma RoundDown2dpIdempotent(x: real)
    ensures RoundDown2dp(RoundDown2dp(x)) == RoundDown2dp(x)
  {
    var r := RoundDown2dp(x);
    var k := (r * 100.0).Floor;
    assert k as real == r * 100.0;
    assert RoundDown2dp(r) == k as real / 100.0;
  }

  /** No multiple of 0.01 lies strictly between `RoundDown2dp(x)` and `x`. */
  lemma RoundDown2dpIsGreatest(x: real, k: int)
    requires k as real / 100.0 <= x
    ensures k as real / 100.0 <= RoundDown2dp(x)
  {
    assert k as real <= x * 100.0;
    assert k <= (x * 100.0).Floor;
  }

  /** Python's `abs` on a coordinate difference. */
  function AbsReal(x: real): (r: real)
    ensures r >= 0.0
    ensures r == x || r == -x
  {
    if x < 0.0 then -x else x
  }

  /** `abs(new - original) / num_steps`: pixels moved per step. Python raises
      ZeroDivisionError for a zero step count. */
  function PixelsPerStep(original: real, measured: real, numSteps: int): (r: real)
    requires numSteps != 0
    ensures r * numSteps as real == AbsReal(measured - original)
    ensures numSteps > 0 ==> r >= 0.0
  {
    AbsReal(measured - original) / numSteps as real
  }

  /** The ratio a calibration routine stores for one displacement. */
  function StoredRatio(original: real, measured: real, numSteps: int): real
    requires numSteps != 0
  {
    RoundDown2dp(PixelsPerStep(original, measured, numSteps))
  }

  /** A stored ratio is never negative and is at most 0.01 below the exact
      ratio; nothing rejects a zero, so a displacement under `numSteps / 100`
      pixels is stored as 0.0. */
  lemma StoredRatioBounds(original: real, measured: real, numSteps: int)
    requires numSteps > 0
    ensures var r := StoredRatio(original, measured, numSteps);
      && 0.0 <= r <= PixelsPerStep(original, measured, numSteps) < r + 0.01
      && (AbsReal(measured - original) < numSteps as real / 100.0 ==> r == 0.0)
  {
    if AbsReal(measured - original) < numSteps as real / 100.0 {
      SmallDisplacement(original, measured, numSteps);
      var p := PixelsPerStep(original, measured, numSteps);
      assert (p * 100.0).Floor == 0;
    }
  }

  lemma SmallDisplacement(original: real, measured: real, numSteps: int)
    requires numSteps > 0 && AbsReal(measured - original) < numSteps as real / 100.0
    ensures PixelsPerStep(original, measured, numSteps) < 0.01
  {
    var a := AbsReal(measured - original);
    DivBelowOneCent(a, numSteps as real);
  }

  lemma DivBelowOneCent(a: real, n: real)
    requires n > 0.0 && a < n / 100.0
    ensures a / n < 0.01
  {
    assert a / n * n == a;
  }

  /** A conveyor that really moves `ratio` pixels per step, towards larger or
      towards smaller coordinates, is measured back as that ratio rounded
      down: the stored value recovers the speed to 0.01. */
  lemma RatioRoundTrip(original: real, ratio: real, numSteps: int)
    requires numSteps > 0 && ratio >= 0.0
    ensures StoredRatio(original, original + ratio * numSteps as real, numSteps) == RoundDown2dp(ratio)
    ensures StoredRatio(original, original - ratio * numSteps as real, numSteps) == RoundDown2dp(ratio)
  {
    var moved := ratio * numSteps as real;
    assert moved >= 0.0;
    RatioFromDisplacement(original, original + moved, ratio, numSteps);
    RatioFromDisplacement(original, original - moved, ratio, numSteps);
  }

  /** Whatever the direction, a displacement of `ratio * numSteps` pixels is
      stored as `ratio` rounded down. */
  lemma RatioFromDisplacement(original: real, measured: real, ratio: real, numSteps: int)
    requires numSteps > 0 && ratio >= 0.0
    requires AbsReal(measured - original) == ratio * numSteps as real
    ensures StoredRatio(original, measured, numSteps) == RoundDown2dp(ratio)
  {
    var n := numSteps as real;
    var p := PixelsPerStep(original, measured, numSteps);
    assert p * n == ratio * n;
    MulCancel(p, ratio, n);
    assert StoredRatio(original, measured, numSteps) == RoundDown2dp(p);
  }

  lemma MulCancel(a: real, b: real, n: real)
    requires n > 0.0 && a * n == b * n
    ensures a == b
  {
  }

  /** `data.update(new_data)`: the keys of both maps, each new key with its
      new value and every other key with its old one. */
  function Update(data: map<string, real>, newData: map<string, real>): (r: map<string, real>)
    ensures r.Keys == data.Keys + newData.Keys
    ensures forall k :: k in newData ==> r[k] == newData[k]
    ensures forall k :: k in data && k !in newData ==> r[k] == data[k]
  {
    data + newData
  }

  /** Two updates in a row store what one update with the merged new data
      stores, and updating with the same data twice is updating once. */
  lemma UpdateComposes(data: map<string, real>, a: map<string, real>, b: map<string, real>)
    ensures Update(Update(data, a), b) == Update(data, Update(a, b))
    ensures Update(Update(data, a), a) == Update(data, a)
  {
    var lhs := Update(Update(data, a), b);
    var rhs := Update(data, Update(a, b));
    assert lhs.Keys == rhs.Keys;
    forall k | k in lhs
      ensures lhs[k] == rhs[k]
    {
    }
    var twice := Update(Update(data, a), a);
    assert twice.Keys == Update(data, a).Keys;
    forall k | k in twice
      ensures twice[k] == Update(data, a)[k]
    {
    }
  }

  /** What `calibration_variables.json` holds: nothing, text that does not
      parse, or a parsed map of names to values. */
  datatype FileState = Missing | Unparsable | Stored(data: map<string, real>)

  /** `load_variables` on a file state: its map, or the empty map when the
      file is missing or does not parse. */
  function Load(file: FileState): (r: map<string, real>)
    ensures file.Stored? ==> r == file.data
    ensures !file.Stored? ==> r == map[]
  {
    match file
    case Stored(data) => data
    case _ => map[]
  }

  /** The store the calibration routines read and write. */
  class CalibrationStore {
    var file: FileState

    constructor (initial: FileState)
      ensures file == initial
    {
      file := initial;
    }

    /** `load_variables()`. */
    function LoadVariables(): map<string, real>
      reads this
    {
      Load(file)
    }

    /** `save_variables(new_data)`: the map loaded now, updated with
        `newData`, written back. */
    method SaveVariables(newData: map<string, real>)
      modifies this
      ensures file == Stored(Update(old(LoadVariables()), newData))
      ensures LoadVariables() == Update(old(LoadVariables()), newData)
    {
      var data := LoadVariables();
      data := Update(data, newData);
      file := Stored(data);
    }

    /** `calibrate_bottom_conveyor_motor(n)`, the leg's y coordinate measured
        before, after `n` steps forward and after `n` steps back. */
    method CalibrateBottomConveyorMotor(board: Board, numSteps: int, y: RoundTrip)
      requires numSteps != 0
      modifies this, board
      ensures LoadVariables() == Update(old(LoadVariables()), BottomData(numSteps, y))
      ensures board.trace == old(board.trace)
                + CoilWrites(BottomConveyor.PINS, BottomConveyor.ForwardPatterns(numSteps))
                + CoilWrites(BottomConveyor.PINS, BottomConveyor.BackwardPatterns(numSteps))
    {
      var yOriginal := y.original;
      BottomConveyor.StepBottomConveyorForward(board, numSteps);
      var yNew := y.afterForward;
      var pixelsMovedForward := AbsReal(yNew - yOriginal);
      var pixelsMovedPerStepForward := pixelsMovedForward / numSteps as real;
      yOriginal := yNew;
      BottomConveyor.StepBottomConveyorBackward(board, numSteps);
      yNew := y.afterBackward;
      var pixelsMovedBackward := AbsReal(yNew - yOriginal);
      var pixelsMovedPerStepBackward := pixelsMovedBackward / numSteps as real;
      var data := map[BOTTOM_CONVEYOR_SPEED_FORWARD := RoundDown2dp(pixelsMovedPerStepForward),
                      BOTTOM_CONVEYOR_SPEED_BACKWARD := RoundDown2dp(pixelsMovedPerStepBackward)];
      assert pixelsMovedPerStepForward == PixelsPerStep(y.original, y.afterForward, numSteps);
      assert pixelsMovedPerStepBackward == PixelsPerStep(y.afterForward, y.afterBackward, numSteps);
      assert data == BottomData(numSteps, y);
      SaveVariables(data);
    }

    /** `calibrate_top_conveyor_motor(n)`, with the same three measurements of
        the top leg. Its motor calls are not modelled. */
    method CalibrateTopConveyorMotor(numSteps: int, y: RoundTrip)
      requires numSteps != 0
      modifies this
      ensures LoadVariables() == Update(old(LoadVariables()), TopData(numSteps, y))
    {
      var yOriginal := y.original;
      var yNew := y.afterForward;
      var pixelsMovedForward := AbsReal(yNew - yOriginal);
      var pixelsMovedPerStepForward := pixelsMovedForward / numSteps as real;
      yOriginal := yNew;
      yNew := y.afterBackward;
      var pixelsMovedBackward := AbsReal(yNew - yOriginal);
      var pixelsMovedPerStepBackward := pixelsMovedBackward / numSteps as real;
      var data := map[TOP_CONVEYOR_SPEED_FORWARD := RoundDown2dp(pixelsMovedPerStepForward),
                      TOP_CONVEYOR_SPEED_BACKWARD := RoundDown2dp(pixelsMovedPerStepBackward)];
      assert pixelsMovedPerStepForward == PixelsPerStep(y.original, y.afterForward, numSteps);
      assert pixelsMovedPerStepBackward == PixelsPerStep(y.afterForward, y.afterBackward, numSteps);
      assert data == TopData(numSteps, y);
      SaveVariables(data);
    }

    /** `calibrate_right_conveyor_motor(n)`: the top barcode's coordinate on
        the right conveyor before and after the driver is enabled, moved `n`
        steps and disabled. */
    method CalibrateRightConveyorMotor(board: Board, numSteps: int, d: Displacement)
      requires numSteps != 0
      modifies this, board
      ensures LoadVariables() == Update(old(LoadVariables()), RightData(numSteps, d))
      ensures board.trace == old(board.trace) + RightConveyorRun(numSteps)
    {
      var original := d.original;
      ghost var before := board.trace;
      RightConveyor.SetUpRightConveyor(board);
      ghost var enabled := board.trace;
      RightConveyor.MoveRightConveyor(board, numSteps);
      ghost var afterMove := board.trace;
      RightConveyor.CleanUpRightConveyor(board);
      ghost var up := [PinWrite(RightConveyor.SLEEP_PIN, HIGH), PinWrite(RightConveyor.RESET_PIN, HIGH)];
      ghost var move := RightConveyor.MoveWrites(numSteps);
      ghost var down := [PinWrite(RightConveyor.SLEEP_PIN, LOW), PinWrite(RightConveyor.RESET_PIN, LOW)];
      assert board.trace == afterMove + down;
      assert afterMove == enabled + move;
      assert enabled == before + up;
      assert RightConveyorRun(numSteps) == up + move + down;
      assert board.trace == before + (up + move + down);
      var moved := d.measured;
      var pixelsMoved := AbsReal(moved - original);
      var pixelsMovedPerStep := pixelsMoved / numSteps as real;
      var data := map[RIGHT_CONVEYOR_SPEED := RoundDown2dp(pixelsMovedPerStep)];
      assert pixelsMovedPerStep == PixelsPerStep(d.original, d.measured, numSteps);
      assert data == RightData(numSteps, d);
      SaveVariables(data);
    }

    /** `calibrate_left_conveyor_motor(n)`, the same on the left conveyor. */
    method CalibrateLeftConveyorMotor(board: Board, numSteps: int, d: Displacement)
      requires numSteps != 0
      modifies this, board
      ensures LoadVariables() == Update(old(LoadVariables()), LeftData(numSteps, d))
      ensures board.trace == old(board.trace) + LeftConveyorRun(numSteps)
    {
      var original := d.original;
      ghost var before := board.trace;
      LeftConveyor.SetUpLeftConveyor(board);
      ghost var enabled := board.trace;
      LeftConveyor.MoveLeftConveyor(board, numSteps);
      ghost var afterMove := board.trace;
      LeftConveyor.CleanUpLeftConveyor(board);
      ghost var up := [PinWrite(LeftConveyor.SLEEP_PIN, HIGH), PinWrite(LeftConveyor.RESET_PIN, HIGH)];
      ghost var move := LeftConveyor.MoveWrites(numSteps);
      ghost var down := [PinWrite(LeftConveyor.SLEEP_PIN, LOW), PinWrite(LeftConveyor.RESET_PIN, LOW)];
      assert board.trace == afterMove + down;
      assert afterMove == enabled + move;
      assert enabled == before + up;
      assert LeftConveyorRun(numSteps) == up + move + down;
      assert board.trace == before + (up + move + down);
      var moved := d.measured;
      var pixelsMoved := AbsReal(moved - original);
      var pixelsMovedPerStep := pixelsMoved / numSteps as real;
      var data := map["left_conveyor_motor_pixels_per_step" := RoundDown2dp(pixelsMovedPerStep)];
      assert pixelsMovedPerStep == PixelsPerStep(d.original, d.measured, numSteps);
      assert data == LeftData(numSteps, d);
      SaveVariables(data);
    }

    /** `calibrate_vertical_conveyor_motors(n)`: right, then left. */
    method CalibrateVerticalConveyorMotors(board: Board, numSteps: int, right: Displacement, left: Displacement)
      requires numSteps != 0
      modifies this, board
      ensures LoadVariables() == Update(Update(old(LoadVariables()), RightData(numSteps, right)), LeftData(numSteps, left))
      ensures board.trace == old(board.trace) + RightConveyorRun(numSteps) + LeftConveyorRun(numSteps)
    {
      CalibrateRightConveyorMotor(board, numSteps, right);
      CalibrateLeftConveyorMotor(board, numSteps, left);
    }

    /** The three calls of the `__main__` block, each routine given the
        step count it is called with. */
    method CalibrateMotors(board: Board, m: Measurements, verticalSteps: int, horizontalSteps: int)
      requires verticalSteps != 0 && horizontalSteps != 0
      modifies this, board
      ensures LoadVariables() == Update(Update(Update(Update(old(LoadVariables()),
                RightData(verticalSteps, m.right)), LeftData(verticalSteps, m.left)),
                BottomData(horizontalSteps, m.bottom)), TopData(horizontalSteps, m.top))
      ensures board.trace == old(board.trace)
                + RightConveyorRun(verticalSteps) + LeftConveyorRun(verticalSteps)
                + CoilWrites(BottomConveyor.PINS, BottomConveyor.ForwardPatterns(horizontalSteps))
                + CoilWrites(BottomConveyor.PINS, BottomConveyor.BackwardPatterns(horizontalSteps))
    {
      CalibrateVerticalConveyorMotors(board, verticalSteps, m.right, m.left);
      CalibrateBottomConveyorMotor(board, horizontalSteps, m.bottom);
      CalibrateTopConveyorMotor(horizontalSteps, m.top);
    }

    /** The `__main__` run: both vertical conveyors with their default 600
        steps, then the bottom and the top conveyor with their default 800. */
    method RunCalibration(board: Board, m: Measurements)
      modifies this, board
      ensures LoadVariables() == FullRun(old(LoadVariables()), m)
      ensures board.trace == old(board.trace)
                + RightConveyorRun(VERTICAL_STEPS_TO_TEST) + LeftConveyorRun(VERTICAL_STEPS_TO_TEST)
                + CoilWrites(BottomConveyor.PINS, BottomConveyor.ForwardPatterns(HORIZONTAL_STEPS_TO_TEST))
                + CoilWrites(BottomConveyor.PINS, BottomConveyor.BackwardPatterns(HORIZONTAL_STEPS_TO_TEST))
    {
      CalibrateMotors(board, m, VERTICAL_STEPS_TO_TEST, HORIZONTAL_STEPS_TO_TEST);
    }
  }

  /** A coordinate before and after one move. */
  datatype Displacement = Displacement(original: real, measured: real)

  /** A coordinate before, after a forward move and after the move back. */
  datatype RoundTrip = RoundTrip(original: real, afterForward: real, afterBackward: real)

  /** Everything a full calibration run measures. */
  datatype Measurements = Measurements(right: Displacement, left: Displacement, bottom: RoundTrip, top: RoundTrip)

  /** The GPIO trace of the right routine: enable, move, disable. */
  function RightConveyorRun(numSteps: int): seq<PinWrite>
  {
    [PinWrite(RightConveyor.SLEEP_PIN, HIGH), PinWrite(RightConveyor.RESET_PIN, HIGH)]
    + RightConveyor.MoveWrites(numSteps)
    + [PinWrite(RightConveyor.SLEEP_PIN, LOW), PinWrite(RightConveyor.RESET_PIN, LOW)]
  }

  /** The GPIO trace of the left routine: enable, move, disable. */
  function LeftConveyorRun(numSteps: int): seq<PinWrite>
  {
    [PinWrite(LeftConveyor.SLEEP_PIN, HIGH), PinWrite(LeftConveyor.RESET_PIN, HIGH)]
    + LeftConveyor.MoveWrites(numSteps)
    + [PinWrite(LeftConveyor.SLEEP_PIN, LOW), PinWrite(LeftConveyor.RESET_PIN, LOW)]
  }

  /** The bottom routine's data: the forward ratio from the original position
      and the backward ratio from the position after the forward move. */
  function BottomData(numSteps: int, y: RoundTrip): (d: map<string, real>)
    requires numSteps != 0
    ensures d.Keys == {BOTTOM_CONVEYOR_SPEED_FORWARD, BOTTOM_CONVEYOR_SPEED_BACKWARD}
    ensures d[BOTTOM_CONVEYOR_SPEED_FORWARD] == StoredRatio(y.original, y.afterForward, numSteps)
    ensures d[BOTTOM_CONVEYOR_SPEED_BACKWARD] == StoredRatio(y.afterForward, y.afterBackward, numSteps)
  {
    map[BOTTOM_CONVEYOR_SPEED_FORWARD := StoredRatio(y.original, y.afterForward, numSteps),
        BOTTOM_CONVEYOR_SPEED_BACKWARD := StoredRatio(y.afterForward, y.afterBackward, numSteps)]
  }

  /** The top routine's data, measured the same way. */
  function TopData(numSteps: int, y: RoundTrip): (d: map<string, real>)
    requires numSteps != 0
    ensures d.Keys == {TOP_CONVEYOR_SPEED_FORWARD, TOP_CONVEYOR_SPEED_BACKWARD}
    ensures d[TOP_CONVEYOR_SPEED_FORWARD] == StoredRatio(y.original, y.afterForward, numSteps)
    ensures d[TOP_CONVEYOR_SPEED_BACKWARD] == StoredRatio(y.afterForward, y.afterBackward, numSteps)
  {
    map[TOP_CONVEYOR_SPEED_FORWARD := StoredRatio(y.original, y.afterForward, numSteps),
        TOP_CONVEYOR_SPEED_BACKWARD := StoredRatio(y.afterForward, y.afterBackward, numSteps)]
  }

  /** The right routine's data: one ratio under RIGHT_CONVEYOR_SPEED. */
  function RightData(numSteps: int, d: Displacement): (r: map<string, real>)
    requires numSteps != 0
    ensures r.Keys == {RIGHT_CONVEYOR_SPEED}
    ensures r[RIGHT_CONVEYOR_SPEED] == StoredRatio(d.original, d.measured, numSteps)
  {
    map[RIGHT_CONVEYOR_SPEED := StoredRatio(d.original, d.measured, numSteps)]
  }

  /** The left routine's data. The routine spells its key out as a literal,
      and that literal is LEFT_CONVEYOR_SPEED. */
  function LeftData(numSteps: int, d: Displacement): (r: map<string, real>)
    requires numSteps != 0
    ensures r.Keys == {LEFT_CONVEYOR_SPEED}
    ensures r[LEFT_CONVEYOR_SPEED] == StoredRatio(d.original, d.measured, numSteps)
  {
    map["left_conveyor_motor_pixels_per_step" := StoredRatio(d.original, d.measured, numSteps)]
  }

  /** The store after the `__main__` run, starting from `data`. */
  function FullRun(data: map<string, real>, m: Measurements): map<string, real>
  {
    var afterVertical := Update(Update(data, RightData(VERTICAL_STEPS_TO_TEST, m.right)),
                                LeftData(VERTICAL_STEPS_TO_TEST, m.left));
    Update(Update(afterVertical, BottomData(HORIZONTAL_STEPS_TO_TEST, m.bottom)),
           TopData(HORIZONTAL_STEPS_TO_TEST, m.top))
  }

  /** The routines write disjoint keys, so after the `__main__` run the store
      holds all six keys, each with the value its own routine computed,
      whatever the file held before; any other key keeps its old value. */
  lemma FullRunStoresEveryRatio(data: map<string, real>, m: Measurements)
    ensures var f := FullRun(data, m);
      && f.Keys == data.Keys + ALL_KEYS
      && f[RIGHT_CONVEYOR_SPEED] == StoredRatio(m.right.original, m.right.measured, VERTICAL_STEPS_TO_TEST)
      && f[LEFT_CONVEYOR_SPEED] == StoredRatio(m.left.original, m.left.measured, VERTICAL_STEPS_TO_TEST)
      && f[BOTTOM_CONVEYOR_SPEED_FORWARD] == StoredRatio(m.bottom.original, m.bottom.afterForward, HORIZONTAL_STEPS_TO_TEST)
      && f[BOTTOM_CONVEYOR_SPEED_BACKWARD] == StoredRatio(m.bottom.afterForward, m.bottom.afterBackward, HORIZONTAL_STEPS_TO_TEST)
      && f[TOP_CONVEYOR_SPEED_FORWARD] == StoredRatio(m.top.original, m.top.afterForward, HORIZONTAL_STEPS_TO_TEST)
      && f[TOP_CONVEYOR_SPEED_BACKWARD] == StoredRatio(m.top.afterForward, m.top.afterBackward, HORIZONTAL_STEPS_TO_TEST)
      && forall k :: k in data && k !in ALL_KEYS ==> f[k] == data[k]
  {
    var r := RightData(VERTICAL_STEPS_TO_TEST, m.right);
    var l := LeftData(VERTICAL_STEPS_TO_TEST, m.left);
    var b := BottomData(HORIZONTAL_STEPS_TO_TEST, m.bottom);
    var t := TopData(HORIZONTAL_STEPS_TO_TEST, m.top);
    var s1 := Update(data, r);
    var s2 := Update(s1, l);
    var s3 := Update(s2, b);
    var f := Update(s3, t);
    assert f == FullRun(data, m);
    assert RIGHT_CONVEYOR_SPEED !in l && RIGHT_CONVEYOR_SPEED !in b && RIGHT_CONVEYOR_SPEED !in t;
    assert LEFT_CONVEYOR_SPEED !in b && LEFT_CONVEYOR_SPEED !in t;
    assert BOTTOM_CONVEYOR_SPEED_FORWARD !in t && BOTTOM_CONVEYOR_SPEED_BACKWARD !in t;
  }

  /** The full run's ratios are never negative. */
  lemma FullRunRatiosNonNegative(data: map<string, real>, m: Measurements)
    ensures forall k :: k in ALL_KEYS ==> FullRun(data, m)[k] >= 0.0
  {
    FullRunStoresEveryRatio(data, m);
    StoredRatioBounds(m.right.original, m.right.measured, VERTICAL_STEPS_TO_TEST);
    StoredRatioBounds(m.left.original, m.left.measured, VERTICAL_STEPS_TO_TEST);
    StoredRatioBounds(m.bottom.original, m.bottom.afterForward, HORIZONTAL_STEPS_TO_TEST);
    StoredRatioBounds(m.bottom.afterForward, m.bottom.afterBackward, HORIZONTAL_STEPS_TO_TEST);
    StoredRatioBounds(m.top.original, m.top.afterForward, HORIZONTAL_STEPS_TO_TEST);
    StoredRatioBounds(m.top.afterForward, m.top.afterBackward, HORIZONTAL_STEPS_TO_TEST);
  }
}
