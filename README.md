# grobot_rasppi core in Dafny

This project models the control logic of a Raspberry Pi plant-growing rig. The rig moves trays on four conveyors. The two horizontal conveyors, top and bottom, are driven by 28BYJ-48 steppers through ULN2003 boards. The two vertical conveyors, left and right, are driven by step/direction drivers. A camera finds the conveyors and the barcodes on the trays. A calibration run measures how many pixels each conveyor moves per motor step and keeps the ratios in a JSON store.

The model has three parts.

- **Motor command encoders** (`gpio.dfy`, `half_step.dfy`, `bottom_conveyor.dfy`, `top_conveyor.dfy`, `step_dir.dfy`, `right_conveyor.dfy`, `left_conveyor.dfy`).
  - Every `GPIO.output(pin, level)` call appends a `PinWrite` to the trace of a `Board` object.
  - Each driver function is a method that appends to that trace.
  - Each method is proved equal to a trace function. Lemmas then state what the trace means: the patterns it energises, the DIR level, and the pulse count.
- **Conveyor-boundary scanning and barcode sorting** (`image_analysis.dfy`).
  - The grey image is an `array2<int>`, and a pixel is dark below 50.
  - The column and row scans keep the source's loops with `break`. Each scan is proved against a recursive "first qualifying line" / "last qualifying line" function, and those functions are proved least and greatest.
  - Barcode rectangles are given as a list. Their centres are `real`s.
  - The split into two lists is proved to be a partition that keeps order.
- **Calibration store and ratio arithmetic** (`calibration.dfy`).
  - The JSON file is a `FileState`: missing, unparsable, or holding a map.
  - `CalibrationStore.SaveVariables` merges new values into what loads.
  - Each calibration routine takes the camera measurements as parameters, drives the motors it drives in the source (except the top routine, see Left out), and stores rounded pixels-per-step ratios.
  - The top-level run is shown to leave all six ratios in the store.

Python's `//` on the conveyor distance is Dafny's `/` by the positive divisor 4, which floors. Python's `range(n)` with `n <= 0` runs no iteration; `Repeat` and the loop bounds model that with `Max0`.

## Model

| member | source | states |
|---|---|---|
| Gpio.Board.Output | bottom_conveyor_motor_code.py:37-40 | one output call appends exactly one (pin, level) write at the end of the trace |
| Gpio.Reversed | bottom_conveyor_motor_code.py:54 | `reversed(seq)`: same length, element k is element `len-1-k` of the input |
| Gpio.RepeatLength | bottom_conveyor_motor_code.py:46-48 | `steps` passes over a block emit `len(block) * max(steps, 0)` items, none when `steps <= 0` |
| Gpio.RepeatReversed | bottom_conveyor_motor_code.py:51-55 | `n` passes over the reversed block are exactly the reverse of `n` passes over the block |
| Gpio.PulsesShape | vertical_conveyor_right_motor_code.py:43-47 | `n` pulses are `2 * max(n, 0)` writes alternating HIGH then LOW on the pin, with `max(n, 0)` HIGH writes |
| HalfStep.CoilWrites | bottom_conveyor_motor_code.py:35-40 | a sequence of `step` calls is four writes per pattern |
| HalfStep.CoilWritesAt | bottom_conveyor_motor_code.py:37-40 | write k of the trace goes to IN(k mod 4 + 1) with coil k mod 4 of pattern k div 4 |
| HalfStep.PatternsOfCoilWrites | bottom_conveyor_motor_code.py:37-40 | decoding the trace four writes at a time gives back exactly the patterns stepped through |
| HalfStep.Differences | bottom_conveyor_motor_code.py:15-24 | the number of coils two patterns disagree on is at most 4 and is 0 exactly when they are equal |
| HalfStep.ReversedCycle | bottom_conveyor_motor_code.py:51-55 | the reverse of a half-step cycle is again a half-step cycle |
| BottomConveyor.SeqIsHalfStepCycle | bottom_conveyor_motor_code.py:15-24 | `seq` has 8 binary patterns; each energises one coil or two cyclically adjacent coils; consecutive patterns, last to first included, differ in exactly one coil |
| BottomConveyor.Step | bottom_conveyor_motor_code.py:35-41 | `step(p)` writes p's four coil levels to IN1, IN2, IN3, IN4 in that order |
| BottomConveyor.StepThrough | bottom_conveyor_motor_code.py:47-48 | the inner loop's trace is the coil writes of the given table in its order |
| BottomConveyor.StepRepeatedly | bottom_conveyor_motor_code.py:46-48 | the outer `range(steps)` loop's trace is the table's coil writes repeated `steps` times, nothing for `steps <= 0` |
| BottomConveyor.StepBottomConveyorBackward | bottom_conveyor_motor_code.py:44-48 | the trace gains the coil writes of `seq` repeated `steps` times |
| BottomConveyor.StepBottomConveyorForward | bottom_conveyor_motor_code.py:51-55 | the trace gains the coil writes of `reversed(seq)` repeated `steps` times |
| BottomConveyor.BackwardTrace | bottom_conveyor_motor_code.py:44-48 | backward emits `8 * max(steps, 0)` patterns, and its trace decodes back to them |
| BottomConveyor.ForwardReversesBackward | bottom_conveyor_motor_code.py:51-55 | forward's pattern sequence is exactly the reverse of backward's, with `8 * max(steps, 0)` patterns |
| TopConveyor.SeqMatchesBottom | top_conveyor_motor_code.py:22-31 | the top table equals the bottom table, and it and its reverse are half-step cycles |
| TopConveyor.Step | top_conveyor_motor_code.py:34-40 | `step(delay, p)` writes p's four levels to IN1..IN4 (26, 19, 13, 6) in order |
| TopConveyor.StepThrough | top_conveyor_motor_code.py:46-47 | the inner loop's trace is the coil writes of the given table in its order |
| TopConveyor.StepRepeatedly | top_conveyor_motor_code.py:45-47 | the outer `range(steps)` loop's trace is the table's coil writes repeated `steps` times, nothing for `steps <= 0` |
| TopConveyor.StepForward | top_conveyor_motor_code.py:43-47 | the trace gains the coil writes of `seq` repeated `steps` times |
| TopConveyor.StepBackward | top_conveyor_motor_code.py:50-54 | the trace gains the coil writes of `reversed(seq)` repeated `steps` times |
| TopConveyor.ForwardAndBackwardTraces | top_conveyor_motor_code.py:43-54 | forward emits `8 * max(steps, 0)` patterns, backward emits exactly their reverse, and both traces decode back to their patterns |
| TopConveyor.SwappedDirectionNames | top_conveyor_motor_code.py:43-54 | top forward emits the bottom conveyor's backward patterns and top backward its forward patterns, with the same levels at every trace position |
| StepDir.StepperWritesShape | vertical_conveyor_right_motor_code.py:38-47 | `move_stepper` writes DIR once and first, then only STEP writes alternating HIGH/LOW, `max(steps, 0)` of them HIGH; DIR is left at its level and STEP ends LOW after any pulse |
| StepDir.DriverEnableLevels | vertical_conveyor_right_motor_code.py:27-35 | after the SLEEP and RESET writes of set-up (clean-up), both pins are left HIGH (LOW) |
| RightConveyor.DirectionLevel | vertical_conveyor_right_motor_code.py:40 | DIR is HIGH exactly for "CW" and LOW for every other direction |
| RightConveyor.MoveStepper | vertical_conveyor_right_motor_code.py:38-47 | the trace gains the DIR write then `steps` STEP pulses |
| RightConveyor.MoveRightConveyor | vertical_conveyor_right_motor_code.py:10-16 | the trace gains the writes of `move_stepper(steps, "CW")` for `steps > 0`, otherwise of `move_stepper(abs(steps), "CCW")` |
| RightConveyor.SetUpRightConveyor | vertical_conveyor_right_motor_code.py:18-29 | the trace gains SLEEP HIGH then RESET HIGH |
| RightConveyor.CleanUpRightConveyor | vertical_conveyor_right_motor_code.py:31-35 | the trace gains SLEEP LOW then RESET LOW |
| RightConveyor.MoveRightConveyorTrace | vertical_conveyor_right_motor_code.py:10-16 | DIR is written first, HIGH exactly when `s > 0`; the count is always `abs(s)` pulses, `1 + 2 * abs(s)` writes, STEP left LOW |
| LeftConveyor.MoveStepper | vertical_conveyor_left_motor_code.py:35-48 | the trace gains DIR (HIGH for "CW", else LOW) then `steps` STEP pulses |
| LeftConveyor.MoveLeftConveyor | vertical_conveyor_left_motor_code.py:10-14 | as written: "CCW" with `steps` for `steps > 0`, otherwise "CW" with `steps` unchanged |
| LeftConveyor.MoveLeftConveyorTrace | vertical_conveyor_left_motor_code.py:10-14 | DIR is written first, HIGH exactly when `s <= 0`, and `max(s, 0)` pulses follow |
| LeftConveyor.NegativeStepsAreDropped | vertical_conveyor_left_motor_code.py:13-14 | for `s <= 0` the whole trace is one DIR HIGH write; 600 steps down give no pulse where 600 are meant |
| LeftConveyor.MoveLeftConveyorIntended | vertical_conveyor_left_motor_code.py:10-14 | corrected: "CW" with `abs(steps)` for `steps <= 0` |
| LeftConveyor.IntendedMoveLeftConveyorTrace | vertical_conveyor_left_motor_code.py:10-14 | corrected: DIR HIGH exactly when `s <= 0`, `abs(s)` pulses, STEP left LOW |
| LeftConveyor.SetUpLeftConveyor | vertical_conveyor_left_motor_code.py:16-27 | the trace gains SLEEP HIGH then RESET HIGH |
| LeftConveyor.CleanUpLeftConveyor | vertical_conveyor_left_motor_code.py:29-33 | the trace gains SLEEP LOW then RESET LOW |
| LeftConveyor.OppositeToRightConveyor | vertical_conveyor_left_motor_code.py:11-12 | for every count the left DIR level differs from the right one; for `s > 0` the pulse counts agree, and the corrected version agrees for every `s` |
| ImageAnalysis.MaskBit | image_analysis.py:10 | the mask is 1 exactly when the grey value is below 50, and 0 exactly when it is not |
| ImageAnalysis.DarkPrefix | image_analysis.py:18 | a partial sum of mask bits is at most the number of pixels summed |
| ImageAnalysis.DarkPrefixCountsDarkPixels | image_analysis.py:18 | `np.sum` of a line's mask is the number of its pixels that are dark |
| ImageAnalysis.FirstFromIsLeast | image_analysis.py:17-23 | the upward scan stops at the least qualifying line, and gives 0 when there is none |
| ImageAnalysis.LastBelowIsGreatest | image_analysis.py:26-33 | the downward scan stops at the greatest qualifying line, and gives 0 when there is none |
| ImageAnalysis.ConveyorBand | image_analysis.py:12-33 | when a line qualifies, first <= last, both qualify, and no line outside them qualifies; when none qualifies, both are 0 |
| ImageAnalysis.FindTopAndBottomOfConveyors | image_analysis.py:7-36 | `bottom` is the first and `top` the last column with at least 500 dark pixels; when one exists, `bottom <= top` are in range and every column outside them has fewer than 500 |
| ImageAnalysis.FindLeftAndRightOfConveyors | image_analysis.py:38-69 | `left` is the first and `right` the last row with at least 2000 dark pixels; when one exists, `left <= right` are in range and every row outside them has fewer than 2000 |
| ImageAnalysis.Centre | image_analysis.py:107-110 | the centre is equidistant from both edges on each axis, and inside the rectangle when `w, h >= 0` |
| ImageAnalysis.FindBarcodeLocations | image_analysis.py:98-121 | one centre per decoded rectangle, in decode order, each `(x + w/2, y + h/2)` |
| ImageAnalysis.SplitThreshold | image_analysis.py:74-75 | when `bottom <= top` the threshold lies between them, a quarter of the way from `bottom`, the quarter rounded towards `top` |
| ImageAnalysis.SplitIsPartition | image_analysis.py:88-94 | the two lists' lengths and multisets add up to the input's; the first holds only centres with `y` below the threshold, the second only the others |
| ImageAnalysis.SplitAtThreshold | image_analysis.py:83-94 | the loop builds exactly the order-keeping filters for `y < threshold` and `y >= threshold`, which partition the centres |
| ImageAnalysis.BarcodesDividedIntoConveyors | image_analysis.py:72-96 | the threshold comes from the column scan's pair; the result is the order-keeping split of all centres at it; lengths and multisets add up; no barcodes gives two empty lists |
| Calibration.RoundDown2dp | calibration.py:20-21 | the result is a multiple of 0.01, at most `x`, less than 0.01 below `x`, and not negative for `x >= 0` |
| Calibration.RoundDown2dpIdempotent | calibration.py:20-21 | rounding a rounded value changes nothing |
| Calibration.RoundDown2dpIsGreatest | calibration.py:20-21 | every multiple of 0.01 not above `x` is at most the rounded value |
| Calibration.AbsReal | calibration.py:62 | `abs` is non-negative and is the value or its negation |
| Calibration.PixelsPerStep | calibration.py:62-63 | the ratio times the step count is the absolute displacement, and it is non-negative for a positive count |
| Calibration.StoredRatioBounds | calibration.py:143-147 | a stored ratio is non-negative, at most the exact ratio and less than 0.01 below it; a displacement under `num_steps/100` pixels stores 0.0 |
| Calibration.RatioRoundTrip | calibration.py:143-147 | a conveyor moving `ratio` pixels per step, towards larger or towards smaller coordinates, is stored as `round_down_2dp(ratio)` |
| Calibration.RatioFromDisplacement | calibration.py:143-147 | any measurement whose absolute displacement is `ratio * num_steps` stores `round_down_2dp(ratio)`, whatever the direction |
| Calibration.Update | calibration.py:29 | `dict.update`: keys are the union; keys of the new data get the new values; all other keys keep theirs |
| Calibration.UpdateComposes | calibration.py:24-33 | two saves equal one save of the merged data, and saving the same data twice equals saving it once |
| Calibration.Load | calibration.py:36-41 | `load_variables` is the stored map, or the empty map when the file is missing or does not parse |
| Calibration.CalibrationStore.SaveVariables | calibration.py:24-33 | the file afterwards holds the map loaded before, updated with the new data |
| Calibration.BottomData | calibration.py:62-77 | exactly the two BOTTOM keys; the forward ratio is measured from the original position and the backward one from the post-forward position |
| Calibration.TopData | calibration.py:100-115 | exactly the two TOP keys, measured the same way |
| Calibration.RightData | calibration.py:143-147 | exactly the RIGHT_CONVEYOR_SPEED key, with the stored ratio of the barcode's displacement |
| Calibration.LeftData | calibration.py:170-174 | the literal key is LEFT_CONVEYOR_SPEED and is the only key, with the stored ratio |
| Calibration.CalibrationStore.CalibrateBottomConveyorMotor | calibration.py:43-79 | the store is updated with the bottom data; the trace gains `n` forward passes then `n` backward passes of the bottom table |
| Calibration.CalibrationStore.CalibrateTopConveyorMotor | calibration.py:81-117 | the store is updated with the top data |
| Calibration.CalibrationStore.CalibrateRightConveyorMotor | calibration.py:124-149 | the store is updated with the right data; the trace gains enable, `move_right_conveyor(n)`, disable |
| Calibration.CalibrationStore.CalibrateLeftConveyorMotor | calibration.py:151-176 | the store is updated with the left data; the trace gains enable, `move_left_conveyor(n)`, disable |
| Calibration.CalibrationStore.CalibrateVerticalConveyorMotors | calibration.py:119-122 | right then left: the store gets both updates in that order and the trace both runs |
| Calibration.CalibrationStore.CalibrateMotors | calibration.py:179-182 | the three routines run in order: the store ends as the four merges in that order and the trace is the right run, the left run, then the bottom forward and backward coil writes |
| Calibration.CalibrationStore.RunCalibration | calibration.py:178-183 | 600-step vertical, then 800-step bottom and top calibration; the store ends as the four merges in that order |
| Calibration.FullRunStoresEveryRatio | calibration.py:178-183 | after the run the store holds all six keys, each with its own routine's ratio, and every other key keeps its old value |
| Calibration.FullRunRatiosNonNegative | calibration.py:178-183 | every ratio the run stores is non-negative |

## Left out

- Camera capture, `cv2.imread`, grey conversion and debug drawing or `cv2.imwrite` are not modelled. The grey grid is the input.
- pyzbar `decode` is a foreign library. Its output is the input list of rectangles.
- JSON reading and writing is not modelled. The file is a `FileState`. A parsed file that is not a map of names to numbers is not modelled.
- The vision helpers that calibration imports (leg contours, conveyor threshold, top barcode per conveyor) are not in the modelled image analysis code. Their results are the routines' `Displacement` and `RoundTrip` parameters.
- `RunCalibration` models the sequence the `__main__` block intends, not one that can run: calibration.py imports `set_up_top_conveyor` and `step_top_conveyor_*`, which the top conveyor file does not define, and image analysis helpers that the image analysis file does not define; importing the top conveyor file would also start its module-level demo loop, which never ends.
- `CalibrateTopConveyorMotor` does not drive the top motor. The source calls `set_up_top_conveyor` and `step_top_conveyor_*`, which the top conveyor file does not define; the motor file's own `step_forward` / `step_backward` are modelled instead.
- `time.sleep` delays, `GPIO.setmode`, `GPIO.setup` and `GPIO.cleanup` leave no mark in the trace. The same goes for the top conveyor file's module-level set-up and its demo loop, and for each file's `__main__` demo.
- `print` output is not modelled.
- Floating point is not modelled. Ratios, rounding and barcode centres are exact `real`s, and `STEPS_PER_REVOLUTION` is unused.
- The calibration routines require a non-zero step count. With zero steps Python raises ZeroDivisionError.
- No check rejects a zero ratio, so none is modelled. `StoredRatioBounds` states that the store keeps 0.0 for a small displacement.
- The servo, watering, tray-dragging, plant-rotation, QR generation, barcode-scan display and image-upload scripts are not part of this model.
- FindTopAndBottomOfConveyors: the method's contract ties `bottom` and `top` to `FirstLine`/`LastLine` but does not itself restate that both are 0 when no column qualifies; `ConveyorBand` states that about those functions.
- FindLeftAndRightOfConveyors: likewise, the all-zero case is stated by `ConveyorBand`.
- SplitAtThreshold: the classification loop is a method of its own, called by `BarcodesDividedIntoConveyors`, rather than inline as in the source.
- BottomConveyor.StepRepeatedly: the outer `range(steps)` loop, written twice in the source (once over `seq`, once over `reversed(seq)`), is one method taking the table. The same holds for `TopConveyor.StepRepeatedly`.
- Calibration.CalibrationStore.CalibrateMotors: the three calls of the `__main__` block are a method taking the step counts, and `RunCalibration` passes it the defaults 600 and 800.
- RightConveyor.SetUpRightConveyor: the levels left on SLEEP and RESET are stated by `StepDir.DriverEnableLevels`, not by the method. The same holds for the left conveyor and for both clean-up methods.
- BarcodesDividedIntoConveyors: the threshold comes from column indices of the image, but it is compared with each centre's `y` coordinate, which is a row position. This axis mismatch is modelled as written.

## Findings

| source | as written | input that shows it | evidently intended | confidence | as-written member | corrected member |
|---|---|---|---|---|---|---|
| vertical_conveyor_left_motor_code.py:13-14 | for `steps <= 0` the count is passed to `move_stepper` unchanged, so `range(steps)` is empty and no pulse is sent | `move_left_conveyor(-600)`: DIR HIGH, then no STEP write | move down by `abs(steps)`, as the right conveyor does | high (not executed) | LeftConveyor.NegativeStepsAreDropped | LeftConveyor.IntendedMoveLeftConveyorTrace |
