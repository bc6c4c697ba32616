/** Half-step driving of a four-coil stepper through a ULN2003 board: a coil
    pattern is four levels, written by `step()` to IN1, IN2, IN3, IN4 in that
    order. This module gives the writes of a run of patterns, the inverse that
    reads patterns back from a trace, and what makes an 8-pattern table a
    half-step cycle. */
module HalfStep {
  import opened Gpio

  /** One row of the table: the levels for IN1, IN2, IN3 and IN4. */
  datatype Pattern = Pattern(in1: int, in2: int, in3: int, in4: int)

  /** The level of coil k (0 for IN1 ... 3 for IN4). */
  function Coil(p: Pattern, k: int): int
    requires 0 <= k < 4
  {
    if k == 0 then p.in1 else if k == 1 then p.in2 else if k == 2 then p.in3 else p.in4
  }

  /** Every coil level is LOW or HIGH. */
  predicate IsBinary(p: Pattern)
  {
    forall k :: 0 <= k < 4 ==> Coil(p, k) == LOW || Coil(p, k) == HIGH
  }

  /** The four output calls of `step(delay, p)`: coil k goes to pins[k]. */
  function StepWrites(pins: seq<int>, p: Pattern): (r: seq<PinWrite>)
    requires |pins| == 4
  {
    [PinWrite(pins[0], p.in1), PinWrite(pins[1], p.in2), PinWrite(pins[2], p.in3), PinWrite(pins[3], p.in4)]
  }

  /** The trace of calling `step` on each pattern of `ps` in turn. */
  function CoilWrites(pins: seq<int>, ps: seq<Pattern>): (r: seq<PinWrite>)
    requires |pins| == 4
    ensures |r| == 4 * |ps|
  {
    if ps == [] then []
    else CoilWrites(pins, ps[..|ps| - 1]) + StepWrites(pins, ps[|ps| - 1])
  }

  /** Write k of a run goes to pin k mod 4 (IN1, IN2, IN3, IN4, IN1, ...) and
      carries coil k mod 4 of pattern k div 4. */
  lemma {:induction false} CoilWritesAt(pins: seq<int>, ps: seq<Pattern>)
    requires |pins| == 4
    ensures forall k :: 0 <= k < |CoilWrites(pins, ps)| ==>
              CoilWrites(pins, ps)[k] == PinWrite(pins[k % 4], Coil(ps[k / 4], k % 4))
    decreases |ps|
  {
    if ps != [] {
      var init := ps[..|ps| - 1];
      var prev := CoilWrites(pins, init);
      CoilWritesAt(pins, init);
      assert CoilWrites(pins, ps) == prev + StepWrites(pins, ps[|ps| - 1]);
      forall k | 0 <= k < |prev| ensures init[k / 4] == ps[k / 4] {
      }
      forall k | |prev| <= k < |prev| + 4 ensures k % 4 == k - |prev| && k / 4 == |ps| - 1 {
        assert |prev| == 4 * (|ps| - 1);
      }
    }
  }

  lemma {:induction false} CoilWritesAppend(pins: seq<int>, a: seq<Pattern>, b: seq<Pattern>)
    requires |pins| == 4
    ensures CoilWrites(pins, a + b) == CoilWrites(pins, a) + CoilWrites(pins, b)
    decreases |b|
  {
    if b == [] {
      assert a + b == a;
    } else {
      assert (a + b)[..|a + b| - 1] == a + b[..|b| - 1];
      CoilWritesAppend(pins, a, b[..|b| - 1]);
    }
  }

  /** Reads a trace back as coil patterns, four writes at a time from the end. */
  function Patterns(trace: seq<PinWrite>): seq<Pattern>
    decreases |trace|
  {
    if |trace| < 4 then []
    else
      var n := |trace|;
      Patterns(trace[..n - 4]) + [Pattern(trace[n - 4].level, trace[n - 3].level, trace[n - 2].level, trace[n - 1].level)]
  }

  /** Reading the patterns back from the writes of a run of patterns gives the run. */
  lemma {:induction false} PatternsOfCoilWrites(pins: seq<int>, ps: seq<Pattern>)
    requires |pins| == 4
    ensures Patterns(CoilWrites(pins, ps)) == ps
    decreases |ps|
  {
    if ps != [] {
      var init := ps[..|ps| - 1];
      var t := CoilWrites(pins, ps);
      var prev := CoilWrites(pins, init);
      assert t == prev + StepWrites(pins, ps[|ps| - 1]);
      assert t[..|t| - 4] == prev;
      PatternsOfCoilWrites(pins, init);
      assert init + [ps[|ps| - 1]] == ps;
    }
  }

  /** The number of coils on which two patterns differ. */
  function Differences(p: Pattern, q: Pattern): (r: nat)
    ensures r <= 4
    ensures r == 0 <==> p == q
  {
    (if p.in1 != q.in1 then 1 else 0) + (if p.in2 != q.in2 then 1 else 0)
      + (if p.in3 != q.in3 then 1 else 0) + (if p.in4 != q.in4 then 1 else 0)
  }

  /** The number of energised coils. */
  function Energised(p: Pattern): nat
  {
    (if p.in1 == HIGH then 1 else 0) + (if p.in2 == HIGH then 1 else 0)
      + (if p.in3 == HIGH then 1 else 0) + (if p.in4 == HIGH then 1 else 0)
  }

  /** Coil k and its cyclic neighbour k + 1 are both energised. */
  predicate AdjacentPairOn(p: Pattern, k: int)
    requires 0 <= k < 4
  {
    Coil(p, k) == HIGH && Coil(p, (k + 1) % 4) == HIGH
  }

  /** A half-step pattern drives one coil alone or two cyclically adjacent coils. */
  predicate IsHalfStepPattern(p: Pattern)
  {
    IsBinary(p) &&
    (Energised(p) == 1 || (Energised(p) == 2 && exists k :: 0 <= k < 4 && AdjacentPairOn(p, k)))
  }

  /** Pattern i of the table and the one after it, cyclically, differ in one coil. */
  predicate SingleCoilChange(s: seq<Pattern>, i: int)
    requires |s| == 8 && 0 <= i < 8
  {
    Differences(s[i], s[(i + 1) % 8]) == 1
  }

  /** An 8-pattern half-step cycle: every pattern is a half-step pattern, and
      each pattern differs from the next, the last from the first included, in
      exactly one coil. */
  predicate IsHalfStepCycle(s: seq<Pattern>)
  {
    |s| == 8 &&
    (forall i :: 0 <= i < 8 ==> IsHalfStepPattern(s[i])) &&
    (forall i :: 0 <= i < 8 ==> SingleCoilChange(s, i))
  }

  /** Running a cycle backwards is again a cycle: the reversed table is a valid
      half-step sequence, so both directions of the motor are well-formed. */
  lemma ReversedCycle(s: seq<Pattern>)
    requires IsHalfStepCycle(s)
    ensures IsHalfStepCycle(Reversed(s))
  {
    var r := Reversed(s);
    forall i | 0 <= i < 8 ensures IsHalfStepPattern(r[i]) {
      assert r[i] == s[7 - i];
    }
    forall i | 0 <= i < 8 ensures SingleCoilChange(r, i) {
      var j := if i == 7 then 7 else 6 - i;
      assert r[(i + 1) % 8] == s[j];
      assert r[i] == s[(j + 1) % 8];
      assert SingleCoilChange(s, j);
    }
  }
}
