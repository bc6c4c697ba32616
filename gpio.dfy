/** The GPIO header as the driver scripts see it. Every `GPIO.output(pin, level)`
    call is recorded as one PinWrite at the end of a trace; pin set-up, clean-up
    and sleeps leave no mark. The module also holds the sequence helpers the
    drivers share: repeating a block of writes, reversing an iteration order,
    counting writes and finding the level a pin was left at. */
module Gpio {

  const LOW := 0
  const HIGH := 1

  datatype Option<T> = None | Some(value: T)

  /** One `GPIO.output(pin, level)` call. */
  datatype PinWrite = PinWrite(pin: int, level: int)

  /** The board: the ordered record of every output call made on it. */
  class Board {
    var trace: seq<PinWrite>

    constructor ()
      ensures trace == []
    {
      trace := [];
    }

    /** `GPIO.output(pin, level)`. */
    method Output(pin: int, level: int)
      modifies this
      ensures trace == old(trace) + [PinWrite(pin, level)]
    {
      trace := trace + [PinWrite(pin, level)];
    }
  }

  /** The level `pin` was last driven to, or None when the trace never wrote it. */
  function LastLevel(trace: seq<PinWrite>, pin: int): (r: Option<int>)
    ensures r.None? <==> forall i :: 0 <= i < |trace| ==> trace[i].pin != pin
    ensures r.Some? ==> exists i :: 0 <= i < |trace| && trace[i] == PinWrite(pin, r.value)
                                    && forall j :: i < j < |trace| ==> trace[j].pin != pin
  {
    if trace == [] then None
    else if trace[|trace| - 1].pin == pin then Some(trace[|trace| - 1].level)
    else LastLevel(trace[..|trace| - 1], pin)
  }

  /** Writes appended after a trace decide a pin's level if they touch it at all. */
  lemma {:induction false} LastLevelAppend(t: seq<PinWrite>, u: seq<PinWrite>, pin: int)
    ensures LastLevel(t + u, pin) == if LastLevel(u, pin).Some? then LastLevel(u, pin) else LastLevel(t, pin)
    decreases |u|
  {
    if u == [] {
      assert t + u == t;
    } else {
      var w := u[|u| - 1];
      assert (t + u)[..|t + u| - 1] == t + u[..|u| - 1];
      if w.pin != pin {
        LastLevelAppend(t, u[..|u| - 1], pin);
      }
    }
  }

  /** How many times the write `w` occurs in the trace. */
  function CountWrites(trace: seq<PinWrite>, w: PinWrite): (r: nat)
    ensures r <= |trace|
    ensures r == 0 <==> w !in trace
  {
    if trace == [] then 0
    else CountWrites(trace[..|trace| - 1], w) + (if trace[|trace| - 1] == w then 1 else 0)
  }

  lemma {:induction false} CountWritesAppend(a: seq<PinWrite>, b: seq<PinWrite>, w: PinWrite)
    ensures CountWrites(a + b, w) == CountWrites(a, w) + CountWrites(b, w)
    decreases |b|
  {
    if b == [] {
      assert a + b == a;
    } else {
      assert (a + b)[..|a + b| - 1] == a + b[..|b| - 1];
      CountWritesAppend(a, b[..|b| - 1], w);
    }
  }

  /** Python's `for _ in range(n): body`, with `body` producing the block `s`:
      `n` copies of `s` one after the other, nothing at all when `n <= 0`. */
  function Repeat<T>(s: seq<T>, n: int): seq<T>
    decreases n
  {
    if n <= 0 then [] else Repeat(s, n - 1) + s
  }

  function Max0(n: int): nat
  {
    if n < 0 then 0 else n
  }

  lemma {:induction false} RepeatLength<T>(s: seq<T>, n: int)
    ensures |Repeat(s, n)| == |s| * Max0(n)
    decreases n
  {
    if n > 0 {
      RepeatLength(s, n - 1);
      assert |s| * Max0(n) == |s| * Max0(n - 1) + |s|;
    }
  }

  /** The block repeated one more time may equally be put in front. */
  lemma {:induction false} RepeatCons<T>(s: seq<T>, n: int)
    requires n > 0
    ensures Repeat(s, n) == s + Repeat(s, n - 1)
    decreases n
  {
    if n > 1 {
      RepeatCons(s, n - 1);
      calc {
        Repeat(s, n);
        Repeat(s, n - 1) + s;
        (s + Repeat(s, n - 2)) + s;
        s + (Repeat(s, n - 2) + s);
        s + Repeat(s, n - 1);
      }
    }
  }

  /** The order in which Python's `reversed(s)` yields the elements of `s`. */
  function Reversed<T>(s: seq<T>): (r: seq<T>)
    ensures |r| == |s|
    ensures forall k :: 0 <= k < |s| ==> r[k] == s[|s| - 1 - k]
  {
    if s == [] then [] else Reversed(s[1..]) + [s[0]]
  }

  lemma ReversedAppend<T>(a: seq<T>, b: seq<T>)
    ensures Reversed(a + b) == Reversed(b) + Reversed(a)
  {
    var l, r := Reversed(a + b), Reversed(b) + Reversed(a);
    assert |l| == |r|;
    forall k | 0 <= k < |l| ensures l[k] == r[k] {
      if k < |b| {
        assert r[k] == b[|b| - 1 - k];
      } else {
        assert r[k] == Reversed(a)[k - |b|];
      }
    }
  }

  /** Running `for _ in range(n): for x in reversed(s)` yields exactly the
      reverse of what `for _ in range(n): for x in s` yields. */
  lemma {:induction false} RepeatReversed<T>(s: seq<T>, n: int)
    ensures Repeat(Reversed(s), n) == Reversed(Repeat(s, n))
    decreases n
  {
    if n > 0 {
      RepeatReversed(s, n - 1);
      ReversedAppend(Repeat(s, n - 1), s);
      RepeatCons(Reversed(s), n);
    }
  }

  /** `n` pulses on `pin`, each a HIGH write followed by a LOW write. */
  function Pulses(pin: int, n: int): seq<PinWrite>
  {
    Repeat([PinWrite(pin, HIGH), PinWrite(pin, LOW)], n)
  }

  /** The shape of a pulse train: `2n` writes, all to `pin`, HIGH at even
      positions and LOW at odd ones (so the train ends LOW), and `n` HIGH
      writes in all (none when `n <= 0`). */
  lemma {:induction false} PulsesShape(pin: int, n: int)
    ensures |Pulses(pin, n)| == 2 * Max0(n)
    ensures forall k :: 0 <= k < |Pulses(pin, n)| ==>
              Pulses(pin, n)[k] == PinWrite(pin, if k % 2 == 0 then HIGH else LOW)
    ensures CountWrites(Pulses(pin, n), PinWrite(pin, HIGH)) == Max0(n)
    decreases n
  {
    if n > 0 {
      var block := [PinWrite(pin, HIGH), PinWrite(pin, LOW)];
      var prev := Pulses(pin, n - 1);
      PulsesShape(pin, n - 1);
      var w := Pulses(pin, n);
      assert w == prev + block;
      forall k | 0 <= k < |w|
        ensures w[k] == PinWrite(pin, if k % 2 == 0 then HIGH else LOW)
      {
        if k < |prev| {
          assert w[k] == prev[k];
        } else if k == |prev| {
          assert k == 2 * (n - 1);
        } else {
          assert k == 2 * (n - 1) + 1;
        }
      }
      CountWritesAppend(prev, block, PinWrite(pin, HIGH));
      assert block[..1] == [PinWrite(pin, HIGH)];
      assert CountWrites(block, PinWrite(pin, HIGH)) == 1;
    }
  }
}
