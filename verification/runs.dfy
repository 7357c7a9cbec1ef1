/**
  Runs of the firmware: sequences of loop iterations and received bytes,
  how runs compose, and the invariants every reachable state keeps.
*/
module Runs {
  import opened Interpreter

  /** `n` loop iterations with no byte arriving. */
  function Ticks(n: nat): (evs: seq<Event>)
    ensures |evs| == n
    ensures forall i :: 0 <= i < n ==> evs[i] == Tick
  {
    if n == 0 then [] else [Tick] + Ticks(n - 1)
  }

  /** A key press: the key's byte arrives and is acted on, then a byte that is no command (0) arrives and is acted on. */
  function Press(k: bv8): seq<Event> {
    [Rx(k, false), Tick, Rx(0, false), Tick]
  }

  /** n presses of the same key, one after the other. */
  function Presses(k: bv8, n: nat): seq<Event> {
    if n == 0 then [] else Presses(k, n - 1) + Press(k)
  }

  /** n copies of s, one after the other. */
  function Repeat<T>(s: seq<T>, n: nat): seq<T> {
    if n == 0 then [] else s + Repeat(s, n - 1)
  }

  lemma {:induction false} RepeatCommutes<T>(s: seq<T>, n: nat)
    ensures Repeat(s, n) + s == s + Repeat(s, n)
  {
    if n > 0 {
      RepeatCommutes(s, n - 1);
    }
  }

  // ---------------------------------------------------------------------
  // Runs compose

  lemma ExecOne(s: State, e: Event)
    ensures Exec(s, [e]) == Apply(s, e)
  {
    assert [e][1..] == [];
  }

  lemma {:induction false} ExecAppendState(s: State, a: seq<Event>, b: seq<Event>)
    ensures Exec(s, a + b).state == Exec(Exec(s, a).state, b).state
    decreases |a|
  {
    if a == [] {
      assert a + b == b;
    } else {
      assert (a + b)[1..] == a[1..] + b;
      ExecAppendState(Apply(s, a[0]).state, a[1..], b);
    }
  }

  lemma {:induction false} ExecAppendOutput(s: State, a: seq<Event>, b: seq<Event>)
    ensures Exec(s, a + b).output == Exec(s, a).output + Exec(Exec(s, a).state, b).output
    decreases |a|
  {
    if a == [] {
      assert a + b == b;
    } else {
      assert (a + b)[1..] == a[1..] + b;
      var first := Apply(s, a[0]);
      ExecAppendOutput(first.state, a[1..], b);
      ExecAppendState(first.state, a[1..], b);
      var mid := Exec(first.state, a[1..]);
      var x, y, z := first.output, mid.output, Exec(mid.state, b).output;
      assert x + (y + z) == (x + y) + z;
    }
  }

  // ---------------------------------------------------------------------
  // Bytes that are not commands, the counter reset and the receive interrupt

  /**
    After every iteration a counter is zero unless its key is latched in
    dado; TMR0 stays in step with duty; a command byte stays latched and
    any other byte is cleared to 0.
  */
  lemma StepSettles(s: State)
    ensures Settled(Next(s).state)
    ensures Coherent(s) ==> Coherent(Next(s).state)
    ensures Next(s).state.dado == if IsCommand(s.dado) then s.dado else 0
  {
    if s.dado == P {
    } else if s.dado == L {
    } else {
    }
  }

  /** Any other byte is cleared to 0; the port, duty and TMR0 stay, nothing is sent, both counters end at 0. */
  lemma UnknownByte(s: State)
    requires !IsCommand(s.dado)
    ensures Next(s) == Iteration(s.(dado := 0, cnt1 := 0, cnt2 := 0), [])
  {
  }

  /**
    Every reachable state keeps TMR0 in step with duty and both counters
    non-negative, and after any run that ends with a loop iteration a
    counter is zero unless its key is latched in dado.
  */
  lemma {:induction false} RunInvariant(s: State, evs: seq<Event>)
    requires Coherent(s)
    ensures Coherent(Exec(s, evs).state)
    ensures evs != [] && evs[|evs| - 1] == Tick ==> Settled(Exec(s, evs).state)
    decreases |evs|
  {
    if evs != [] {
      StepSettles(s);
      RunInvariant(Apply(s, evs[0]).state, evs[1..]);
      if |evs| == 1 && evs[0] == Tick {
        assert Exec(s, evs).state == Next(s).state;
      }
    }
  }

  lemma BootInvariant(evs: seq<Event>)
    ensures Exec(Boot(), evs).state.tmr0 == Reload(Exec(Boot(), evs).state.duty)
    ensures evs != [] && evs[|evs| - 1] == Tick ==> Settled(Exec(Boot(), evs).state)
  {
    RunInvariant(Boot(), evs);
  }

  /** The receive interrupt overwrites dado even when a framing or overrun error was flagged. */
  lemma FaultyByteStillLatched(s: State, b: bv8)
    ensures Deliver(s, b, true) == Deliver(s, b, false)
    ensures Deliver(s, b, true).dado == b
  {
  }
}
