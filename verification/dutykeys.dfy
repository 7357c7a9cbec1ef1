/**
  The duty keys P and L: edge triggering through cnt1 and cnt2, the clamps
  of duty, the TMR0 reload and the status lines.
*/
module DutyKeys {
  import opened Decimal
  import opened Interpreter
  import opened Runs

  function Min(a: int, b: int): int {
    if a <= b then a else b
  }
  predicate IsDutyKey(k: bv8) {
    k == P || k == L
  }

  /** The edge counter of a duty key: cnt1 for P, cnt2 for L. */
  function Counter(s: State, k: bv8): int
    requires IsDutyKey(k)
  {
    if k == P then s.cnt1 else s.cnt2
  }

  /** The duty a key sets when it fires. */
  function Adjust(k: bv8, duty: Word): Word
    requires IsDutyKey(k)
  {
    if k == P then DutyUp(duty) else DutyDown(duty)
  }

  /**
    A duty key fires (changes duty and TMR0 and sends one status line) if
    and only if its counter is zero; its counter always goes up by one,
    the other counter is zeroed, and dado and PORTB are left alone.
  */
  lemma DutyKeyStep(s: State)
    requires IsDutyKey(s.dado)
    ensures Next(s).output != [] <==> Counter(s, s.dado) == 0
    ensures Counter(s, s.dado) == 0 ==>
      Next(s).state.duty == Adjust(s.dado, s.duty) &&
      Next(s).state.tmr0 == Reload(Adjust(s.dado, s.duty)) &&
      Next(s).output == [DutyCycle(Percent(Adjust(s.dado, s.duty)))]
    ensures Counter(s, s.dado) != 0 ==>
      Next(s).state.duty == s.duty && Next(s).state.tmr0 == s.tmr0
    ensures Counter(Next(s).state, s.dado) == Counter(s, s.dado) + 1
    ensures Counter(Next(s).state, if s.dado == P then L else P) == 0
    ensures Next(s).state.dado == s.dado && Next(s).state.portb == s.portb
  {
    if s.dado == P {
    } else {
    }
  }

  /**
    Holding a duty key while its counter is non-zero changes nothing but
    the counter and sends nothing.
  */
  lemma {:induction false} HeldDutyKeyQuiet(s: State, n: nat)
    requires IsDutyKey(s.dado) && Settled(s) && Counter(s, s.dado) > 0
    ensures Exec(s, Ticks(n)).state == if s.dado == P then s.(cnt1 := s.cnt1 + n) else s.(cnt2 := s.cnt2 + n)
    ensures Exec(s, Ticks(n)).output == []
    decreases n
  {
    if n > 0 {
      DutyKeyStep(s);
      HeldDutyKeyQuiet(Next(s).state, n - 1);
    }
  }

  /**
    A held duty key fires exactly once: however many iterations run while
    dado stays P (or L), duty changes once and one status line is sent.
  */
  lemma HeldDutyKeyFiresOnce(s: State, n: nat)
    requires IsDutyKey(s.dado) && Counter(s, s.dado) == 0 && n >= 1
    ensures Exec(s, Ticks(n)).state.duty == Adjust(s.dado, s.duty)
    ensures Exec(s, Ticks(n)).state.tmr0 == Reload(Adjust(s.dado, s.duty))
    ensures Counter(Exec(s, Ticks(n)).state, s.dado) == n
    ensures Exec(s, Ticks(n)).output == [DutyCycle(Percent(Adjust(s.dado, s.duty)))]
  {
    DutyKeyStep(s);
    HeldDutyKeyQuiet(Next(s).state, n - 1);
  }

  /**
    The same key byte arriving again while it is still latched is invisible:
    `P P` with a loop iteration after each byte fires once.
  */
  lemma RepeatedByteFiresOnce(s: State, k: bv8)
    requires IsDutyKey(k) && Counter(s, k) == 0
    ensures Exec(s, [Rx(k, false), Tick, Rx(k, false), Tick]).state.duty == Adjust(k, s.duty)
    ensures Exec(s, [Rx(k, false), Tick, Rx(k, false), Tick]).output == [DutyCycle(Percent(Adjust(k, s.duty)))]
  {
    var evs := [Rx(k, false), Tick, Rx(k, false), Tick];
    var s1 := Deliver(s, k, false);
    DutyKeyStep(s1);
    var s2 := Next(s1).state;
    assert Deliver(s2, k, false) == s2;
    DutyKeyStep(s2);
    var s3 := Next(s2).state;
    assert Exec(s3, evs[4..]) == Iteration(s3, []);
    assert evs[3..] == [Tick];
    assert Exec(s2, evs[3..]) == Iteration(s3, []);
    assert evs[2..] == [Rx(k, false)] + evs[3..];
    assert Exec(s2, evs[2..]) == Iteration(s3, []);
    assert evs[1..] == [Tick] + evs[2..];
    assert Exec(s1, evs[1..]) == Iteration(s3, [DutyCycle(Percent(Adjust(k, s.duty)))]);
  }

  /** A full press (the key, then a non-command byte) fires once and leaves both counters at zero. */
  lemma PressStep(s: State, k: bv8)
    requires IsDutyKey(k) && Counter(s, k) == 0
    ensures Exec(s, Press(k)).state ==
      s.(dado := 0, duty := Adjust(k, s.duty), tmr0 := Reload(Adjust(k, s.duty)), cnt1 := 0, cnt2 := 0)
    ensures Exec(s, Press(k)).output == [DutyCycle(Percent(Adjust(k, s.duty)))]
  {
    DutyKeyStep(Deliver(s, k, false));
  }

  /** Status lines of n increases starting from duty d. */
  function UpLines(d: Word, n: nat): seq<Message>
    requires d <= 10
  {
    if n == 0 then [] else UpLines(d, n - 1) + [DutyCycle(10 * Min(d + n, 10))]
  }

  /** Status lines of n decreases starting from duty d. */
  function DownLines(d: Word, n: nat): seq<Message>
    requires n <= d
  {
    if n == 0 then [] else DownLines(d, n - 1) + [DutyCycle(Percent(d - n))]
  }

  /** n separate presses of P from duty d <= 10 leave duty at min(d + n, 10), one line per press. */
  lemma {:induction false} PressesUp(s: State, n: nat)
    requires s.cnt1 == 0 && s.duty <= 10
    ensures Exec(s, Presses(P, n)).state.duty == Min(s.duty + n, 10)
    ensures Exec(s, Presses(P, n)).state.tmr0 == Reload(Min(s.duty + n, 10)) || n == 0
    ensures Exec(s, Presses(P, n)).state.cnt1 == 0
    ensures Exec(s, Presses(P, n)).output == UpLines(s.duty, n)
  {
    if n > 0 {
      PressesUp(s, n - 1);
      var t := Exec(s, Presses(P, n - 1)).state;
      var d: Word := Min(s.duty + n, 10);
      assert t.duty == Min(s.duty + n - 1, 10) && t.cnt1 == 0;
      assert Adjust(P, t.duty) == d;
      PressStep(t, P);
      assert Presses(P, n) == Presses(P, n - 1) + Press(P);
      ExecAppendState(s, Presses(P, n - 1), Press(P));
      ExecAppendOutput(s, Presses(P, n - 1), Press(P));
    }
  }

  /** n separate presses of L from duty d >= n leave duty at d - n, one line per press. */
  lemma {:induction false} PressesDown(s: State, n: nat)
    requires s.cnt2 == 0 && n <= s.duty
    ensures Exec(s, Presses(L, n)).state.duty == s.duty - n
    ensures Exec(s, Presses(L, n)).state.tmr0 == Reload(s.duty - n) || n == 0
    ensures Exec(s, Presses(L, n)).state.cnt2 == 0
    ensures Exec(s, Presses(L, n)).output == DownLines(s.duty, n)
  {
    if n > 0 {
      PressesDown(s, n - 1);
      var t := Exec(s, Presses(L, n - 1)).state;
      var d: Word := s.duty - n;
      assert t.duty == d + 1 && t.cnt2 == 0;
      assert Adjust(L, t.duty) == d;
      PressStep(t, L);
      assert Presses(L, n) == Presses(L, n - 1) + Press(L);
      ExecAppendState(s, Presses(L, n - 1), Press(L));
      ExecAppendOutput(s, Presses(L, n - 1), Press(L));
      assert Exec(s, Presses(L, n)).output == DownLines(s.duty, n - 1) + [DutyCycle(Percent(d))];
    }
  }

  /** For duty 0..10 the status line carries duty * 10 in plain decimal. */
  lemma DutyLineText(d: Word)
    requires d <= 10
    ensures Text(DutyCycle(Percent(d))) == Line("Duty Cycle: " + NatToDecimal(10 * d) + "%")
  {
  }

  /** The firmware boots at full duty, so presses of P only repeat the 100% line. */
  lemma BootPressesUp(n: nat)
    ensures Exec(Boot(), Presses(P, n)).state.duty == 10
    ensures Exec(Boot(), Presses(P, n)).output == Repeat([DutyCycle(100)], n)
  {
    PressesUp(Boot(), n);
    UpLinesSaturated(n);
  }

  lemma {:induction false} UpLinesSaturated(n: nat)
    ensures UpLines(10, n) == Repeat([DutyCycle(100)], n)
  {
    if n > 0 {
      UpLinesSaturated(n - 1);
      RepeatCommutes([DutyCycle(100)], n - 1);
    }
  }

  /** The line sent at full duty. */
  lemma FullDutyText()
    ensures Text(DutyCycle(Percent(10))) == "Duty Cycle: 100%\n\r"
  {
    assert NatToDecimal(100) == NatToDecimal(10) + ['0'];
    assert NatToDecimal(10) == NatToDecimal(1) + ['0'];
  }

  /** The line sent when duty has wrapped to 0xFFFF: 0xFFFF * 10 is 0xFFF6 in 16 bits, -10 as a signed int. */
  lemma WrappedDutyText()
    ensures Percent(0xFFFF) == -10
    ensures Text(DutyCycle(-10)) == "Duty Cycle: -10%\n\r"
  {
    assert U16(0xFFFF * 10) == 0xFFF6;
    assert NatToDecimal(10) == NatToDecimal(1) + ['0'];
    assert IntToDecimal(-10) == "-10";
  }

  /**
    The lower clamp `if (duty <= 0)` cannot catch the unsigned wrap: L from
    duty 0 yields 0xFFFF, TMR0 15, and the status line reports -10%
    (0xFFFF * 10 truncated to 16 bits and read as a signed int).
  */
  lemma DownFromZeroWraps(s: State)
    requires s.cnt2 == 0 && s.duty == 0
    ensures Exec(s, Press(L)).state.duty == 0xFFFF
    ensures Exec(s, Press(L)).state.tmr0 == 15
    ensures Exec(s, Press(L)).output == [DutyCycle(-10)]
  {
    PressStep(s, L);
    WrappedDutyText();
  }

  /**
    Once wrapped, a press of P does not restore full duty: 0xFFFF + 1 is 0
    in 16 bits, which the `>= 10` clamp leaves alone, so duty becomes 0,
    TMR0 0, and the line reports 0%.
  */
  lemma UpFromWrap(s: State)
    requires s.cnt1 == 0 && s.duty == 0xFFFF
    ensures Exec(s, Press(P)).state.duty == 0
    ensures Exec(s, Press(P)).state.tmr0 == 0
    ensures Exec(s, Press(P)).output == [DutyCycle(0)]
  {
    PressStep(s, P);
  }

  /** Eleven presses of L after boot leave duty at 0xFFFF, outside the intended 0..10. */
  lemma BootElevenDownWraps()
    ensures Exec(Boot(), Presses(L, 10)).state.duty == 0
    ensures Exec(Boot(), Presses(L, 11)).state.duty == 0xFFFF
  {
    PressesDown(Boot(), 10);
    var t := Exec(Boot(), Presses(L, 10)).state;
    ExecAppendState(Boot(), Presses(L, 10), Press(L));
    DownFromZeroWraps(t);
  }

  /**
    duty <= 10 survives every event except one: L firing at duty 0.
    (P itself always leaves duty <= 10, even from a wrapped value.)
  */
  lemma DutyBound(s: State, e: Event)
    requires s.duty <= 10
    ensures Apply(s, e).state.duty <= 10 <==> !(e == Tick && s.dado == L && s.cnt2 == 0 && s.duty == 0)
  {
    if e == Tick {
      if s.dado == P {
      } else if s.dado == L {
      } else {
      }
    }
  }
}
