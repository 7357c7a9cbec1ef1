/**
  The movement keys F, A, D and E: what one iteration does to PORTB and
  what holding a key (leaving it latched in dado) does over many.
*/
module Movement {
  import opened Interpreter
  import opened Runs

  predicate IsMovement(b: bv8) {
    b == F || b == A || b == D || b == E
  }

  /** The new PORTB for a movement key. */
  function Move(b: bv8, p: bv8): bv8
    requires IsMovement(b)
  {
    if b == F then Forward(p) else if b == A then Backward(p)
    else if b == D then ToggleLow(p) else ToggleHigh(p)
  }

  /** The status line a movement key transmits. */
  function Status(b: bv8): Message
    requires IsMovement(b)
  {
    if b == F then Frente else if b == A then Atras
    else if b == D then PiscandoMenos else PiscandoMais
  }

  function MoveN(b: bv8, p: bv8, n: nat): bv8
    requires IsMovement(b)
  {
    if n == 0 then p else Move(b, MoveN(b, p, n - 1))
  }

  /**
    A movement key changes only PORTB, zeroes both counters, stays latched
    in dado and sends its status line.
  */
  lemma MovementStep(s: State)
    requires IsMovement(s.dado)
    ensures Next(s).state == s.(portb := Move(s.dado, s.portb), cnt1 := 0, cnt2 := 0)
    ensures Next(s).output == [Status(s.dado)]
  {
  }

  /**
    Movement keys never clear dado, so the same key acts again on every
    iteration until another byte arrives: n iterations apply it n times
    and send its status line n times.
  */
  lemma {:induction false} HeldMovement(s: State, n: nat)
    requires IsMovement(s.dado) && Settled(s)
    ensures Exec(s, Ticks(n)).state == s.(portb := MoveN(s.dado, s.portb, n))
    ensures Exec(s, Ticks(n)).output == Repeat([Status(s.dado)], n)
    decreases n
  {
    if n > 0 {
      var t := Next(s).state;
      MovementStep(s);
      HeldMovement(t, n - 1);
      MoveNFirst(s.dado, s.portb, n);
    }
  }

  lemma {:induction false} MoveNFirst(b: bv8, p: bv8, n: nat)
    requires IsMovement(b) && n > 0
    ensures MoveN(b, Move(b, p), n - 1) == MoveN(b, p, n)
    decreases n
  {
    if n > 1 {
      MoveNFirst(b, p, n - 1);
    }
  }

  /** With F held, a single lit LED walks up the port and wraps from RB7 to RB0. */
  lemma ForwardWalk(k: nat)
    requires k < 8
    ensures MoveN(F, 1, k) == 1 << k
    ensures MoveN(F, 1, 8) == 1
  {
    assert MoveN(F, 1, 1) == 2;
    assert MoveN(F, 1, 2) == 4;
    assert MoveN(F, 1, 3) == 8;
    assert MoveN(F, 1, 4) == 16;
    assert MoveN(F, 1, 5) == 32;
    assert MoveN(F, 1, 6) == 64;
    assert MoveN(F, 1, 7) == 128;
  }

  /**
    With A held from the boot pattern the lit LED moves down, then the port
    goes dark for one iteration (A from 1 gives 0) before A restarts at RB7:
    the cycle has nine patterns, not eight.
  */
  lemma BackwardWalk()
    ensures MoveN(A, 1, 1) == 0
    ensures MoveN(A, 1, 2) == 128
    ensures MoveN(A, 1, 9) == 1
  {
    assert MoveN(A, 1, 3) == 64;
    assert MoveN(A, 1, 4) == 32;
    assert MoveN(A, 1, 5) == 16;
    assert MoveN(A, 1, 6) == 8;
    assert MoveN(A, 1, 7) == 4;
    assert MoveN(A, 1, 8) == 2;
  }

  /** D complements RB0..RB3 and leaves RB4..RB7. */
  lemma ToggleLowBits(p: bv8)
    ensures forall k :: 0 <= k < 4 ==> Bit(ToggleLow(p), k) != Bit(p, k)
    ensures forall k :: 4 <= k < 8 ==> Bit(ToggleLow(p), k) == Bit(p, k)
  {
  }

  /** E complements RB4..RB7 and leaves RB0..RB3. */
  lemma ToggleHighBits(p: bv8)
    ensures forall k :: 0 <= k < 4 ==> Bit(ToggleHigh(p), k) == Bit(p, k)
    ensures forall k :: 4 <= k < 8 ==> Bit(ToggleHigh(p), k) != Bit(p, k)
  {
  }

  /** D done twice restores the port. */
  lemma ToggleLowInvolution(p: bv8)
    ensures ToggleLow(ToggleLow(p)) == p
  {
  }

  /** E done twice restores the port. */
  lemma ToggleHighInvolution(p: bv8)
    ensures ToggleHigh(ToggleHigh(p)) == p
  {
  }

  /** Holding D or E blinks its nibble: the port alternates between two patterns. */
  lemma {:induction false} HeldToggleBlinks(b: bv8, p: bv8, n: nat)
    requires b == D || b == E
    ensures MoveN(b, p, n) == if n % 2 == 0 then p else Move(b, p)
  {
    if n > 0 {
      HeldToggleBlinks(b, p, n - 1);
      ToggleLowInvolution(p);
      ToggleHighInvolution(p);
    }
  }
}
