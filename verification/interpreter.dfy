/**
  The command interpreter of the LED firmware as values: the globals that
  main's loop reads and writes (the received byte `dado`, the LED port
  PORTB, the PWM `duty`, the two edge counters and the TMR0 reload), one
  iteration of the `while (1)` loop as a function from state to state plus
  the characters it transmits, and the receive interrupt.

  Widths follow the PIC C compiler: `unsigned char` and the port registers
  are 8 bits, `unsigned int` is 16 bits and wraps modulo 2^16.
*/
module Interpreter {
  import opened Decimal

  // The command keys (ASCII codes)
  const F: bv8 := 70  // 'F' forward: light the next LED
  const A: bv8 := 65  // 'A' backward: light the previous LED
  const D: bv8 := 68  // 'D' invert the four low LEDs
  const E: bv8 := 69  // 'E' invert the four high LEDs
  const P: bv8 := 80  // 'P' raise the PWM duty
  const L: bv8 := 76  // 'L' lower the PWM duty

  /** (0.0001 * 20000000) / (32 * 4) = 15.625, truncated when stored in an unsigned int. */
  const Valor: nat := 15

  /** Initial value of `duty`; its comment reads "10%" but the unit is tenths, so this is 100%. */
  const InitialDuty: nat := 10

  /** The value of a 16-bit `unsigned int`. */
  type Word = x: int | 0 <= x < 0x1_0000

  /** The value of an 8-bit register. */
  type Reg8 = x: int | 0 <= x < 0x100

  /** Truncation of a result to 16-bit unsigned arithmetic. */
  function U16(x: int): (r: Word)
    ensures 0 <= x < 0x1_0000 ==> r == x
    ensures -0x1_0000 <= x < 0 ==> r == x + 0x1_0000
  {
    x % 0x1_0000
  }

  /** Reading a 16-bit pattern as a signed `int` (two's complement). */
  function S16(x: Word): (r: int)
    ensures -0x8000 <= r < 0x8000
    ensures U16(r) == x
  {
    if x < 0x8000 then x else x - 0x1_0000
  }

  predicate IsCommand(b: bv8) {
    b == F || b == A || b == D || b == E || b == P || b == L
  }

  /** The loop's globals. */
  datatype State = State(dado: bv8, portb: bv8, duty: Word, cnt1: int, cnt2: int, tmr0: Reg8)

  /**
    The status lines the loop transmits. DutyCycle carries the int handed
    to IntToStr; Text gives the characters of each line.
  */
  datatype Message = Frente | Atras | PiscandoMenos | PiscandoMais | DutyCycle(percent: int)

  /** The state after one loop iteration and the status lines it transmitted. */
  datatype Iteration = Iteration(state: State, output: seq<Message>)

  /**
    `TMR0 = 256 - (duty * valor)`: the product and the difference are
    unsigned 16-bit, and the store keeps the low 8 bits of the result.
  */
  function Reload(duty: Word): (r: Reg8)
    ensures 1 <= duty <= 10 ==> r == 256 - duty * Valor
    ensures duty == 0 ==> r == 0
  {
    U16(256 - U16(duty * Valor)) % 0x100
  }

  /** Case 'F': from the top LED wrap to the bottom one, otherwise shift left. */
  function Forward(p: bv8): (r: bv8)
    ensures p >= 128 ==> r == 1
    ensures p < 128 ==> r as int == 2 * p as int
  {
    if p >= 128 then 1 else p << 1
  }

  /** Case 'A': from all-dark jump to the top LED, otherwise shift right. */
  function Backward(p: bv8): (r: bv8)
    ensures p == 0 ==> r == 128
    ensures p != 0 ==> r as int == p as int / 2
  {
    if p == 0 then 128 else p >> 1
  }

  /** The port bit of pin RBk. */
  function Mask(k: nat): bv8
    requires k < 8
  {
    if k == 0 then 0x01 else if k == 1 then 0x02 else if k == 2 then 0x04 else if k == 3 then 0x08
    else if k == 4 then 0x10 else if k == 5 then 0x20 else if k == 6 then 0x40 else 0x80
  }

  /** Pin RBk of a port value is high. */
  predicate Bit(p: bv8, k: nat)
    requires k < 8
  {
    p & Mask(k) != 0
  }

  /** `PORTB.RBk = ~PORTB.RBk`: complement pin k. */
  function InvertBit(p: bv8, k: nat): (r: bv8)
    requires k < 8
    ensures Bit(r, k) != Bit(p, k)
    ensures forall j :: 0 <= j < 8 && j != k ==> Bit(r, j) == Bit(p, j)
  {
    p ^ Mask(k)
  }

  /** Case 'D': RB0..RB3 are complemented one after the other. */
  function ToggleLow(p: bv8): (r: bv8)
    ensures r == p ^ 0x0F
  {
    InvertBit(InvertBit(InvertBit(InvertBit(p, 0), 1), 2), 3)
  }

  /** Case 'E': RB4..RB7 are complemented one after the other. */
  function ToggleHigh(p: bv8): (r: bv8)
    ensures r == p ^ 0xF0
  {
    InvertBit(InvertBit(InvertBit(InvertBit(p, 4), 5), 6), 7)
  }

  /** Case 'P' when it fires: `duty += 1; if (duty >= 10) duty = 10;` in 16-bit unsigned arithmetic. */
  function DutyUp(duty: Word): (r: Word)
    ensures r <= 10
    ensures duty < 10 ==> r == duty + 1
    ensures 10 <= duty < 0xFFFF ==> r == 10
    ensures duty == 0xFFFF ==> r == 0
  {
    var x := U16(duty + 1);
    if x >= 10 then 10 else x
  }

  /**
    Case 'L' when it fires: `duty -= 1; if (duty <= 0) duty = 0;`. For an
    unsigned `duty` the guard holds only when the result is already 0, so
    the decrement from 0 wraps to 0xFFFF instead of being clamped.
  */
  function DutyDown(duty: Word): (r: Word)
    ensures duty >= 1 ==> r == duty - 1
    ensures duty == 0 ==> r == 0xFFFF
  {
    var x := U16(duty - 1);
    if x <= 0 then 0 else x
  }

  /** The argument of `IntToStr(duty * 10, ...)`: the unsigned product read as a signed int. */
  function Percent(duty: Word): (r: int)
    ensures duty <= 10 ==> r == 10 * duty
  {
    S16(U16(duty * 10))
  }

  /** A line on the wire: the text, then line feed (10) and carriage return (13). */
  function Line(msg: string): string {
    msg + "\n\r"
  }

  /** The banner sent once before the loop starts. */
  const Banner: string := "Pressionar as teclas F, A, D, E, P ou L"

  // The texts of the status lines
  const FrenteLabel: string := "FRENTE"
  const AtrasLabel: string := "ATRAS"
  const MenosLabel: string := "PISCANDO MENOS SIGNIFICATIVO"
  const MaisLabel: string := "PISCANDO MAIS SIGNIFICATIVO"
  const DutyLabel: string := "Duty Cycle: "
  const PercentSign: string := "%"

  /** The characters of one status line. */
  function Text(m: Message): string {
    match m
    case Frente => Line(FrenteLabel)
    case Atras => Line(AtrasLabel)
    case PiscandoMenos => Line(MenosLabel)
    case PiscandoMais => Line(MaisLabel)
    case DutyCycle(percent) => Line(DutyLabel + IntToDecimal(percent) + PercentSign)
  }

  /** The characters of a sequence of status lines, in order. */
  function Render(ms: seq<Message>): string
    decreases |ms|
  {
    if ms == [] then [] else Render(ms[..|ms| - 1]) + Text(ms[|ms| - 1])
  }

  /** Every status line is a non-empty text followed by line feed and carriage return. */
  lemma TextEndsLine(m: Message)
    ensures |Text(m)| > 2
    ensures Text(m)[|Text(m)| - 2] == '\n' && Text(m)[|Text(m)| - 1] == '\r'
  {
    match m
    case DutyCycle(percent) =>
      var t := DutyLabel + IntToDecimal(percent) + PercentSign;
      assert Text(m) == t + "\n\r";
    case _ =>
  }

  /** Lines are sent exactly when there are status lines, and the text then ends with LF CR. */
  lemma {:induction false} RenderLines(ms: seq<Message>)
    ensures Render(ms) == [] <==> ms == []
    ensures ms != [] ==> |Render(ms)| > 2 && Render(ms)[|Render(ms)| - 2] == '\n' && Render(ms)[|Render(ms)| - 1] == '\r'
  {
    if ms != [] {
      TextEndsLine(ms[|ms| - 1]);
    }
  }

  /** The globals once main has configured the hardware and entered the loop. */
  function Boot(): (s: State)
    ensures s.portb == 1 && s.duty == 10 && s.tmr0 == 106
    ensures s.dado == 0 && s.cnt1 == 0 && s.cnt2 == 0
  {
    State(0, 1, InitialDuty, 0, 0, Reload(InitialDuty))
  }

  /** TMR0 agrees with duty and the counters never went negative. */
  predicate Coherent(s: State) {
    s.tmr0 == Reload(s.duty) && s.cnt1 >= 0 && s.cnt2 >= 0
  }

  /** What the post-switch reset guarantees: a counter is zero unless its key is latched. */
  predicate Settled(s: State) {
    (s.dado != P ==> s.cnt1 == 0) && (s.dado != L ==> s.cnt2 == 0)
  }

  /** The `switch (dado)` of one iteration. */
  function Dispatch(s: State): (r: Iteration)
    ensures |r.output| <= 1
    ensures r.output != [] <==>
      IsCommand(s.dado) && (s.dado == P ==> s.cnt1 == 0) && (s.dado == L ==> s.cnt2 == 0)
    ensures s.dado != P && s.dado != L ==> r.state.duty == s.duty && r.state.tmr0 == s.tmr0
    ensures !(s.dado == F || s.dado == A || s.dado == D || s.dado == E) ==> r.state.portb == s.portb
  {
    if s.dado == F then
      Iteration(s.(cnt1 := 0, cnt2 := 0, portb := Forward(s.portb)), [Frente])
    else if s.dado == A then
      Iteration(s.(cnt1 := 0, cnt2 := 0, portb := Backward(s.portb)), [Atras])
    else if s.dado == D then
      Iteration(s.(cnt1 := 0, cnt2 := 0, portb := ToggleLow(s.portb)), [PiscandoMenos])
    else if s.dado == E then
      Iteration(s.(cnt1 := 0, cnt2 := 0, portb := ToggleHigh(s.portb)), [PiscandoMais])
    else if s.dado == P then
      if s.cnt1 == 0 then
        var d := DutyUp(s.duty);
        Iteration(s.(duty := d, tmr0 := Reload(d), cnt1 := s.cnt1 + 1), [DutyCycle(Percent(d))])
      else
        Iteration(s.(cnt1 := s.cnt1 + 1), [])
    else if s.dado == L then
      if s.cnt2 == 0 then
        var d := DutyDown(s.duty);
        Iteration(s.(duty := d, tmr0 := Reload(d), cnt2 := s.cnt2 + 1), [DutyCycle(Percent(d))])
      else
        Iteration(s.(cnt2 := s.cnt2 + 1), [])
    else
      Iteration(s.(dado := 0), [])
  }

  /** `if (dado != P) cnt1 = 0; if (dado != L) cnt2 = 0;` after the switch. */
  function ResetCounters(s: State): (r: State)
    ensures Settled(r)
    ensures s.dado == P ==> r.cnt1 == s.cnt1
    ensures s.dado == L ==> r.cnt2 == s.cnt2
    ensures r.dado == s.dado && r.portb == s.portb && r.duty == s.duty && r.tmr0 == s.tmr0
  {
    s.(cnt1 := if s.dado != P then 0 else s.cnt1,
       cnt2 := if s.dado != L then 0 else s.cnt2)
  }

  /** One iteration of main's `while (1)` loop. */
  function Next(s: State): (r: Iteration)
    ensures Settled(r.state)
    ensures |r.output| <= 1
  {
    var it := Dispatch(s);
    Iteration(ResetCounters(it.state), it.output)
  }

  /** The receive interrupt: RCREG is stored in dado whether or not FERR/OERR was set. */
  function Deliver(s: State, rcreg: bv8, fault: bool): (r: State)
    ensures r.dado == rcreg
    ensures r.portb == s.portb && r.duty == s.duty && r.tmr0 == s.tmr0
    ensures r.cnt1 == s.cnt1 && r.cnt2 == s.cnt2
  {
    s.(dado := rcreg)
  }

  /** What can happen between two moments: a loop iteration, or a byte arriving. */
  datatype Event = Tick | Rx(b: bv8, fault: bool)

  function Apply(s: State, e: Event): (r: Iteration)
    ensures e.Rx? ==> r.output == [] && r.state.dado == e.b
    ensures e == Tick ==> Settled(r.state) && |r.output| <= 1
  {
    match e
    case Tick => Next(s)
    case Rx(b, fault) => Iteration(Deliver(s, b, fault), [])
  }

  /** A run: the events applied in order, with the status lines sent meanwhile. */
  function Exec(s: State, evs: seq<Event>): (r: Iteration)
    ensures |r.output| <= |evs|
    ensures evs == [] ==> r.state == s
    decreases |evs|
  {
    if evs == [] then Iteration(s, [])
    else
      var first := Apply(s, evs[0]);
      var rest := Exec(first.state, evs[1..]);
      Iteration(rest.state, first.output + rest.output)
  }
}
