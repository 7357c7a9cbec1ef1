/**
  The firmware as it runs: the globals of index.c as the fields of one
  object, the serial transmitter as a trace of the characters written to
  TXREG, the receive interrupt and one pass of main's `while (1)` loop as
  methods that update the fields in place. Each method is tied to the
  functions of the Interpreter module, where its properties are proved.
*/
module Firmware {
  import opened Decimal
  import opened Interpreter
  import Runs

  /** The characters TX_STRING_USART sends from s: everything before the first NUL. */
  function UntilNul(s: string): (r: string)
    ensures |r| <= |s| && r == s[..|r|]
    ensures forall j :: 0 <= j < |r| ==> r[j] != '\0'
    decreases |s|
  {
    if s == [] || s[0] == '\0' then [] else [s[0]] + UntilNul(s[1..])
  }

  /** When s[..i] holds no NUL and s ends or has a NUL at i, the string sent is exactly s[..i]. */
  lemma {:induction false} UntilNulAt(s: string, i: nat)
    requires i <= |s|
    requires forall j :: 0 <= j < i ==> s[j] != '\0'
    requires i == |s| || s[i] == '\0'
    ensures UntilNul(s) == s[..i]
    decreases i
  {
    if i > 0 {
      UntilNulAt(s[1..], i - 1);
      assert s[..i] == [s[0]] + s[1..][..i - 1];
    }
  }

  /** A string without NUL is sent whole. */
  lemma UntilNulWhole(s: string)
    requires forall j :: 0 <= j < |s| ==> s[j] != '\0'
    ensures UntilNul(s) == s
  {
    UntilNulAt(s, |s|);
  }

  /** The text IntToDecimal produces holds no NUL, so TX_STRING_USART sends all of it. */
  lemma DecimalSentWhole(n: int)
    ensures UntilNul(IntToDecimal(n)) == IntToDecimal(n)
  {
    var r := IntToDecimal(n);
    forall j | 0 <= j < |r| ensures r[j] != '\0' {
      if j > 0 && n < 0 {
        assert r[j] == r[1..][j - 1];
      }
    }
    UntilNulWhole(r);
  }

  /** The three pieces of the duty line hold no NUL, so TX_STRING_USART sends each whole. */
  lemma DutyPartsSentWhole(percent: int)
    ensures UntilNul(DutyLabel) == DutyLabel
    ensures UntilNul(IntToDecimal(percent)) == IntToDecimal(percent)
    ensures UntilNul(PercentSign) == PercentSign
  {
    DutyLabelSentWhole();
    DecimalSentWhole(percent);
    UntilNulWhole(PercentSign);
  }

  lemma DutyLabelSentWhole()
    ensures UntilNul(DutyLabel) == DutyLabel
  {
    UntilNulWhole(DutyLabel);
  }

  lemma LineAppend(before: string, a: string, b: string, c: string)
    ensures before + a + b + c + "\n\r" == before + Line(a + b + c)
  {
  }

  /** The characters of two batches of status lines are those of the first, then those of the second. */
  lemma {:induction false} RenderAppend(a: seq<Message>, b: seq<Message>)
    ensures Render(a + b) == Render(a) + Render(b)
    decreases |b|
  {
    if b == [] {
      assert a + b == a;
    } else {
      var init := b[..|b| - 1];
      assert (a + b)[..|a + b| - 1] == a + init;
      RenderAppend(a, init);
    }
  }

  /** Extending a run by one event: the state is that event applied, and its lines follow the run's. */
  lemma ExecSnoc(s: State, evs: seq<Event>, i: nat)
    requires i < |evs|
    ensures Exec(s, evs[..i + 1]).state == Apply(Exec(s, evs[..i]).state, evs[i]).state
    ensures Render(Exec(s, evs[..i + 1]).output) ==
      Render(Exec(s, evs[..i]).output) + Render(Apply(Exec(s, evs[..i]).state, evs[i]).output)
  {
    var t := Exec(s, evs[..i]).state;
    assert evs[..i + 1] == evs[..i] + [evs[i]];
    Runs.ExecAppendState(s, evs[..i], [evs[i]]);
    Runs.ExecAppendOutput(s, evs[..i], [evs[i]]);
    Runs.ExecOne(t, evs[i]);
    RenderAppend(Exec(s, evs[..i]).output, Apply(t, evs[i]).output);
  }

  lemma Concat<T>(a: seq<T>, b: seq<T>, c: seq<T>)
    ensures a + b + c == a + (b + c)
  {
  }

  lemma RenderOne(m: Message)
    ensures Render([m]) == Text(m)
  {
    assert [m][..0] == [];
  }

  class Controller {
    var dado: bv8    // latest received byte
    var portb: bv8   // the LED port
    var duty: Word   // PWM duty in tenths
    var cnt1: int    // edge counter of 'P'
    var cnt2: int    // edge counter of 'L'
    var tmr0: Reg8   // Timer0 reload
    var sent: string // every character written to TXREG, in order

    /** The globals as a value of the Interpreter model. */
    function Snapshot(): State
      reads this
    {
      State(dado, portb, duty, cnt1, cnt2, tmr0)
    }

    ghost predicate Valid()
      reads this
    {
      Coherent(Snapshot())
    }

    /** main up to the loop: banner sent, PORTB = 1, TMR0 loaded from the initial duty. */
    constructor ()
      ensures Valid()
      ensures Snapshot() == Boot()
      ensures sent == Line(Banner)
    {
      dado, portb, duty, cnt1, cnt2, tmr0, sent := 0, 0, InitialDuty, 0, 0, 0, [];
      new;
      SendLine(Banner);
      portb := 1;
      tmr0 := Reload(duty);
    }

    /** TXCHR_USART: one character onto the line. */
    method SendChar(c: char)
      modifies this`sent
      ensures sent == old(sent) + [c]
    {
      sent := sent + [c];
    }

    /** TX_STRING_USART: send characters until the terminating NUL. */
    method SendString(s: string)
      modifies this`sent
      ensures sent == old(sent) + UntilNul(s)
    {
      var i := 0;
      while i < |s| && s[i] != '\0'
        invariant 0 <= i <= |s|
        invariant forall j :: 0 <= j < i ==> s[j] != '\0'
        invariant sent == old(sent) + s[..i]
      {
        SendChar(s[i]);
        i := i + 1;
      }
      UntilNulAt(s, i);
    }

    /** A fixed text followed by line feed and carriage return, as each status line ends. */
    method SendLine(text: string)
      requires forall j :: 0 <= j < |text| ==> text[j] != '\0'
      modifies this`sent
      ensures sent == old(sent) + Line(text)
    {
      SendString(text);
      UntilNulWhole(text);
      SendChar(10 as char);
      SendChar(13 as char);
    }

    /** The transmissions of one status line, as the loop body writes them. */
    method SendStatus(m: Message)
      modifies this`sent
      ensures sent == old(sent) + Render([m])
    {
      RenderOne(m);
      match m
      case Frente =>
        SendLine(FrenteLabel);
      case Atras =>
        SendLine(AtrasLabel);
      case PiscandoMenos =>
        SendLine(MenosLabel);
      case PiscandoMais =>
        SendLine(MaisLabel);
      case DutyCycle(percent) =>
        SendDuty(percent);
    }

    /** The duty status line: label, IntToStr's digits, the percent sign, line feed, carriage return. */
    method SendDuty(percent: int)
      modifies this`sent
      ensures sent == old(sent) + Text(DutyCycle(percent))
    {
      var digits := IntToDecimal(percent);
      SendString(DutyLabel);
      SendString(digits);
      SendString(PercentSign);
      SendLineEnd();
      DutyPartsSentWhole(percent);
      LineAppend(old(sent), DutyLabel, digits, PercentSign);
    }

    /** TXCHR_USART(10) then TXCHR_USART(13). */
    method SendLineEnd()
      modifies this`sent
      ensures sent == old(sent) + "\n\r"
    {
      SendChar(10 as char);
      SendChar(13 as char);
    }

    /**
      main's `while (1)` loop with the receive interrupt between passes,
      followed for as long as a finite list of events lasts: each Tick is
      one pass of the loop body, each Rx one interrupt.
    */
    method Run(evs: seq<Event>)
      requires Valid()
      modifies this
      ensures Valid()
      ensures Snapshot() == Exec(old(Snapshot()), evs).state
      ensures sent == old(sent) + Render(Exec(old(Snapshot()), evs).output)
    {
      ghost var start := Snapshot();
      ghost var sent0 := sent;
      var i := 0;
      assert evs[..0] == [];
      while i < |evs|
        invariant 0 <= i <= |evs|
        invariant Valid()
        invariant Snapshot() == Exec(start, evs[..i]).state
        invariant sent == sent0 + Render(Exec(start, evs[..i]).output)
        decreases |evs| - i
      {
        ExecSnoc(start, evs, i);
        ghost var mid := Snapshot();
        Handle(evs[i]);
        Concat(sent0, Render(Exec(start, evs[..i]).output), Render(Apply(mid, evs[i]).output));
        i := i + 1;
      }
      assert evs[..i] == evs;
    }

    /** One event: a pass of the loop body, or the receive interrupt. */
    method Handle(e: Event)
      requires Valid()
      modifies this
      ensures Valid()
      ensures Snapshot() == Apply(old(Snapshot()), e).state
      ensures sent == old(sent) + Render(Apply(old(Snapshot()), e).output)
    {
      match e
      case Tick =>
        Step();
      case Rx(b, fault) =>
        Receive(b, fault);
        assert Render([]) == [];
    }

    /** The receive interrupt: FERR/OERR only restart the receiver; RCREG is stored either way. */
    method Receive(rcreg: bv8, fault: bool)
      requires Valid()
      modifies this`dado
      ensures Valid()
      ensures Snapshot() == Deliver(old(Snapshot()), rcreg, fault)
    {
      dado := rcreg;
    }

    /** One pass of the `while (1)` loop: the switch on dado, then the counter reset. */
    method Step()
      requires Valid()
      modifies this
      ensures Valid() && Settled(Snapshot())
      ensures Snapshot() == Next(old(Snapshot())).state
      ensures sent == old(sent) + Render(Next(old(Snapshot())).output)
    {
      Runs.StepSettles(Snapshot());
      Switch();
      if dado != P {
        cnt1 := 0;
      }
      if dado != L {
        cnt2 := 0;
      }
    }

    /** After a duty change: TMR0 is reloaded from duty and the "Duty Cycle" line reports duty * 10. */
    method ReloadAndReport()
      modifies this`tmr0, this`sent
      ensures tmr0 == Reload(duty)
      ensures sent == old(sent) + Render([DutyCycle(Percent(duty))])
    {
      tmr0 := Reload(duty);
      SendStatus(DutyCycle(S16(U16(duty * 10))));
    }

    /** The `switch (dado)`: one case per command key, and the default that clears dado. */
    method Switch()
      modifies this
      ensures Snapshot() == Dispatch(old(Snapshot())).state
      ensures sent == old(sent) + Render(Dispatch(old(Snapshot())).output)
    {
      if dado == F {
        CaseForward();
      } else if dado == A {
        CaseBackward();
      } else if dado == D {
        CaseLowNibble();
      } else if dado == E {
        CaseHighNibble();
      } else if dado == P {
        CaseUp();
      } else if dado == L {
        CaseDown();
      } else {
        dado := 0;
      }
    }

    /** case 'F': clear both counters, report, move the lit LED one place up (RB7 wraps to RB0). */
    method CaseForward()
      requires dado == F
      modifies this
      ensures Snapshot() == Dispatch(old(Snapshot())).state
      ensures sent == old(sent) + Render(Dispatch(old(Snapshot())).output)
    {
      cnt1, cnt2 := 0, 0;
      SendStatus(Frente);
      if portb >= 128 {
        portb := 1;
      } else {
        portb := portb << 1;
      }
    }

    /** case 'A': clear both counters, report, move the lit LED one place down (all-dark jumps to RB7). */
    method CaseBackward()
      requires dado == A
      modifies this
      ensures Snapshot() == Dispatch(old(Snapshot())).state
      ensures sent == old(sent) + Render(Dispatch(old(Snapshot())).output)
    {
      cnt1, cnt2 := 0, 0;
      SendStatus(Atras);
      if portb == 0 {
        portb := 128;
      } else {
        portb := portb >> 1;
      }
    }

    /** case 'D': clear both counters, report, complement RB0..RB3 one pin at a time. */
    method CaseLowNibble()
      requires dado == D
      modifies this
      ensures Snapshot() == Dispatch(old(Snapshot())).state
      ensures sent == old(sent) + Render(Dispatch(old(Snapshot())).output)
    {
      cnt1, cnt2 := 0, 0;
      SendStatus(PiscandoMenos);
      portb := InvertBit(portb, 0);
      portb := InvertBit(portb, 1);
      portb := InvertBit(portb, 2);
      portb := InvertBit(portb, 3);
    }

    /** case 'E': report, clear both counters, complement RB4..RB7 one pin at a time. */
    method CaseHighNibble()
      requires dado == E
      modifies this
      ensures Snapshot() == Dispatch(old(Snapshot())).state
      ensures sent == old(sent) + Render(Dispatch(old(Snapshot())).output)
    {
      SendStatus(PiscandoMais);
      cnt1, cnt2 := 0, 0;
      portb := InvertBit(portb, 4);
      portb := InvertBit(portb, 5);
      portb := InvertBit(portb, 6);
      portb := InvertBit(portb, 7);
    }

    /** case 'P': only on the first iteration of a press (cnt1 == 0) raise duty, clamp it at 10, reload TMR0 and report; always count. */
    method CaseUp()
      requires dado == P
      modifies this
      ensures Snapshot() == Dispatch(old(Snapshot())).state
      ensures sent == old(sent) + Render(Dispatch(old(Snapshot())).output)
    {
      if cnt1 == 0 {
        duty := U16(duty + 1);
        if duty >= 10 {
          duty := 10;
        }
        ReloadAndReport();
      }
      cnt1 := cnt1 + 1;
    }

    /** case 'L': only on the first iteration of a press (cnt2 == 0) lower duty, clamp it at 0, reload TMR0 and report; always count. */
    method CaseDown()
      requires dado == L
      modifies this
      ensures Snapshot() == Dispatch(old(Snapshot())).state
      ensures sent == old(sent) + Render(Dispatch(old(Snapshot())).output)
    {
      if cnt2 == 0 {
        duty := U16(duty - 1);
        if duty <= 0 {
          duty := 0;
        }
        ReloadAndReport();
      }
      cnt2 := cnt2 + 1;
    }
  }
}
