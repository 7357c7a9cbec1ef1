# LED controller over a serial line — a Dafny model

The firmware in `index.c` runs on a PIC microcontroller. It reads single-character commands from the serial port and drives eight LEDs on PORTB:

- `F` moves the lit LED up one place.
- `A` moves it down one place.
- `D` complements RB0..RB3.
- `E` complements RB4..RB7.
- `P` raises the PWM duty one tenth.
- `L` lowers it one tenth.

The duty sets the Timer0 reload value. Every command reports a status line on the serial port.

The receive interrupt stores the latest byte in `dado`. The main loop acts on `dado` on every pass. Because of this, a movement key keeps acting until another byte arrives. The duty keys are edge-triggered through `cnt1` and `cnt2`: a held `P` or `L` fires once per press.

The model has two layers.

- **Values.** `Interpreter` holds the globals as a `State` value. It gives one pass of the loop as `Next` (the state after the pass, plus the status lines sent) and the interrupt as `Deliver`. `Runs` composes passes and interrupts into runs (`Exec`). `Movement` and `DutyKeys` prove what the keys do. `Decimal` gives the decimal text of the value handed to `IntToStr`.
- **The firmware in place.** `Firmware.Controller` is a class whose fields are the globals, plus `sent`, the characters written to TXREG so far.
  - The constructor is `main` up to the loop.
  - `SendChar` and `SendString` are the two transmit routines. `SendString` is the NUL-terminated loop of `TX_STRING_USART`.
  - `Receive` is the interrupt.
  - `Step` is one pass of the `while (1)` loop.
  - `Run` is the loop with interrupts between passes.

  Each method is proved against the value layer: its new state and its transmissions are those of `Boot`, `Deliver`, `Next` or `Exec`.

Integer widths are those of the PIC compiler:

- `unsigned char` and the port registers are 8 bits.
- `unsigned int duty` is 16 bits and wraps.
- TMR0 keeps the low 8 bits of `256 - duty * valor`.
- `IntToStr` takes a signed 16-bit `int`.

Three consequences of the code as written are proved:

- `L` at duty 0 wraps duty to 65535, because the clamp `duty <= 0` (index.c:210) cannot catch an unsigned wrap. TMR0 is then reloaded with 15, and IntToStr receives -10. In the model's rendering the status line reads `Duty Cycle: -10%`.
- A later `P` does not restore full duty. `duty += 1` (index.c:190) takes 65535 to 0 in 16 bits, and `if (duty >= 10)` (index.c:191) leaves 0 alone. Duty becomes 0 and the line reports 0%.
- `A` from the boot pattern 1 darkens the port for one pass, so the backward cycle has nine patterns.

The model follows the code in three places where a comment or a reader might expect otherwise:

- The initial duty is 10 tenths, which is 100%. The comment on index.c:17 says 10%.
- A byte that is not a command zeroes both counters. The default case (index.c:225-233) leaves them alone, but the reset after the switch (index.c:237-238) then clears both.
- A byte received with a framing or overrun error is still stored in `dado`, because the store at index.c:67 is outside the `if` at index.c:60.

## Model

| member | source | states |
|---|---|---|
| Interpreter.U16 | index.c:18 | arithmetic on `unsigned int` is modulo 2^16: unchanged inside the range, plus 2^16 just below 0 |
| Interpreter.S16 | index.c:196 | a 16-bit pattern read as a signed `int` lies in -32768..32767 and truncates back to the same pattern |
| Interpreter.Reload | index.c:110 | the TMR0 reload `256 - duty * valor` in 8-bit TMR0: 256 - 15*duty for duty 1..10, and 0 for duty 0 |
| Interpreter.DutyUp | index.c:190-191 | the increment with its clamp never exceeds 10; below 10 it adds one; 10..65534 clamp to 10; 65535 wraps to 0 |
| Interpreter.DutyDown | index.c:209-210 | the decrement subtracts one from any duty >= 1; from 0 it wraps to 65535, which the `<= 0` clamp misses |
| Interpreter.Percent | index.c:196 | the value given to IntToStr is 10 * duty for every duty 0..10 |
| Interpreter.Boot | index.c:10-22 | the globals entering the loop: dado 0, PORTB 1, duty 10, both counters 0, TMR0 106 |
| Interpreter.ResetCounters | index.c:237-238 | after the reset a counter is zero unless its key is in dado, and the latched key's counter is kept; dado, PORTB, duty and TMR0 are kept |
| Interpreter.Forward | index.c:131-137 | F takes the top LED (PORTB >= 128) to RB0 and otherwise doubles the pattern, losing no bit |
| Interpreter.Backward | index.c:146-152 | A lights RB7 on a dark port and otherwise halves the pattern |
| Interpreter.InvertBit | index.c:163 | `PORTB.RBk = ~PORTB.RBk` complements pin k and leaves the other seven |
| Interpreter.ToggleLow | index.c:163-166 | the four inversions of case D together complement exactly the low nibble (XOR 0x0F) |
| Interpreter.ToggleHigh | index.c:179-182 | the four inversions of case E together complement exactly the high nibble (XOR 0xF0) |
| Interpreter.TextEndsLine | index.c:128-130 | every status line given by Text is a non-empty text followed by LF (10) and CR (13) |
| Interpreter.RenderLines | index.c:128-219 | Render sends characters exactly when there are status lines, and the text then ends with LF CR |
| Interpreter.Dispatch | index.c:124-234 | the switch sends at most one line, and sends one exactly for F, A, D, E, and for P (L) with cnt1 (cnt2) at 0; only P and L touch duty and TMR0; only F, A, D and E touch PORTB |
| Interpreter.Next | index.c:123-240 | one pass ends settled (each counter zero unless its key is latched) and sends at most one line |
| Interpreter.Deliver | index.c:54-69 | the interrupt stores RCREG in dado and changes nothing else, whether or not an error was flagged |
| Interpreter.Apply | index.c:54-240 | an interrupt sends nothing and latches its byte; a pass ends settled and sends at most one line |
| Interpreter.Exec | index.c:54-240 | a run sends at most one line per event, and the empty run changes nothing |
| Decimal.NatToDecimal | index.c:196 | the decimal text of a natural number is canonical (digits, no leading zero) and starts with '0' only for 0 |
| Decimal.IntToDecimal | index.c:215 | the text of a signed value starts with '-' exactly when it is negative, followed by a canonical magnitude |
| Decimal.ParseNatToDecimal | index.c:196 | reading the digits back gives the number |
| Decimal.ParseNatPositive | index.c:196 | digits with a non-zero leading digit denote a positive number |
| Decimal.NatToDecimalParse | index.c:196 | every canonical digit string is the text of the number it denotes |
| Decimal.ParseIntToDecimal | index.c:215 | the signed text is well formed and parses back to the value |
| Decimal.IntToDecimalParse | index.c:215 | the signed rendering is onto the well-formed texts, so distinct values print differently |
| Runs.ExecOne | index.c:123-240 | a run of one event is that event applied |
| Runs.ExecAppendState | index.c:123-240 | the state after two runs in sequence is the state after the concatenated run |
| Runs.ExecAppendOutput | index.c:123-240 | the lines sent by a concatenated run are those of the first part, then those of the second |
| Runs.StepSettles | index.c:124-238 | after every pass each counter is zero unless its key is latched; TMR0 stays in step with duty; commands stay in dado and other bytes become 0 |
| Runs.UnknownByte | index.c:225-238 | a non-command byte clears dado and both counters, keeps PORTB, duty and TMR0, and sends nothing |
| Runs.RunInvariant | index.c:54-240 | every run from a coherent state keeps TMR0 = Reload(duty) and the counters non-negative; a run ending in a pass ends settled |
| Runs.BootInvariant | index.c:103-240 | every run from boot keeps TMR0 equal to the reload of duty, and is settled after a pass |
| Runs.FaultyByteStillLatched | index.c:60-67 | a byte received with FERR or OERR set reaches dado exactly as a good byte does |
| Movement.MovementStep | index.c:125-185 | F, A, D and E change only PORTB, zero both counters, stay latched and send their own status line |
| Movement.HeldMovement | index.c:123-185 | a latched movement key acts on every pass: n passes apply it n times and send its line n times |
| Movement.ForwardWalk | index.c:131-137 | with F held, one lit LED at RB0 is at RBk after k passes and back at RB0 after 8 |
| Movement.BackwardWalk | index.c:146-152 | with A held from the boot pattern the port goes dark after one pass, is at RB7 after two, and at RB0 after nine |
| Movement.ToggleLowBits | index.c:163-166 | D complements RB0..RB3 and leaves RB4..RB7 |
| Movement.ToggleHighBits | index.c:179-182 | E complements RB4..RB7 and leaves RB0..RB3 |
| Movement.ToggleLowInvolution | index.c:163-166 | two passes of D restore the port |
| Movement.ToggleHighInvolution | index.c:179-182 | two passes of E restore the port |
| Movement.HeldToggleBlinks | index.c:155-185 | with D or E held the port alternates between two patterns |
| DutyKeys.DutyKeyStep | index.c:187-238 | P (L) fires exactly when cnt1 (cnt2) is 0; firing sets duty, TMR0 and one Duty Cycle line; its counter rises by one and the other is zeroed |
| DutyKeys.HeldDutyKeyQuiet | index.c:189-222 | a duty key held with its counter non-zero only counts and sends nothing |
| DutyKeys.HeldDutyKeyFiresOnce | index.c:187-238 | however many passes a duty key stays latched, duty changes once and one line is sent |
| DutyKeys.RepeatedByteFiresOnce | index.c:54-69 | the same duty key received twice while latched fires once |
| DutyKeys.PressStep | index.c:187-238 | a press (key, then a non-command byte) fires once and leaves both counters at 0 |
| DutyKeys.PressesUp | index.c:187-204 | n presses of P from duty d <= 10 give min(d + n, 10), with the matching reload and one line per press |
| DutyKeys.PressesDown | index.c:206-223 | n presses of L from duty d >= n give d - n, with the matching reload and one line per press |
| DutyKeys.DutyLineText | index.c:193-200 | for duty 0..10 the status line is "Duty Cycle: " + decimal(10 * duty) + "%" + LF CR |
| DutyKeys.BootPressesUp | index.c:18 | since boot is at full duty, presses of P only repeat "Duty Cycle: 100%" |
| DutyKeys.FullDutyText | index.c:193-200 | in the model's rendering the full-duty line is "Duty Cycle: 100%" followed by LF CR |
| DutyKeys.WrappedDutyText | index.c:215 | for duty 65535 IntToStr receives -10, so in the model's rendering the line reads "Duty Cycle: -10%" |
| DutyKeys.DownFromZeroWraps | index.c:209-219 | L at duty 0 wraps duty to 65535, reloads TMR0 with 15 and reports -10% |
| DutyKeys.UpFromWrap | index.c:190-191 | P at the wrapped duty 65535 gives duty 0, TMR0 0, and a 0% line, not full duty |
| DutyKeys.BootElevenDownWraps | index.c:206-223 | ten presses of L after boot reach duty 0, and the eleventh wraps it to 65535 |
| DutyKeys.DutyBound | index.c:190-210 | duty <= 10 survives every event except a pass that fires L at duty 0 |
| Firmware.UntilNul | index.c:32-36 | the characters sent from a string are a NUL-free prefix of it |
| Firmware.UntilNulAt | index.c:34-35 | when the first NUL is at i (or there is none and i is the length), exactly s[..i] is sent |
| Firmware.UntilNulWhole | index.c:34-35 | a string without NUL is sent whole |
| Firmware.DecimalSentWhole | index.c:196-197 | the digits produced for the duty contain no NUL, so all of them are sent |
| Firmware.RenderAppend | index.c:123-240 | the characters of two batches of lines are those of the first, then those of the second |
| Firmware.ExecSnoc | index.c:123-240 | extending a run by one event applies that event to the run's state and appends its lines |
| Firmware.Controller.constructor | index.c:71-110 | after start-up the globals are Boot() and the banner followed by LF CR has been sent |
| Firmware.Controller.SendChar | index.c:25-29 | TXCHR_USART appends one character to the transmitted text |
| Firmware.Controller.SendString | index.c:32-36 | TX_STRING_USART appends every character before the first NUL, in order |
| Firmware.Controller.SendLine | index.c:128-130 | a fixed text without NUL, then LF and CR, is appended |
| Firmware.Controller.SendStatus | index.c:128-200 | the transmissions of one status line append exactly that line's characters |
| Firmware.Controller.SendDuty | index.c:193-200 | the label, IntToStr's digits, "%", LF and CR are appended: the Duty Cycle line for that value |
| Firmware.Controller.SendLineEnd | index.c:199-200 | LF then CR is appended |
| Firmware.Controller.ReloadAndReport | index.c:192-200 | TMR0 becomes the reload of the new duty and the Duty Cycle line for it is sent |
| Firmware.Controller.Receive | index.c:54-69 | the interrupt updates the globals as Deliver does and keeps them coherent |
| Firmware.Controller.Switch | index.c:124-234 | the switch leaves the globals and the transmitted text as Dispatch of the old state says |
| Firmware.Controller.CaseForward | index.c:125-138 | case F does what Dispatch says for F |
| Firmware.Controller.CaseBackward | index.c:140-153 | case A does what Dispatch says for A |
| Firmware.Controller.CaseLowNibble | index.c:155-169 | case D does what Dispatch says for D |
| Firmware.Controller.CaseHighNibble | index.c:171-185 | case E does what Dispatch says for E |
| Firmware.Controller.CaseUp | index.c:187-204 | case P does what Dispatch says for P |
| Firmware.Controller.CaseDown | index.c:206-223 | case L does what Dispatch says for L |
| Firmware.Controller.Step | index.c:123-240 | one pass of the loop leaves the globals as Next and sends Next's lines; the result is coherent and settled |
| Firmware.Controller.Handle | index.c:54-240 | one event, either a pass or the interrupt, updates the globals and the text as Apply says |
| Firmware.Controller.Run | index.c:54-240 | the loop with interrupts between passes ends in the state of Exec and has sent exactly Exec's lines |

## Left out

- Peripheral set-up is not modelled: analog pins, comparators, TRISB, BRGH, OPTION_REG, INTCON and the interrupt-enable bits (index.c:76-92, 106-107, 116-119). None of it affects the modelled globals.
- INICIAR_USART and the SPBRG baud-rate value (index.c:39-51) are not modelled, since the baud rate does not affect what is sent.
- The TXIF wait and flag clear in TXCHR_USART (index.c:26-27) are not modelled. Transmission is a character appended to `sent`.
- The 500 ms delays after the movement keys and the 100 ms start-up delay are not modelled. Time is not part of the model.
- Firmware.Controller.Run: the interrupt is modelled only between passes of the loop. On the chip it can fire in the middle of a pass, for example between `switch (dado)` and `if (dado != P)`. Such interleavings are not captured.
- The RCIF and CREN bit operations in the interrupt (index.c:57, 62-63) are not modelled. They only restart the receiver, and `fault` is the value of `FERR || OERR`.
- Interpreter.Valor: `valor` is computed in floating point as 15.625 and stored truncated. The model uses the constant 15; the floating-point computation itself is not modelled.
- Decimal.IntToDecimal: mikroC's IntToStr is not part of this model. The model gives the plain decimal text with a '-' for negative values. The library's fixed-width padding is not modelled, and neither is the size of `duty_str` (4 characters).
- Interpreter.Banner: line 73 declares the banner as a single `const char` initialised from a string literal, which does not compile as a string. The model sends the evidently intended text.
- Interpreter.State: `cnt1` and `cnt2` are 16-bit `int` in the source. They are unbounded here, so the overflow after 32767 consecutive passes of a held duty key is not modelled.
- Timer0 counting up by itself and the PWM waveform are not modelled. `tmr0` is the value last written to the register.
