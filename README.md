# Rotary encoder decoding state machine

A model of the rotary-encoder core of an AVR (Arduino Uno) firmware written in
Rust. A pin-change interrupt fires on every level change of the encoder's
clock line. The handler reads the clock and data lines and classifies the
step: equal levels mean `Right`, different levels mean `Left`. It stores the
result in a one-turn buffer inside a `RotaryEncoder`, overwriting any turn
that was not yet collected. The main loop keeps draining that buffer with
`Option::take` and writes `Left` or `Right` to the serial line for every turn
it gets. The encoder lives in a global slot, `Option<RotaryEncoder>`, that
startup fills. Before that, the interrupt handler and the drain both treat the
empty slot as "nothing to do".

Files:

- `turns.dfy`, module `Turns`: the `Turn` direction, the classification of
  two line levels (`Classify`), the printed text (`Label`, with its inverse
  `ParseLabel` as a reference), and the lines written for one drained value
  (`Report`).
- `trace.dfy`, module `Trace`: the buffer as a pure two-state machine (`None`
  is idle, `Some(d)` is one pending turn) run over a sequence of events
  (`Notify(clockHigh, dataHigh)` or `Check`). It comes with lemmas on what
  every drain delivers: last write wins, exactly-once delivery and no
  spurious output. `Written(e)` is what an event leaves in the buffer.
- `encoder.dfy`, module `Encoder`: the imperative part. `RotaryEncoder` is a
  class whose `turn` field `NotifyTurned` and `CheckTurn` update in place.
  Their contracts are stated through `Trace.Written`, so every step of the
  class is a step of `Trace.Run`. `EncoderSlot` is the global
  `Option<RotaryEncoder>` together with the interrupt handler
  (`OnPinChange`), the main-loop drain (`Drain`) and startup's `Install`.
  `RunEvents` drives a slot through any sequence of calls and proves that the
  classes deliver what `Trace.Run` delivers. Three client methods run the
  scenarios of a freshly started encoder against the real classes.

The pin reads `clock.is_high()` and `data.is_high()` are hardware calls. Here
they are the boolean parameters `clockHigh` and `dataHigh` of
`NotifyTurned` and `OnPinChange`. The `Pin` handles are kept as fields that
no operation changes.

## Model

| member | source | states |
|---|---|---|
| `Turns.Classify` | src/main.rs:42-46 | the direction is `Right` exactly when the clock and data levels are equal and `Left` exactly when they differ |
| `Turns.ClassifyDependsOnPhaseOnly` | src/main.rs:42 | only the relative phase counts: inverting both levels keeps the direction, inverting one reverses it |
| `Turns.Label` | src/main.rs:100-103 | `Left` is printed as "Left" and `Right` as "Right", and no other pairing occurs |
| `Turns.LabelRoundTrip` | src/main.rs:100-103 | each label reads back as the turn it was printed for, and only the two labels read back as a turn, so the mapping is one-to-one |
| `Turns.Report` | src/main.rs:99-104 | a drained `None` prints no line; a drained `Some(t)` prints exactly one line, which reads back as `t` |
| `Trace.Written` | src/main.rs:41-51 | defines what one call leaves in the buffer: a notify stores `Some` of the classification whatever was there before, and a drain (`take`) leaves `None` |
| `Trace.Run` | src/main.rs:41-51 | defines a sequence of notify and drain calls run one after the other from given buffer contents; each drain returns the buffer as it was just before that drain, and the run ends with the final buffer |
| `Trace.RunSlot` | src/main.rs:41-51 | after any sequence of calls, the buffer holds what the last call wrote: the last classification after a notify, `None` after a drain |
| `Trace.RunDrainedLength` | src/main.rs:49-51 | each drain delivers exactly one value (`Some` or `None`) |
| `Trace.RunDrainedAt` | src/main.rs:41-51 | the drain at any position delivers what was in the buffer just before it: the classification of an immediately preceding notify, `None` after an immediately preceding drain, or the initial contents |
| `Trace.DrainTwice` | src/main.rs:49-51 | two drains in a row deliver the pending value and then `None`, and leave the buffer empty, after any history |
| `Trace.Overwrite` | src/main.rs:41-47 | two notifies before a drain deliver only the second classification; the first is lost, not queued |
| `Trace.NoNotifyNoOutput` | src/main.rs:33-51 | starting from a fresh (empty) encoder, drains with no notify in between always deliver `None` and leave the buffer empty |
| `Trace.DeliveredIffNotifiedJustBefore` | src/main.rs:41-51 | a drain delivers a turn exactly when the call just before it was a notify, or, for a drain at the very start, when a turn was already pending |
| `Trace.NoDoubleDelivery` | src/main.rs:41-51 | when a later drain delivers a turn, some notify lies strictly between it and any earlier drain, so no turn is delivered twice |
| `Trace.AtMostOncePerNotify` | src/main.rs:41-51 | counting bound: the number of turns any run delivers is at most its number of notifies, plus one if a turn was pending at the start |
| `Encoder.RotaryEncoder.constructor` | src/main.rs:33-39 | a new encoder holds the two given line handles and has no pending turn |
| `Encoder.RotaryEncoder.NotifyTurned` | src/main.rs:41-47 | the buffer afterwards holds `Some(Right)` exactly when the levels are equal and `Some(Left)` exactly when they differ, whatever it held before; only `turn` changes and the line handles stay the same |
| `Encoder.RotaryEncoder.CheckTurn` | src/main.rs:49-51 | returns the previously pending value and leaves the buffer empty; only `turn` changes |
| `Encoder.EncoderSlot.constructor` | src/main.rs:54 | the global slot starts out empty, with nothing pending |
| `Encoder.EncoderSlot.Install` | src/main.rs:77-79 | after installation the slot holds the given encoder, and that encoder's pending state is what the slot reports |
| `Encoder.EncoderSlot.OnPinChange` | src/main.rs:59-65 | with an encoder installed, the pending turn becomes the classification of the sampled levels and only `turn` changes; with an empty slot nothing changes |
| `Encoder.EncoderSlot.Drain` | src/main.rs:91-97 | returns the pending turn (`None` for an empty slot) and leaves nothing pending; it may change only the installed encoder's `turn`, so the line handles stay the same |
| `Encoder.RunEvents` | src/main.rs:59-97 | for any interleaving of interrupts and main-loop drains on the real objects: with an encoder installed, the drained values and the final pending turn are exactly those of `Trace.Run`, so all the `Trace` lemmas hold of the classes; with an empty slot, every drain returns `None` |
| `Encoder.NotifyThenDrainTwice` | src/main.rs:33-51 | after startup and one notify, the first drain delivers `Some` of the classification and the second delivers `None` |
| `Encoder.OverwriteBeforeDrain` | src/main.rs:41-51 | after two notifies and no drain in between, the drain delivers the later classification and the next drain delivers `None` |
| `Encoder.BeforeInstall` | src/main.rs:54-64 | an interrupt before installation has no effect; a drain before installation, or right after it, delivers `None` |

## Left out

- The critical section (`Mutex<RefCell<…>>` and `avr_device::interrupt::free`), which makes each call atomic. The model runs the calls one at a time, so torn states cannot be expressed.
- The `#[avr_device::interrupt]` binding of the handler to the PCINT2 vector. `OnPinChange` is a method that a caller invokes.
- Peripheral bring-up (`Peripherals::take().unwrap()`, `pins!`, `default_serial!`, `into_floating_input().downgrade()`). A `Pin` is just a pin number. The client methods use pins 2 and 3, as startup does.
- The PCICR/PCMSK2 register writes and `interrupt::enable()`.
- The hardware reads `is_high()`. Their results are parameters.
- The serial writes through `uwriteln!`, including the line terminator and the ignored write error. Only the text of each line is modelled, in `Report`.
- The endless `loop` of `main` and `panic_halt`. One turn of the loop is `Drain` followed by `Report`.
- The model keeps the classification as written. It uses the levels at a single instant, not a transition table, so it can misread steps on a noisy or bouncing encoder.
- Ownership: Rust moves the encoder into the slot by value. Here the slot holds a reference to a class instance, and callers are assumed not to keep and use other references to it.
