/** The rotary encoder object, the process-wide slot that holds it, and the
    two entry points that use the slot: the pin-change interrupt handler and
    one drain of the main loop. Calls are taken to run one at a time, as the
    critical section guarantees on the board. */
module Encoder {
  import opened Turns
  import opened Trace

  /** A handle on one digital input line, identified by its pin number. */
  datatype Pin = Pin(number: nat)

  /** The encoder: its two input lines and a one-turn buffer. */
  class RotaryEncoder {
    var clock: Pin
    var data: Pin
    var turn: Option<Turn>

    /** A fresh encoder owns the two lines and has no pending turn. */
    constructor (clock: Pin, data: Pin)
      ensures this.clock == clock && this.data == data
      ensures turn == None
    {
      this.clock := clock;
      this.data := data;
      turn := None;
    }

    /** Called on a change of the clock line. `clockHigh` and `dataHigh` are
        the levels read from `clock` and `data` at that moment. The
        classification overwrites whatever turn was still pending. */
    method NotifyTurned(clockHigh: bool, dataHigh: bool)
      modifies this`turn
      ensures turn == Written(Notify(clockHigh, dataHigh))
      ensures turn == Some(Right) <==> clockHigh == dataHigh
      ensures turn == Some(Left) <==> clockHigh != dataHigh
      ensures clock == old(clock) && data == old(data)
    {
      turn := if clockHigh == dataHigh then Some(Right) else Some(Left);
    }

    /** Takes the pending turn out of the buffer, leaving it empty. */
    method CheckTurn() returns (r: Option<Turn>)
      modifies this`turn
      ensures r == old(turn)
      ensures turn == Written(Check)
      ensures clock == old(clock) && data == old(data)
    {
      r := turn;
      turn := None;
    }
  }

  /** The global slot that holds the encoder once startup has installed it. */
  class EncoderSlot {
    var encoder: Option<RotaryEncoder>

    /** The encoder whose `turn` the slot's operations may change. */
    ghost function Footprint(): set<RotaryEncoder>
      reads this
    {
      if encoder.Some? then {encoder.value} else {}
    }

    /** The turn waiting to be drained; an empty slot has none. */
    ghost function Pending(): Option<Turn>
      reads this, Footprint()
    {
      if encoder.Some? then encoder.value.turn else None
    }

    /** The slot starts out empty. */
    constructor ()
      ensures encoder == None && Pending() == None
    {
      encoder := None;
    }

    /** Startup moves a freshly built encoder into the slot. */
    method Install(e: RotaryEncoder)
      modifies this
      ensures encoder == Some(e)
      ensures Pending() == e.turn
      ensures e.turn == old(e.turn)
    {
      encoder := Some(e);
    }

    /** The pin-change interrupt handler: notifies the installed encoder, and
        does nothing at all when the slot is still empty. */
    method OnPinChange(clockHigh: bool, dataHigh: bool)
      modifies Footprint()`turn
      ensures encoder == old(encoder)
      ensures encoder.None? ==> Pending() == old(Pending())
      ensures encoder.Some? ==> Pending() == Written(Notify(clockHigh, dataHigh))
      ensures encoder.Some? ==> encoder.value.clock == old(encoder.value.clock) && encoder.value.data == old(encoder.value.data)
    {
      match encoder
      case Some(e) => e.NotifyTurned(clockHigh, dataHigh);
      case None =>
    }

    /** One drain of the main loop: the pending turn of the installed encoder,
        or `None` when the slot is empty. Afterwards nothing is pending. */
    method Drain() returns (r: Option<Turn>)
      modifies Footprint()`turn
      ensures encoder == old(encoder)
      ensures r == old(Pending())
      ensures Pending() == Written(Check)
      ensures old(encoder).None? ==> r == None
      ensures encoder.Some? ==> encoder.value.clock == old(encoder.value.clock) && encoder.value.data == old(encoder.value.data)
    {
      match encoder
      case Some(e) => r := e.CheckTurn();
      case None => r := None;
    }
  }

  /** Drives the slot through any history of interrupts and main-loop drains,
      one call at a time, and collects what the drains return. With an
      encoder installed this is exactly the state machine `Run` started from
      the pending turn; with an empty slot every drain returns `None`. */
  method RunEvents(slot: EncoderSlot, events: seq<Event>) returns (drained: seq<Option<Turn>>)
    modifies slot.Footprint()`turn
    ensures slot.encoder == old(slot.encoder)
    ensures slot.encoder.Some? ==> drained == Run(old(slot.Pending()), events).drained
    ensures slot.encoder.Some? ==> slot.Pending() == Run(old(slot.Pending()), events).slot
    ensures slot.encoder.None? ==> |drained| == CountChecks(events)
    ensures slot.encoder.None? ==> forall k :: 0 <= k < |drained| ==> drained[k] == None
  {
    drained := [];
    var n := 0;
    while n < |events|
      invariant 0 <= n <= |events|
      invariant slot.encoder == old(slot.encoder)
      invariant slot.encoder.Some? ==>
        Run(old(slot.Pending()), events).drained == drained + Run(slot.Pending(), events[n..]).drained
      invariant slot.encoder.Some? ==>
        Run(old(slot.Pending()), events).slot == Run(slot.Pending(), events[n..]).slot
      invariant slot.encoder.None? ==> |drained| == CountChecks(events[..n])
      invariant slot.encoder.None? ==> forall k :: 0 <= k < |drained| ==> drained[k] == None
    {
      assert events[n..][1..] == events[n + 1..];
      assert events[..n + 1] == events[..n] + [events[n]];
      CountChecksAppend(events[..n], [events[n]]);
      match events[n] {
        case Notify(clockHigh, dataHigh) =>
          slot.OnPinChange(clockHigh, dataHigh);
        case Check =>
          var r := slot.Drain();
          drained := drained + [r];
      }
      n := n + 1;
    }
    assert events[n..] == [];
    assert events[..n] == events;
  }

  /** Startup with the clock on pin 2 and data on pin 3, one notification with
      the given levels, then two drains: the first delivers the classified
      turn, the second finds nothing. */
  method NotifyThenDrainTwice(clockHigh: bool, dataHigh: bool) returns (first: Option<Turn>, second: Option<Turn>)
    ensures first == Some(Classify(clockHigh, dataHigh))
    ensures second == None
  {
    var slot := new EncoderSlot();
    var e := new RotaryEncoder(Pin(2), Pin(3));
    slot.Install(e);
    slot.OnPinChange(clockHigh, dataHigh);
    first := slot.Drain();
    second := slot.Drain();
  }

  /** Two notifications before the main loop drains: only the later one is
      delivered, and the next drain finds nothing. */
  method OverwriteBeforeDrain(clock1: bool, data1: bool, clock2: bool, data2: bool)
    returns (first: Option<Turn>, second: Option<Turn>)
    ensures first == Some(Classify(clock2, data2))
    ensures second == None
  {
    var slot := new EncoderSlot();
    var e := new RotaryEncoder(Pin(2), Pin(3));
    slot.Install(e);
    slot.OnPinChange(clock1, data1);
    slot.OnPinChange(clock2, data2);
    first := slot.Drain();
    second := slot.Drain();
  }

  /** Interrupts and drains that arrive before startup installs the encoder
      change nothing and deliver nothing; a drain right after installation
      delivers nothing either. */
  method BeforeInstall(clockHigh: bool, dataHigh: bool) returns (early: Option<Turn>, afterInstall: Option<Turn>)
    ensures early == None
    ensures afterInstall == None
  {
    var slot := new EncoderSlot();
    slot.OnPinChange(clockHigh, dataHigh);
    early := slot.Drain();
    var e := new RotaryEncoder(Pin(2), Pin(3));
    slot.Install(e);
    afterInstall := slot.Drain();
  }
}
