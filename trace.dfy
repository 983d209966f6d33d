/** The encoder's single pending-turn slot as a pure state machine over a
    sequence of events, with what the main loop drains at each `Check`.
    The two states are `None` (idle) and `Some(d)` (one undelivered turn). */
module Trace {
  import opened Turns

  /** One call on the encoder: a pin-change notification with the sampled
      levels of the clock and data lines, or one drain by the main loop. */
  datatype Event = Notify(clockHigh: bool, dataHigh: bool) | Check

  /** The slot after a run, and the values drained by its `Check`s in order. */
  datatype Outcome = Outcome(slot: Option<Turn>, drained: seq<Option<Turn>>)

  /** What an event leaves in the slot: a notification stores its
      classification whatever was there (last write wins), a drain empties it. */
  function Written(e: Event): (slot: Option<Turn>)
  {
    match e
    case Notify(clockHigh, dataHigh) => Some(Classify(clockHigh, dataHigh))
    case Check => None
  }

  /** Runs `events` one after the other from slot contents `slot`. Each
      `Check` hands out the slot as it was just before it. */
  function Run(slot: Option<Turn>, events: seq<Event>): (o: Outcome)
    decreases |events|
  {
    if events == [] then Outcome(slot, [])
    else
      var rest := Run(Written(events[0]), events[1..]);
      if events[0].Check? then Outcome(rest.slot, [slot] + rest.drained) else rest
  }

  /** Reference definition: the slot before event `i` holds what the event just
      before it wrote, or the initial contents when there is none. */
  function SlotBefore(slot: Option<Turn>, events: seq<Event>, i: nat): Option<Turn>
    requires i <= |events|
  {
    if i == 0 then slot else Written(events[i - 1])
  }

  function CountChecks(events: seq<Event>): nat
  {
    if events == [] then 0 else (if events[0].Check? then 1 else 0) + CountChecks(events[1..])
  }

  function CountNotifies(events: seq<Event>): nat
  {
    if events == [] then 0 else (if events[0].Notify? then 1 else 0) + CountNotifies(events[1..])
  }

  function CountDelivered(drained: seq<Option<Turn>>): nat
  {
    if drained == [] then 0 else (if drained[0].Some? then 1 else 0) + CountDelivered(drained[1..])
  }

  /** After a run the slot holds what the last event wrote. */
  lemma {:induction false} RunSlot(slot: Option<Turn>, events: seq<Event>)
    ensures Run(slot, events).slot == SlotBefore(slot, events, |events|)
    decreases |events|
  {
    if events != [] {
      RunSlot(Written(events[0]), events[1..]);
    }
  }

  /** A run drains exactly once per `Check`. */
  lemma {:induction false} RunDrainedLength(slot: Option<Turn>, events: seq<Event>)
    ensures |Run(slot, events).drained| == CountChecks(events)
    decreases |events|
  {
    if events != [] {
      RunDrainedLength(Written(events[0]), events[1..]);
    }
  }

  lemma {:induction false} CountChecksPrefix(events: seq<Event>, i: nat)
    requires 0 < i <= |events|
    ensures CountChecks(events[..i]) == (if events[0].Check? then 1 else 0) + CountChecks(events[1..][..i - 1])
  {
    assert events[..i] == [events[0]] + events[1..][..i - 1];
    assert events[..i][1..] == events[1..][..i - 1];
  }

  /** The `Check` at position `i` delivers exactly the slot before it: the
      classification of an immediately preceding notification, `None` after
      an immediately preceding drain. */
  lemma {:induction false} RunDrainedAt(slot: Option<Turn>, events: seq<Event>, i: nat)
    requires i < |events| && events[i].Check?
    ensures CountChecks(events[..i]) < |Run(slot, events).drained|
    ensures Run(slot, events).drained[CountChecks(events[..i])] == SlotBefore(slot, events, i)
    decreases |events|
  {
    RunDrainedLength(slot, events);
    if i == 0 {
      assert events[..0] == [];
    } else {
      RunDrainedAt(Written(events[0]), events[1..], i - 1);
      CountChecksPrefix(events, i);
      RunDrainedLength(Written(events[0]), events[1..]);
    }
  }

  /** Two drains in a row with nothing in between: the second yields `None`
      and leaves the slot empty, whatever happened before. */
  lemma DrainTwice(slot: Option<Turn>, events: seq<Event>)
    ensures |Run(slot, events + [Check, Check]).drained| >= 2
    ensures var d := Run(slot, events + [Check, Check]).drained;
            d[|d| - 2] == SlotBefore(slot, events, |events|) && d[|d| - 1] == None
    ensures Run(slot, events + [Check, Check]).slot == None
  {
    var all := events + [Check, Check];
    var n := |events|;
    RunDrainedLength(slot, all);
    RunDrainedAt(slot, all, n);
    RunDrainedAt(slot, all, n + 1);
    CountChecksAppend(events, [Check]);
    CountChecksAppend(events, [Check, Check]);
    assert all[..n] == events;
    assert all[..n + 1] == events + [Check];
    RunSlot(slot, all);
  }

  lemma {:induction false} CountChecksAppend(a: seq<Event>, b: seq<Event>)
    ensures CountChecks(a + b) == CountChecks(a) + CountChecks(b)
    decreases |a|
  {
    if a == [] {
      assert a + b == b;
    } else {
      assert (a + b)[1..] == a[1..] + b;
      CountChecksAppend(a[1..], b);
    }
  }

  /** Overwrite: two notifications before a drain deliver only the second
      classification; the first is lost, never queued. */
  lemma Overwrite(slot: Option<Turn>, events: seq<Event>, first: Event, second: Event)
    requires first.Notify? && second.Notify?
    ensures var d := Run(slot, events + [first, second, Check]).drained;
            |d| >= 1 && d[|d| - 1] == Some(Classify(second.clockHigh, second.dataHigh))
  {
    var all := events + [first, second, Check];
    var n := |events|;
    RunDrainedLength(slot, all);
    RunDrainedAt(slot, all, n + 2);
    CountChecksAppend(events, [first, second, Check]);
    CountChecksAppend(events, [first, second]);
    assert all[..n + 2] == events + [first, second];
    assert all[n + 1] == second;
    assert [first, second, Check][1..] == [second, Check] && [second, Check][1..] == [Check];
    assert [first, second][1..] == [second] && [second][1..] == [] && [Check][1..] == [];
    assert CountChecks([second]) == 0 && CountChecks([Check]) == 1;
  }

  /** No spurious output: from an empty slot, a run without notifications
      drains `None` every time and ends with an empty slot. */
  lemma {:induction false} NoNotifyNoOutput(events: seq<Event>)
    requires forall k :: 0 <= k < |events| ==> events[k].Check?
    ensures Run(None, events).slot == None
    ensures forall k :: 0 <= k < |Run(None, events).drained| ==> Run(None, events).drained[k] == None
    decreases |events|
  {
    if events != [] {
      NoNotifyNoOutput(events[1..]);
    }
  }

  /** A drain delivers a turn exactly when the event just before it was a
      notification, or, for a drain at the very start, when a turn was
      already pending. */
  lemma DeliveredIffNotifiedJustBefore(slot: Option<Turn>, events: seq<Event>, i: nat)
    requires i < |events| && events[i].Check?
    ensures CountChecks(events[..i]) < |Run(slot, events).drained|
    ensures Run(slot, events).drained[CountChecks(events[..i])].Some?
            <==> (i == 0 && slot.Some?) || (i > 0 && events[i - 1].Notify?)
  {
    RunDrainedAt(slot, events, i);
  }

  /** No turn is delivered twice: when a later drain `j` delivers a turn
      after an earlier drain `i`, some notification lies strictly between
      the two, so the second drain does not hand out what the first took. */
  lemma NoDoubleDelivery(slot: Option<Turn>, events: seq<Event>, i: nat, j: nat)
    requires i < j < |events| && events[i].Check? && events[j].Check?
    ensures CountChecks(events[..j]) < |Run(slot, events).drained|
    ensures Run(slot, events).drained[CountChecks(events[..j])].Some?
            ==> exists k :: i < k < j && events[k].Notify?
  {
    DeliveredIffNotifiedJustBefore(slot, events, j);
    if Run(slot, events).drained[CountChecks(events[..j])].Some? {
      assert events[j - 1].Notify?;
      assert i < j - 1;
    }
  }

  /** Counting bound: a run delivers at most one turn per notification, plus
      the one that was already pending when it started. */
  lemma {:induction false} AtMostOncePerNotify(slot: Option<Turn>, events: seq<Event>)
    ensures CountDelivered(Run(slot, events).drained)
            <= CountNotifies(events) + (if slot.Some? then 1 else 0)
    decreases |events|
  {
    if events != [] {
      AtMostOncePerNotify(Written(events[0]), events[1..]);
      if events[0].Check? {
        var rest := Run(None, events[1..]).drained;
        assert ([slot] + rest)[1..] == rest;
      }
    }
  }
}
