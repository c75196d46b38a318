/** The line from a turn to its client: a channel that may fill up, the control
    plane beside it (`src/tool_loop.rs`), and the reader of both
    (`src/server/handlers/chat.rs`).

    The class is the queue behind its lock. `Line` is one sender and one reader
    interleaved step by step around it. */
module ControlPlanes {
  import opened TurnEvents

  /** `resetsBefore` counts the resets pushed before the event was accepted. The
      code does not store it: it is there to state what the order means. */
  datatype Item = Item(event: TurnEvent, resetsBefore: nat)

  /** `after` is the number of channel events to be written first. */
  datatype Parked = Parked(item: Item, after: nat)

  /** `resetQueued`: a reset has ever been pushed. */
  datatype Plane = Plane(resets: seq<TurnEvent>, segments: seq<Parked>, accepted: nat, resetQueued: bool, closed: bool)

  const NEW_PLANE := Plane([], [], 0, false, false)

  /** How many segments at the front are due. */
  function DueCount(segments: seq<Parked>, written: nat): (n: nat)
    ensures n <= |segments|
    ensures forall i :: 0 <= i < n ==> segments[i].after <= written
    ensures n < |segments| ==> segments[n].after > written
  {
    if segments != [] && segments[0].after <= written then 1 + DueCount(segments[1..], written) else 0
  }

  function Items(segments: seq<Parked>): seq<Item> {
    seq(|segments|, i requires 0 <= i < |segments| => segments[i].item)
  }

  function ResetPushed(p: Plane, event: TurnEvent): (Plane, bool) {
    if p.closed then (p, false) else (p.(resets := p.resets + [event], resetQueued := true), true)
  }

  function Noted(p: Plane): Plane { p.(accepted := p.accepted + 1) }

  function SegmentParked(p: Plane, item: Item): (Plane, bool) {
    if p.closed then (p, false) else (p.(segments := p.segments + [Parked(item, p.accepted)]), true)
  }

  function ResetsDrained(p: Plane): (Plane, seq<TurnEvent>) { (p.(resets := []), p.resets) }

  /** The first `n` segments are taken. */
  function FrontTaken(p: Plane, n: nat): (Plane, seq<Item>)
    requires n <= |p.segments|
  {
    (p.(segments := p.segments[n..]), Items(p.segments[..n]))
  }

  class ControlPlane {
    var resets: seq<TurnEvent>
    var segments: seq<Parked>
    var accepted: nat
    var resetQueued: bool
    var closed: bool

    function State(): Plane
      reads this
    {
      Plane(resets, segments, accepted, resetQueued, closed)
    }

    constructor ()
      ensures State() == NEW_PLANE
    {
      resets, segments, accepted, resetQueued, closed := [], [], 0, false, false;
    }

    method PushReset(event: TurnEvent) returns (ok: bool)
      modifies `resets, `resetQueued
      ensures (State(), ok) == ResetPushed(old(State()), event)
    {
      if closed {
        return false;
      }
      resets := resets + [event];
      resetQueued := true;
      return true;
    }

    method NoteAccepted()
      modifies `accepted
      ensures State() == Noted(old(State()))
    {
      accepted := accepted + 1;
    }

    method PushSegment(item: Item) returns (ok: bool)
      modifies `segments
      ensures (State(), ok) == SegmentParked(old(State()), item)
    {
      if closed {
        return false;
      }
      segments := segments + [Parked(item, accepted)];
      return true;
    }

    method DrainResets() returns (drained: seq<TurnEvent>)
      modifies `resets
      ensures (State(), drained) == ResetsDrained(old(State()))
    {
      drained, resets := resets, [];
    }

    method TakeDue(written: nat) returns (due: seq<Item>)
      modifies `segments
      ensures (State(), due) == FrontTaken(old(State()), DueCount(old(segments), written))
    {
      due := [];
      ghost var taken := 0;
      while segments != [] && segments[0].after <= written
        invariant taken <= |old(segments)|
        invariant segments == old(segments)[taken..]
        invariant due == Items(old(segments)[..taken])
        invariant DueCount(old(segments), written) == taken + DueCount(segments, written)
        decreases |segments|
      {
        assert old(segments)[taken..][1..] == old(segments)[taken + 1..];
        due := due + [segments[0].item];
        segments := segments[1..];
        taken := taken + 1;
      }
      assert DueCount(segments, written) == 0;
    }

    method Close()
      modifies `closed
      ensures State() == old(State()).(closed := true)
    {
      closed := true;
    }
  }

  // ---- One sender, one reader ----

  /** Where the reader stands in its loop. */
  datatype Reader =
    | Top                     // about to drain resets
    | Drained                 // about to take due segments
    | Waiting                 // in the select
    | Got(item: Item)         // received an event, about to drain resets
    | GotDrained(item: Item)  // about to take due segments
    | Writing(item: Item)     // about to write the event
    | Ending                  // the channel closed, about to drain resets
    | EndingDrained           // about to take every segment left
    | Ended

  datatype Output = Sent(item: Item) | Void(event: TurnEvent)

  datatype Line = Line(
    capacity: nat,
    channel: seq<Item>,
    sending: seq<Item>,       // reserved and counted, not sent yet: at most one
    senderDone: bool,
    plane: Plane,
    reader: Reader,
    written: nat,
    resetSent: bool,          // the reader has written a reset
    wire: seq<Output>,
    log: seq<Item>,           // everything accepted but resets, in order
    resetLog: seq<TurnEvent>)

  ghost predicate Init(s: Line) {
    s.capacity > 0 && s == Line(s.capacity, [], [], false, NEW_PLANE, Top, 0, false, [], [], [])
  }

  datatype Step =
    | Deliver(event: TurnEvent)
    | Send
    | SenderEnds
    | Read

  predicate Full(s: Line) { |s.channel| + |s.sending| >= s.capacity }

  predicate Enabled(s: Line, step: Step) {
    match step
    case Deliver(_) => s.sending == [] && !s.senderDone
    case Send => s.sending != []
    case SenderEnds => s.sending == [] && !s.senderDone
    case Read => true
  }

  /** What `ProgressSink::deliver` returns with a control plane attached. */
  predicate Delivers(s: Line, event: TurnEvent) { event.Reset? || event.Segment? || !Full(s) }

  /** `ProgressSink::deliver`: a reset goes to the plane, any other event to the
      channel, and a segment that does not fit there to the plane. */
  function Delivered(s: Line, event: TurnEvent): Line {
    var item := Item(event, |s.resetLog|);
    if event.Reset? then s.(plane := ResetPushed(s.plane, event).0, resetLog := s.resetLog + [event])
    else if !Full(s) then s.(plane := Noted(s.plane), sending := [item], log := s.log + [item])
    else if event.Segment? then s.(plane := SegmentParked(s.plane, item).0, log := s.log + [item])
    else s
  }

  function Voids(resets: seq<TurnEvent>): seq<Output> {
    seq(|resets|, i requires 0 <= i < |resets| => Void(resets[i]))
  }

  function Sents(items: seq<Item>): seq<Output> {
    seq(|items|, i requires 0 <= i < |items| => Sent(items[i]))
  }

  function Drain(s: Line): Line {
    var (plane, resets) := ResetsDrained(s.plane);
    s.(plane := plane, wire := s.wire + Voids(resets), resetSent := s.resetSent || resets != [])
  }

  function Take(s: Line, n: nat): Line
    requires n <= |s.plane.segments|
  {
    var (plane, due) := FrontTaken(s.plane, n);
    s.(plane := plane, wire := s.wire + Sents(due))
  }

  function Received(s: Line): Line
    requires s.channel != []
  {
    s.(channel := s.channel[1..], reader := Got(s.channel[0]))
  }

  function Written(s: Line): Line
    requires s.reader.Writing?
  {
    s.(wire := s.wire + [Sent(s.reader.item)], written := s.written + 1, reader := Top)
  }

  /** One step of the reader. When the select wakes without an event it goes
      round again; it may prefer a wake-up to an event. */
  predicate ReaderStep(s: Line, t: Line) {
    var due := DueCount(s.plane.segments, s.written);
    match s.reader
    case Top => t == Drain(s).(reader := Drained)
    case Drained => t == Take(s, due).(reader := Waiting)
    case Waiting =>
      || t == s.(reader := Top)
      || (s.channel != [] && t == Received(s))
      || (s.channel == [] && s.senderDone && t == s.(reader := Ending))
    case Got(item) => t == Drain(s).(reader := GotDrained(item))
    case GotDrained(item) => t == Take(s, due).(reader := Writing(item))
    case Writing(_) => t == Written(s)
    case Ending => t == Drain(s).(reader := EndingDrained)
    case EndingDrained => t == Take(s, |s.plane.segments|).(reader := Ended)
    case Ended => t == s
  }

  ghost predicate Next(s: Line, step: Step, t: Line) {
    && Enabled(s, step)
    && match step
       case Deliver(event) => t == Delivered(s, event)
       case Send => t == s.(channel := s.channel + s.sending, sending := [])
       case SenderEnds => t == s.(senderDone := true)
       case Read => ReaderStep(s, t)
  }

  ghost predicate IsRun(run: seq<Line>, steps: seq<Step>) {
    && |run| == |steps| + 1 && Init(run[0])
    && forall i :: 0 <= i < |steps| ==> Next(run[i], steps[i], run[i + 1])
  }

  // ---- What is still to be written ----

  function InHand(r: Reader): seq<Item> {
    if r.Got? || r.GotDrained? || r.Writing? then [r.item] else []
  }

  function Pipeline(s: Line): seq<Item> { InHand(s.reader) + s.channel + s.sending }

  /** Channel events and parked segments in the order they are to be written. */
  function Merge(events: seq<Item>, segments: seq<Parked>, written: nat): seq<Item>
    decreases |events| + |segments|
  {
    if segments != [] && (segments[0].after <= written || events == []) then
      [segments[0].item] + Merge(events, segments[1..], written)
    else if events != [] then [events[0]] + Merge(events[1..], segments, written + 1)
    else []
  }

  function SentItems(wire: seq<Output>): seq<Item> {
    if wire == [] then []
    else SentItems(wire[..|wire| - 1]) + if wire[|wire| - 1].Sent? then [wire[|wire| - 1].item] else []
  }

  function VoidEvents(wire: seq<Output>): seq<TurnEvent> {
    if wire == [] then []
    else VoidEvents(wire[..|wire| - 1]) + if wire[|wire| - 1].Void? then [wire[|wire| - 1].event] else []
  }

  /** Every event on the wire follows the resets pushed before it. */
  ghost predicate ResetsFirst(wire: seq<Output>) {
    forall k :: 0 <= k < |wire| && wire[k].Sent? ==> wire[k].item.resetsBefore <= |VoidEvents(wire[..k])|
  }

  predicate Sorted(segments: seq<Parked>) {
    forall i, j :: 0 <= i < j < |segments| ==> segments[i].after <= segments[j].after
  }

  /** Between a drain and the next write, whatever may be written has all its
      resets on the wire. */
  ghost predicate DueAreCovered(s: Line) {
    var n := |VoidEvents(s.wire)|;
    && (s.reader.Drained? || s.reader.GotDrained? || s.reader.EndingDrained? ==>
          forall i :: 0 <= i < |s.plane.segments| ==>
            (s.plane.segments[i].after <= s.written || s.reader.EndingDrained? ==>
               s.plane.segments[i].item.resetsBefore <= n))
    && (s.reader.GotDrained? || s.reader.Writing? ==> s.reader.item.resetsBefore <= n)
    && (s.reader.EndingDrained? || s.reader.Ended? ==> s.plane.resets == [])
  }

  ghost predicate Stamped(s: Line) {
    && (forall i :: 0 <= i < |Pipeline(s)| ==> Pipeline(s)[i].resetsBefore <= |s.resetLog|)
    && (forall i :: 0 <= i < |s.plane.segments| ==> s.plane.segments[i].item.resetsBefore <= |s.resetLog|)
  }

  ghost predicate Counted(s: Line) {
    && s.capacity > 0 && |s.sending| <= 1
    && s.plane.accepted == s.written + |Pipeline(s)|
    && Sorted(s.plane.segments)
    && (forall i :: 0 <= i < |s.plane.segments| ==> s.plane.segments[i].after <= s.plane.accepted)
    && (s.reader.Writing? ==> forall i :: 0 <= i < |s.plane.segments| ==> s.plane.segments[i].after > s.written)
    && (s.senderDone ==> s.sending == [])
    && (s.reader.Ending? || s.reader.EndingDrained? || s.reader.Ended? ==> s.senderDone && s.channel == [])
    && (s.reader.Ended? ==> s.plane.segments == []) && !s.plane.closed
  }

  /** The wire and what is still to be written make up the log. */
  ghost predicate Ordered(s: Line) {
    s.log == SentItems(s.wire) + Merge(Pipeline(s), s.plane.segments, s.written)
  }

  ghost predicate ResetsOrdered(s: Line) {
    && s.resetLog == VoidEvents(s.wire) + s.plane.resets
    && (s.plane.resetQueued <==> s.resetLog != []) && (s.resetSent <==> VoidEvents(s.wire) != [])
    && Stamped(s) && DueAreCovered(s) && ResetsFirst(s.wire)
  }

  ghost predicate Inv(s: Line) { Counted(s) && Ordered(s) && ResetsOrdered(s) }

  // ---- The wire ----

  lemma {:induction false} WireAppend(wire: seq<Output>, more: seq<Output>)
    ensures SentItems(wire + more) == SentItems(wire) + SentItems(more)
    ensures VoidEvents(wire + more) == VoidEvents(wire) + VoidEvents(more)
    decreases |more|
  {
    if more == [] {
      assert wire + more == wire;
    } else {
      assert (wire + more)[..|wire + more| - 1] == wire + more[..|more| - 1];
      WireAppend(wire, more[..|more| - 1]);
    }
  }

  lemma {:induction false} SentsOnWire(items: seq<Item>)
    ensures SentItems(Sents(items)) == items && VoidEvents(Sents(items)) == []
  {
    if items != [] {
      assert Sents(items)[..|items| - 1] == Sents(items[..|items| - 1]);
      SentsOnWire(items[..|items| - 1]);
    }
  }

  lemma {:induction false} VoidsOnWire(resets: seq<TurnEvent>)
    ensures SentItems(Voids(resets)) == [] && VoidEvents(Voids(resets)) == resets
  {
    if resets != [] {
      assert Voids(resets)[..|resets| - 1] == Voids(resets[..|resets| - 1]);
      VoidsOnWire(resets[..|resets| - 1]);
    }
  }

  lemma SendsAppend(wire: seq<Output>, items: seq<Item>)
    ensures SentItems(wire + Sents(items)) == SentItems(wire) + items
    ensures VoidEvents(wire + Sents(items)) == VoidEvents(wire)
  {
    WireAppend(wire, Sents(items));
    SentsOnWire(items);
  }

  lemma SendsFollowResets(wire: seq<Output>, items: seq<Item>)
    requires ResetsFirst(wire)
    requires forall i :: 0 <= i < |items| ==> items[i].resetsBefore <= |VoidEvents(wire)|
    ensures ResetsFirst(wire + Sents(items))
  {
    var all := wire + Sents(items);
    forall k | 0 <= k < |all| && all[k].Sent?
      ensures all[k].item.resetsBefore <= |VoidEvents(all[..k])|
    {
      if k < |wire| {
        assert all[..k] == wire[..k];
      } else {
        assert all[..k] == wire + Sents(items)[..k - |wire|];
        WireAppend(wire, Sents(items)[..k - |wire|]);
      }
    }
  }

  lemma WireVoids(wire: seq<Output>, resets: seq<TurnEvent>)
    requires ResetsFirst(wire)
    ensures ResetsFirst(wire + Voids(resets))
    ensures SentItems(wire + Voids(resets)) == SentItems(wire)
    ensures VoidEvents(wire + Voids(resets)) == VoidEvents(wire) + resets
  {
    WireAppend(wire, Voids(resets));
    VoidsOnWire(resets);
    var all := wire + Voids(resets);
    assert forall k :: 0 <= k < |all| && all[k].Sent? ==> k < |wire| && all[..k] == wire[..k];
  }

  // ---- The merge ----

  lemma {:induction false} MergeEvent(events: seq<Item>, segments: seq<Parked>, written: nat, e: Item)
    requires forall i :: 0 <= i < |segments| ==> segments[i].after <= written + |events|
    ensures Merge(events + [e], segments, written) == Merge(events, segments, written) + [e]
    decreases |events| + |segments|
  {
    if segments != [] && (segments[0].after <= written || events == []) {
      MergeEvent(events, segments[1..], written, e);
    } else if events != [] {
      assert (events + [e])[1..] == events[1..] + [e];
      MergeEvent(events[1..], segments, written + 1, e);
    } else {
      assert Merge([e], segments, written) == [e] + Merge([], [], written + 1);
    }
  }

  lemma {:induction false} MergeSegment(events: seq<Item>, segments: seq<Parked>, written: nat, p: Parked)
    requires forall i :: 0 <= i < |segments| ==> segments[i].after <= p.after
    requires p.after == written + |events|
    ensures Merge(events, segments + [p], written) == Merge(events, segments, written) + [p.item]
    decreases |events| + |segments|
  {
    if segments != [] && (segments[0].after <= written || events == []) {
      assert (segments + [p])[1..] == segments[1..] + [p];
      MergeSegment(events, segments[1..], written, p);
    } else if events != [] {
      MergeSegment(events[1..], segments, written + 1, p);
    } else {
      assert segments + [p] == [p] && [p][1..] == [];
    }
  }

  lemma FrontItem(segments: seq<Parked>, n: nat)
    requires 0 < n <= |segments|
    ensures Items(segments[..n]) == [segments[0].item] + Items(segments[1..][..n - 1])
    ensures segments[1..][n - 1..] == segments[n..]
  {
  }

  lemma {:induction false} MergeTake(events: seq<Item>, segments: seq<Parked>, written: nat, n: nat)
    requires n == DueCount(segments, written) || (events == [] && n == |segments|)
    ensures Merge(events, segments, written) == Items(segments[..n]) + Merge(events, segments[n..], written)
    decreases |segments|
  {
    if n == 0 {
      assert segments[0..] == segments && Items(segments[..0]) == [];
    } else {
      FrontItem(segments, n);
      var tail := segments[1..];
      MergeTake(events, tail, written, n - 1);
      var front, rest := Items(tail[..n - 1]), Merge(events, segments[n..], written);
      assert [segments[0].item] + (front + rest) == [segments[0].item] + front + rest;
    }
  }

  // ---- Every step keeps the invariant ----

  lemma AcceptKeepsInv(s: Line, event: TurnEvent)
    requires Inv(s) && Enabled(s, Deliver(event)) && !event.Reset? && !Full(s)
    ensures Inv(Delivered(s, event))
  {
    var t := Delivered(s, event);
    var item := Item(event, |s.resetLog|);
    assert Pipeline(t) == Pipeline(s) + [item];
    MergeEvent(Pipeline(s), s.plane.segments, s.written, item);
    assert Ordered(t) by {
      var sent, left := SentItems(s.wire), Merge(Pipeline(s), s.plane.segments, s.written);
      assert sent + left + [item] == sent + (left + [item]);
    }
  }

  lemma ParkKeepsInv(s: Line, event: TurnEvent)
    requires Inv(s) && Enabled(s, Deliver(event)) && event.Segment? && Full(s)
    ensures Inv(Delivered(s, event))
  {
    hide ResetsFirst, DueCount, Merge, SentItems;
    var t := Delivered(s, event);
    var item := Item(event, |s.resetLog|);
    assert Pipeline(t) == Pipeline(s);
    ParkKeepsOrdered(s, event);
    ParkKeepsCounted(s, event);
    hide Counted, Ordered;
    assert ResetsOrdered(t);
  }

  lemma ParkKeepsCounted(s: Line, event: TurnEvent)
    requires Counted(s) && Enabled(s, Deliver(event)) && event.Segment? && Full(s)
    ensures Counted(Delivered(s, event))
  {
    assert Pipeline(Delivered(s, event)) == Pipeline(s);
  }

  lemma ParkKeepsOrdered(s: Line, event: TurnEvent)
    requires Counted(s) && Ordered(s) && event.Segment? && Full(s)
    ensures Ordered(Delivered(s, event))
  {
    hide SentItems;
    var item := Item(event, |s.resetLog|);
    assert Pipeline(Delivered(s, event)) == Pipeline(s);
    MergeSegment(Pipeline(s), s.plane.segments, s.written, Parked(item, s.plane.accepted));
    var sent, left := SentItems(s.wire), Merge(Pipeline(s), s.plane.segments, s.written);
    assert sent + left + [item] == sent + (left + [item]);
  }

  lemma DeliverKeepsInv(s: Line, event: TurnEvent)
    requires Inv(s) && Enabled(s, Deliver(event))
    ensures Inv(Delivered(s, event))
  {
    if event.Reset? {
      assert Pipeline(Delivered(s, event)) == Pipeline(s);
    } else if !Full(s) {
      AcceptKeepsInv(s, event);
    } else if event.Segment? {
      ParkKeepsInv(s, event);
    }
  }

  lemma SendKeepsInv(s: Line)
    requires Inv(s) && Enabled(s, Send)
    ensures Inv(s.(channel := s.channel + s.sending, sending := []))
  {
    assert Pipeline(s.(channel := s.channel + s.sending, sending := [])) == Pipeline(s);
  }

  lemma DrainKeepsInv(s: Line, reader: Reader)
    requires Inv(s)
    requires || (s.reader.Top? && reader.Drained?)
             || (s.reader.Got? && reader == GotDrained(s.reader.item))
             || (s.reader.Ending? && reader.EndingDrained?)
    ensures Inv(Drain(s).(reader := reader))
  {
    var t := Drain(s).(reader := reader);
    WireVoids(s.wire, s.plane.resets);
    assert Pipeline(t) == Pipeline(s);
    if s.reader.Got? {
      assert Pipeline(s)[0] == s.reader.item;
    }
  }

  /** The reader's state after a take. */
  ghost predicate Takes(s: Line, n: nat, reader: Reader) {
    || (s.reader.Drained? && reader.Waiting? && n == DueCount(s.plane.segments, s.written))
    || (s.reader.GotDrained? && reader == Writing(s.reader.item) && n == DueCount(s.plane.segments, s.written))
    || (s.reader.EndingDrained? && reader.Ended? && n == |s.plane.segments|)
  }

  lemma TakeKeepsCounted(s: Line, n: nat, reader: Reader)
    requires Counted(s) && Takes(s, n, reader)
    ensures Counted(Take(s, n).(reader := reader))
  {
    TakeLeaves(s.plane.segments, s.written, n);
    assert Pipeline(Take(s, n).(reader := reader)) == Pipeline(s);
  }

  lemma TakeKeepsOrdered(s: Line, n: nat, reader: Reader)
    requires Counted(s) && Ordered(s) && Takes(s, n, reader)
    ensures Ordered(Take(s, n).(reader := reader))
  {
    assert Pipeline(Take(s, n).(reader := reader)) == Pipeline(s);
    TakeIsOrdered(SentItems(s.wire), Pipeline(s), s.plane.segments, s.written, n);
    SendsAppend(s.wire, Items(s.plane.segments[..n]));
  }

  lemma TakeKeepsResets(s: Line, n: nat, reader: Reader)
    requires ResetsOrdered(s) && Takes(s, n, reader)
    ensures ResetsOrdered(Take(s, n).(reader := reader))
  {
    hide SentItems, VoidEvents, ResetsFirst, DueCount;
    var t, items := Take(s, n).(reader := reader), Items(s.plane.segments[..n]);
    assert Pipeline(t) == Pipeline(s);
    TakeIsCovered(s, n);
    SendsAppend(s.wire, items);
    SendsFollowResets(s.wire, items);
    assert forall i :: 0 <= i < |t.plane.segments| ==> t.plane.segments[i] == s.plane.segments[i + n];
  }

  lemma TakeKeepsInv(s: Line, n: nat, reader: Reader)
    requires Inv(s) && Takes(s, n, reader)
    ensures Inv(Take(s, n).(reader := reader))
  {
    TakeKeepsCounted(s, n, reader);
    TakeKeepsOrdered(s, n, reader);
    TakeKeepsResets(s, n, reader);
  }

  lemma TakeIsOrdered(sent: seq<Item>, events: seq<Item>, segments: seq<Parked>, written: nat, n: nat)
    requires n == DueCount(segments, written) || (events == [] && n == |segments|)
    ensures sent + Merge(events, segments, written)
         == sent + Items(segments[..n]) + Merge(events, segments[n..], written)
  {
    MergeTake(events, segments, written, n);
    var items, rest := Items(segments[..n]), Merge(events, segments[n..], written);
    assert sent + (items + rest) == sent + items + rest;
  }

  lemma TakeIsCovered(s: Line, n: nat)
    requires DueAreCovered(s) && n <= |s.plane.segments|
    requires s.reader.Drained? || s.reader.GotDrained? || s.reader.EndingDrained?
    requires s.reader.EndingDrained? || n == DueCount(s.plane.segments, s.written)
    ensures var items := Items(s.plane.segments[..n]);
            forall i :: 0 <= i < |items| ==> items[i].resetsBefore <= |VoidEvents(s.wire)|
  {
  }

  lemma TakeLeaves(segments: seq<Parked>, written: nat, n: nat)
    requires n <= |segments| && Sorted(segments)
    ensures Sorted(segments[n..])
    ensures n == DueCount(segments, written) ==>
              forall i :: 0 <= i < |segments[n..]| ==> segments[n..][i].after > written
  {
  }

  lemma ReceiveKeepsInv(s: Line)
    requires Inv(s) && s.reader.Waiting? && s.channel != []
    ensures Inv(Received(s))
  {
    hide SentItems, VoidEvents, ResetsFirst, DueCount, Merge, Counted, ResetsOrdered;
    assert Pipeline(Received(s)) == Pipeline(s);
    ReceiveKeepsCounted(s);
    ReceiveKeepsResets(s);
  }

  lemma ReceiveKeepsCounted(s: Line)
    requires Counted(s) && s.reader.Waiting? && s.channel != []
    ensures Counted(Received(s))
  {
    hide DueCount;
    assert Pipeline(Received(s)) == Pipeline(s);
  }

  lemma ReceiveKeepsResets(s: Line)
    requires ResetsOrdered(s) && s.reader.Waiting? && s.channel != []
    ensures ResetsOrdered(Received(s))
  {
    hide SentItems, VoidEvents, ResetsFirst, DueCount;
    assert Pipeline(Received(s)) == Pipeline(s);
  }

  lemma WriteKeepsInv(s: Line)
    requires Inv(s) && s.reader.Writing?
    ensures Inv(Written(s))
  {
    assert Pipeline(s) == [s.reader.item] + Pipeline(Written(s));
    WriteKeepsOrdered(s);
    WriteKeepsResets(s);
  }

  lemma WriteKeepsOrdered(s: Line)
    requires Counted(s) && Ordered(s) && s.reader.Writing?
    ensures Ordered(Written(s))
  {
    hide SentItems;
    var item, t := s.reader.item, Written(s);
    assert Pipeline(s) == [item] + Pipeline(t);
    assert Pipeline(s)[1..] == Pipeline(t) && Sents([item]) == [Sent(item)];
    SendsAppend(s.wire, [item]);
    var sent, left := SentItems(s.wire), Merge(Pipeline(t), s.plane.segments, t.written);
    assert Merge(Pipeline(s), s.plane.segments, s.written) == [item] + left;
    assert sent + ([item] + left) == sent + [item] + left;
  }

  lemma WriteKeepsResets(s: Line)
    requires ResetsOrdered(s) && s.reader.Writing?
    ensures ResetsOrdered(Written(s))
  {
    hide SentItems, VoidEvents, ResetsFirst;
    var item, t := s.reader.item, Written(s);
    assert Pipeline(s) == [item] + Pipeline(t) && Sents([item]) == [Sent(item)];
    SendsAppend(s.wire, [item]);
    SendsFollowResets(s.wire, [item]);
    assert forall i :: 0 <= i < |Pipeline(t)| ==> Pipeline(t)[i] == Pipeline(s)[i + 1];
  }

  lemma StepKeepsInv(s: Line, step: Step, t: Line)
    requires Inv(s) && Next(s, step, t)
    ensures Inv(t)
  {
    match step
    case Deliver(event) => DeliverKeepsInv(s, event);
    case Send => SendKeepsInv(s);
    case SenderEnds => assert Pipeline(t) == Pipeline(s);
    case Read => ReadKeepsInv(s, t);
  }

  lemma ReadKeepsInv(s: Line, t: Line)
    requires Inv(s) && ReaderStep(s, t)
    ensures Inv(t)
  {
    match s.reader {
      case Top => DrainKeepsInv(s, Drained);
      case Drained => TakeKeepsInv(s, DueCount(s.plane.segments, s.written), Waiting);
      case Waiting =>
        if s.channel != [] && t != s.(reader := Top) {
          ReceiveKeepsInv(s);
        } else {
          IdleKeepsInv(s, t);
        }
      case Got(item) => DrainKeepsInv(s, GotDrained(item));
      case GotDrained(item) => TakeKeepsInv(s, DueCount(s.plane.segments, s.written), Writing(item));
      case Writing(_) => WriteKeepsInv(s);
      case Ending => DrainKeepsInv(s, EndingDrained);
      case EndingDrained => TakeKeepsInv(s, |s.plane.segments|, Ended);
      case Ended =>
    }
  }

  lemma IdleKeepsInv(s: Line, t: Line)
    requires Inv(s) && s.reader.Waiting?
    requires t == s.(reader := Top) || (t == s.(reader := Ending) && s.channel == [] && s.senderDone)
    ensures Inv(t)
  {
    assert Pipeline(t) == Pipeline(s);
  }

  lemma {:induction false} RunKeepsInv(run: seq<Line>, steps: seq<Step>, n: nat)
    requires IsRun(run, steps) && n <= |steps|
    ensures Inv(run[n])
  {
    if n > 0 {
      RunKeepsInv(run, steps, n - 1);
      StepKeepsInv(run[n - 1], steps[n - 1], run[n]);
    }
  }

  /** In every interleaving, at every point: the events on the wire, resets
      aside, are the first of those accepted, in the order they were accepted;
      resets come in their own order; and every event follows the resets pushed
      before it was accepted. */
  lemma WireKeepsOrder(run: seq<Line>, steps: seq<Step>, n: nat)
    requires IsRun(run, steps) && n <= |steps|
    ensures SentItems(run[n].wire) <= run[n].log
    ensures VoidEvents(run[n].wire) <= run[n].resetLog
    ensures ResetsFirst(run[n].wire)
  {
    RunKeepsInv(run, steps, n);
  }

  /** Once the reader has ended, nothing accepted is missing. */
  lemma NothingIsLost(run: seq<Line>, steps: seq<Step>, n: nat)
    requires IsRun(run, steps) && n <= |steps| && run[n].reader.Ended?
    ensures SentItems(run[n].wire) == run[n].log
    ensures VoidEvents(run[n].wire) == run[n].resetLog
  {
    RunKeepsInv(run, steps, n);
  }

  /** The error "reset was not delivered" is never what ends the stream: by the
      time the reader ends, it has written a reset exactly when one was queued. */
  lemma NoResetIsUndelivered(run: seq<Line>, steps: seq<Step>, n: nat)
    requires IsRun(run, steps) && n <= |steps| && run[n].reader.Ended?
    ensures run[n].plane.resetQueued <==> run[n].resetSent
    ensures run[n].resetSent <==> run[n].resetLog != []
  {
    RunKeepsInv(run, steps, n);
  }

  // ---- A closed plane ----

  datatype Call =
    | PushReset(event: TurnEvent)
    | NoteAccepted
    | PushSegment(item: Item)
    | DrainResets
    | TakeFront(n: nat)
    | Close

  /** The plane after a call, and whether it took what it was given. */
  function Called(p: Plane, call: Call): (Plane, bool) {
    match call
    case PushReset(event) => ResetPushed(p, event)
    case NoteAccepted => (Noted(p), true)
    case PushSegment(item) => SegmentParked(p, item)
    case DrainResets => (ResetsDrained(p).0, true)
    case TakeFront(n) => (if n <= |p.segments| then FrontTaken(p, n).0 else p, true)
    case Close => (p.(closed := true), true)
  }

  function CalledAll(p: Plane, calls: seq<Call>): Plane
    decreases |calls|
  {
    if calls == [] then p else CalledAll(Called(p, calls[0]).0, calls[1..])
  }

  /** `q` is closed, and holds no more than what was left of what `p` held. */
  predicate LeftOf(p: Plane, q: Plane) {
    && q.closed && q.resetQueued == p.resetQueued && (q.resets == p.resets || q.resets == [])
    && |q.segments| <= |p.segments| && q.segments == p.segments[|p.segments| - |q.segments|..]
  }

  /** Once closed, a plane takes no reset and no segment, whatever is called. */
  lemma {:induction false} ClosedTakesNothing(p: Plane, calls: seq<Call>)
    requires p.closed
    ensures LeftOf(p, CalledAll(p, calls))
    decreases |calls|
  {
    if calls != [] {
      hide Called, LeftOf;
      var next := Called(p, calls[0]).0;
      ClosedStep(p, calls[0]);
      ClosedTakesNothing(next, calls[1..]);
      LeftOfLeft(p, next, CalledAll(next, calls[1..]));
    }
  }

  lemma ClosedStep(p: Plane, call: Call)
    requires p.closed
    ensures Called(p, call).0.closed && LeftOf(p, Called(p, call).0)
  {
  }

  lemma LeftOfLeft(p: Plane, q: Plane, r: Plane)
    requires LeftOf(p, q) && LeftOf(q, r)
    ensures LeftOf(p, r)
  {
  }

  /** Taking from the front never leaves a due segment behind. */
  lemma FrontHidesNothing(run: seq<Line>, steps: seq<Step>, n: nat, i: nat)
    requires IsRun(run, steps) && n <= |steps|
    requires var s := run[n]; DueCount(s.plane.segments, s.written) <= i < |s.plane.segments|
    ensures run[n].plane.segments[i].after > run[n].written
  {
    RunKeepsInv(run, steps, n);
  }
}
