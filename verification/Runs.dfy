/** Whole runs of the processor: what is accepted, what is final, and why redelivery is harmless. */
module Runs {
  import opened Domain
  import opened Schema
  import opened Processor
  import opened Invariants
  import opened Steps

  // ----- the events that count -----

  /** For each event id the first valid event delivered under it, whatever came later. */
  function Accepted(events: seq<OrderEvent>): map<EventId, OrderEvent>
    decreases |events|
  {
    if events == [] then map[]
    else
      var n := |events| - 1;
      var before := Accepted(events[..n]);
      match ValidateEvent(events[n])
      case Valid(e) => if e.eventId in before then before else before[e.eventId := e]
      case Rejected(_) => before
  }

  /** The accepted events in the order of their first delivery. */
  function FirstDeliveries(events: seq<OrderEvent>): seq<OrderEvent>
    decreases |events|
  {
    if events == [] then []
    else
      var n := |events| - 1;
      FirstDeliveries(events[..n]) +
      match ValidateEvent(events[n])
      case Valid(e) => if e.eventId in Accepted(events[..n]) then [] else [e]
      case Rejected(_) => []
  }

  /** The tables speak about exactly these events, with their order, status, time and payload. */
  ghost predicate Faithful(t: Tables, accepted: map<EventId, OrderEvent>) {
    && (forall id :: id in t.processed <==> id in accepted)
    && (forall id :: id in accepted ==> Matches(t.processed[id], id, accepted[id]))
    && (forall id :: id in t.pending ==> id in accepted && PendingEvent(t.pending, id) == accepted[id])
    && (forall i :: 0 <= i < |t.deadLetters| ==> LetterMatches(t.deadLetters[i], accepted))
  }

  predicate Matches(row: ProcessedRow, id: EventId, e: OrderEvent) {
    IsNormal(e) && e.eventId == id && row.orderId == e.orderId && row.status == e.status && row.timestamp == e.timestamp
  }

  predicate LetterMatches(row: DeadLetterRow, accepted: map<EventId, OrderEvent>) {
    row.eventId in accepted && row.payload == accepted[row.eventId].payload
  }

  lemma RouteKeepsFaithful(t: Tables, e: OrderEvent, current: Status, accepted: map<EventId, OrderEvent>)
    requires Faithful(t, accepted) && IsNormal(e)
    requires e.eventId in accepted ==> accepted[e.eventId] == e
    ensures Faithful(Route(t, e, current), accepted[e.eventId := e])
  {
    var t', accepted' := Route(t, e, current), accepted[e.eventId := e];
    forall i | 0 <= i < |t'.deadLetters|
      ensures LetterMatches(t'.deadLetters[i], accepted')
    {
      assert i < |t.deadLetters| ==> LetterMatches(t.deadLetters[i], accepted);
    }
  }

  lemma {:induction false} ReplayKeepsFaithful(
      t: Tables, queue: seq<OrderEvent>, current: Status, o: OrderId, accepted: map<EventId, OrderEvent>)
    requires Faithful(t, accepted) && IsDeferred(t, queue, o)
    ensures Faithful(Replay(t, queue, current).tables, accepted)
    decreases |queue|
  {
    if queue != [] && Classify(current, queue[0].status) != OutOfOrder {
      var e := queue[0];
      assert IsPendingFor(t.pending, o, e.eventId);
      RouteKeepsFaithful(t, e, current, accepted);
      assert accepted[e.eventId := e] == accepted;
      RouteShortensQueue(t, queue, o, current);
      ReplayKeepsFaithful(Route(t, e, current), queue[1..], NextStatus(current, e), o, accepted);
    }
  }

  lemma StepKeepsFaithful(t: Tables, e: OrderEvent, accepted: map<EventId, OrderEvent>)
    requires Faithful(t, accepted) && IsNormal(e)
    ensures Faithful(Step(t, e).tables, if e.eventId in accepted then accepted else accepted[e.eventId := e])
  {
    if e.eventId !in t.processed {
      var current := CurrentStatus(t, e.orderId);
      var t1 := Route(t, e, current);
      RouteKeepsFaithful(t, e, current, accepted);
      if Classify(current, e.status) == Applied {
        QueueIsDeferred(t1, e.orderId);
        ReplayKeepsFaithful(t1, Queue(t1.pending, PendingIds(t1.pending, e.orderId)), e.status, e.orderId,
                            accepted[e.eventId := e]);
      }
    }
  }

  /** After any run the tables hold exactly the accepted events, unaltered by later deliveries. */
  lemma {:induction false} RunIsFaithful(events: seq<OrderEvent>)
    ensures Faithful(Run(EMPTY_TABLES, events), Accepted(events))
    decreases |events|
  {
    if events != [] {
      var n := |events| - 1;
      RunIsFaithful(events[..n]);
      if ValidateEvent(events[n]).Valid? {
        ValidationNormalizes(events[n]);
        StepKeepsFaithful(Run(EMPTY_TABLES, events[..n]), ValidateEvent(events[n]).event, Accepted(events[..n]));
      }
    }
  }

  // ----- redelivery -----

  ghost predicate AreAccepted(events: seq<OrderEvent>, accepted: map<EventId, OrderEvent>) {
    forall i :: 0 <= i < |events| ==>
      events[i].eventId in accepted && accepted[events[i].eventId] == events[i] && IsNormal(events[i])
  }

  lemma OneMoreFirstDelivery(before: seq<OrderEvent>, accepted: map<EventId, OrderEvent>, e: OrderEvent)
    requires AreAccepted(before, accepted) && e.eventId !in accepted && IsNormal(e)
    requires forall i, j :: 0 <= i < j < |before| ==> before[i].eventId != before[j].eventId
    ensures AreAccepted(before + [e], accepted[e.eventId := e])
    ensures forall i, j :: 0 <= i < j < |before + [e]| ==> (before + [e])[i].eventId != (before + [e])[j].eventId
  {
    forall i | 0 <= i < |before|
      ensures before[i].eventId != e.eventId
    {
      assert before[i].eventId in accepted;
    }
  }

  lemma {:induction false} FirstDeliveriesAreAccepted(events: seq<OrderEvent>)
    ensures var first := FirstDeliveries(events);
            && AreAccepted(first, Accepted(events))
            && (forall i, j :: 0 <= i < j < |first| ==> first[i].eventId != first[j].eventId)
    decreases |events|
  {
    if events != [] {
      var n := |events| - 1;
      FirstDeliveriesAreAccepted(events[..n]);
      var before := FirstDeliveries(events[..n]);
      if ValidateEvent(events[n]).Valid? && ValidateEvent(events[n]).event.eventId !in Accepted(events[..n]) {
        ValidationNormalizes(events[n]);
        OneMoreFirstDelivery(before, Accepted(events[..n]), ValidateEvent(events[n]).event);
      } else {
        assert FirstDeliveries(events) == before && Accepted(events) == Accepted(events[..n]);
      }
    }
  }

  lemma {:induction false} AcceptedIsFirstDelivery(events: seq<OrderEvent>, id: EventId) returns (i: nat)
    requires id in Accepted(events)
    ensures i < |FirstDeliveries(events)| && FirstDeliveries(events)[i] == Accepted(events)[id]
    ensures FirstDeliveries(events)[i].eventId == id
    decreases |events|
  {
    var n := |events| - 1;
    if id in Accepted(events[..n]) {
      i := AcceptedIsFirstDelivery(events[..n], id);
    } else {
      i := |FirstDeliveries(events[..n])|;
    }
  }

  /** Exactly-once effect: keeping only the first delivery of every event id changes no table,
      even when a later delivery carries another order, status, time or payload. */
  lemma {:induction false} RedeliveryIsHarmless(events: seq<OrderEvent>)
    ensures Run(EMPTY_TABLES, events) == Run(EMPTY_TABLES, FirstDeliveries(events))
    decreases |events|
  {
    if events != [] {
      var n := |events| - 1;
      RedeliveryIsHarmless(events[..n]);
      RunIsFaithful(events[..n]);
      var before := FirstDeliveries(events[..n]);
      if ValidateEvent(events[n]).Valid? {
        var e := ValidateEvent(events[n]).event;
        ValidationNormalizes(events[n]);
        if e.eventId in Accepted(events[..n]) {
          assert FirstDeliveries(events) == before;
        } else {
          RunSnoc(EMPTY_TABLES, before, e);
        }
      } else {
        assert FirstDeliveries(events) == before;
      }
    }
  }

  // ----- what is final -----

  lemma {:induction false} ReplayKeepsOutcome(t: Tables, queue: seq<OrderEvent>, current: Status, o: OrderId, id: EventId)
    requires IsDeferred(t, queue, o) && id in t.processed && id !in t.pending
    ensures var t' := Replay(t, queue, current).tables;
            id in t'.processed && t'.processed[id] == t.processed[id] && id !in t'.pending
    decreases |queue|
  {
    if queue != [] && Classify(current, queue[0].status) != OutOfOrder {
      assert IsPendingFor(t.pending, o, queue[0].eventId);
      RouteShortensQueue(t, queue, o, current);
      ReplayKeepsOutcome(Route(t, queue[0], current), queue[1..], NextStatus(current, queue[0]), o, id);
    }
  }

  /** A settled outcome is final: only OUT_OF_ORDER can still change. */
  lemma OutcomeIsFinal(t: Tables, e: OrderEvent, id: EventId)
    requires Inv(t) && id in t.processed && t.processed[id].outcome != OutOfOrder
    ensures var t' := Process(t, e); id in t'.processed && t'.processed[id] == t.processed[id]
  {
    assert id in t.pending <==> HasOutcome(t.processed, id, OutOfOrder);
    if ValidateEvent(e).Valid? && ValidateEvent(e).event.eventId !in t.processed {
      var v := ValidateEvent(e).event;
      var current := CurrentStatus(t, v.orderId);
      var t1 := Route(t, v, current);
      if Classify(current, v.status) == Applied {
        QueueIsDeferred(t1, v.orderId);
        ReplayKeepsOutcome(t1, Queue(t1.pending, PendingIds(t1.pending, v.orderId)), v.status, v.orderId, id);
      }
    }
  }

  lemma {:induction false} RunKeepsOutcome(t: Tables, events: seq<OrderEvent>, id: EventId)
    requires Inv(t) && id in t.processed && t.processed[id].outcome != OutOfOrder
    ensures var t' := Run(t, events); id in t'.processed && t'.processed[id] == t.processed[id]
    decreases |events|
  {
    if events != [] {
      var n := |events| - 1;
      RunKeepsOutcome(t, events[..n], id);
      RunKeepsInv(t, events[..n]);
      OutcomeIsFinal(Run(t, events[..n]), events[n], id);
    }
  }

  lemma {:induction false} TerminalReplay(t: Tables, queue: seq<OrderEvent>, o: OrderId)
    requires IsDeferred(t, queue, o) && CurrentStatus(t, o).IsTerminal()
    ensures var t' := Replay(t, queue, CurrentStatus(t, o)).tables;
            && CurrentStatus(t', o) == CurrentStatus(t, o)
            && HistoryOf(t'.history, o) == HistoryOf(t.history, o)
    decreases |queue|
  {
    if queue != [] && Classify(CurrentStatus(t, o), queue[0].status) != OutOfOrder {
      assert queue[0].orderId == o;
      RouteShortensQueue(t, queue, o, CurrentStatus(t, o));
      TerminalReplay(Route(t, queue[0], CurrentStatus(t, o)), queue[1..], o);
    }
  }

  /** An event that reaches a terminal status leaves the order there, whatever it replays. */
  lemma TerminalEventSettles(t: Tables, e: OrderEvent)
    requires e.eventId !in t.processed && e.status.IsTerminal()
    requires Classify(CurrentStatus(t, e.orderId), e.status) == Applied
    ensures CurrentStatus(Step(t, e).tables, e.orderId) == e.status
  {
    var t1 := Route(t, e, CurrentStatus(t, e.orderId));
    QueueIsDeferred(t1, e.orderId);
    TerminalReplay(t1, Queue(t1.pending, PendingIds(t1.pending, e.orderId)), e.orderId);
  }

  lemma TerminalOrderIgnores(t: Tables, e: OrderEvent)
    requires CurrentStatus(t, e.orderId).IsTerminal()
    ensures CurrentStatus(Step(t, e).tables, e.orderId) == CurrentStatus(t, e.orderId)
  {
    var current := CurrentStatus(t, e.orderId);
    assert Classify(current, e.status) != Applied;
    assert e.eventId !in t.processed ==> Step(t, e).tables == Route(t, e, current);
  }

  lemma TerminalStep(t: Tables, e: OrderEvent, o: OrderId)
    requires Consistent(t) && CurrentStatus(t, o).IsTerminal()
    ensures CurrentStatus(Process(t, e), o) == CurrentStatus(t, o)
  {
    if ValidateEvent(e).Valid? {
      var v := ValidateEvent(e).event;
      if v.orderId == o {
        TerminalOrderIgnores(t, v);
      } else {
        StepFrame(t, v, o);
        assert SameOrder(t, Step(t, v).tables, o);
      }
    }
  }

  /** SHIPPED and CANCELLED are for ever. */
  lemma {:induction false} TerminalForever(t: Tables, events: seq<OrderEvent>, o: OrderId)
    requires Inv(t) && CurrentStatus(t, o).IsTerminal()
    ensures CurrentStatus(Run(t, events), o) == CurrentStatus(t, o)
    decreases |events|
  {
    if events != [] {
      var n := |events| - 1;
      TerminalForever(t, events[..n], o);
      RunKeepsInv(t, events[..n]);
      TerminalStep(Run(t, events[..n]), events[n], o);
    }
  }
}
