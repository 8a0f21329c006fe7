/** When the final status of an order depends only on which events were delivered. */
module Convergence {
  import opened Domain
  import opened Schema
  import opened Processor
  import opened Invariants
  import opened Steps
  import opened Runs

  type Events = map<EventId, OrderEvent>

  predicate Holds(events: Events, o: OrderId, status: Status, id: EventId) {
    id in events && events[id].orderId == o && events[id].status == status
  }

  predicate Has(events: Events, o: OrderId, status: Status) {
    exists id :: id in events && Holds(events, o, status, id)
  }

  /** Some payment is dated before every shipment. */
  predicate PaymentLeads(events: Events, o: OrderId) {
    exists p :: p in events && Holds(events, o, Paid, p) && LeadsShipments(events, o, p)
  }

  predicate LeadsShipments(events: Events, o: OrderId, p: EventId)
    requires p in events
  {
    forall s :: s in events && Holds(events, o, Shipped, s) ==> KeyLess(EventKey(events[p]), EventKey(events[s]))
  }

  /** The guard under which delivery order does not matter. */
  predicate IsConvergent(events: Events, o: OrderId) {
    || !Has(events, o, Created)
    || (!Has(events, o, Cancelled)
        && (!Has(events, o, Paid) || !Has(events, o, Shipped) || PaymentLeads(events, o)))
  }

  function FinalStatus(events: Events, o: OrderId): Status {
    if !Has(events, o, Created) then NoStatus
    else if !Has(events, o, Paid) then Created
    else if !Has(events, o, Shipped) then Paid
    else Shipped
  }

  // ----- reading the accepted events off the history -----

  lemma {:induction false} HistoryOfMembers(history: seq<HistoryRow>, o: OrderId, i: nat)
    requires i < |HistoryOf(history, o)|
    ensures HistoryOf(history, o)[i] in history && HistoryOf(history, o)[i].orderId == o
    decreases |history|
  {
    var n := |history| - 1;
    if i < |HistoryOf(history[..n], o)| {
      HistoryOfMembers(history[..n], o, i);
    }
  }

  lemma HistoryShows(t: Tables, events: Events, o: OrderId, i: nat)
    requires HistoryMatches(t.processed, t.history) && Faithful(t, events)
    requires i < |HistoryOf(t.history, o)|
    ensures var row := HistoryOf(t.history, o)[i];
            Holds(events, o, row.toStatus, row.eventId) && HasOutcome(t.processed, row.eventId, Applied)
  {
    var row := HistoryOf(t.history, o)[i];
    HistoryOfMembers(t.history, o, i);
    var j :| 0 <= j < |t.history| && t.history[j] == row;
    assert HistoryFits(t.processed, t.history[j]);
  }

  /** A lawful path starts with CREATED and passes PAID before it ends in SHIPPED. */
  lemma PathShape(path: seq<HistoryRow>)
    requires IsLawfulPath(path) && path != []
    ensures path[0].toStatus == Created
    ensures path[|path| - 1].toStatus == Shipped ==> |path| > 1 && path[|path| - 2].toStatus == Paid
  {
    var n := |path| - 1;
    assert Classify(StatusBefore(path[0]), path[0].toStatus) == Applied;
    assert Classify(StatusBefore(path[n]), path[n].toStatus) == Applied;
  }

  lemma {:induction false} PathIsShort(path: seq<HistoryRow>)
    requires IsLawfulPath(path)
    ensures |path| <= 3
    ensures forall i :: 0 <= i < |path| ==> i + 1 + StepsLeft(path[i].toStatus) <= 3
    decreases |path|
  {
    if path != [] {
      var n := |path| - 1;
      PathIsShort(path[..n]);
      assert Classify(StatusBefore(path[n]), path[n].toStatus) == Applied;
      assert n > 0 ==> path[..n][n - 1] == path[n - 1] && StatusBefore(path[n]) == path[n - 1].toStatus;
      assert StepsLeft(path[n].toStatus) < StepsLeft(StatusBefore(path[n]));
    }
  }

  /** The status an order shows was delivered, and so was everything it needs. */
  lemma StatusWasDelivered(t: Tables, events: Events, o: OrderId)
    requires Consistent(t) && Faithful(t, events)
    requires CurrentStatus(t, o) != NoStatus
    ensures Has(events, o, Created) && Has(events, o, CurrentStatus(t, o))
    ensures CurrentStatus(t, o) == Shipped ==> Has(events, o, Paid)
  {
    assert OrderSumsUp(t, o);
    var path := HistoryOf(t.history, o);
    var n := |path| - 1;
    PathShape(path);
    HistoryShows(t, events, o, 0);
    HistoryShows(t, events, o, n);
    if CurrentStatus(t, o) == Shipped {
      HistoryShows(t, events, o, n - 1);
    }
  }

  // ----- convergence -----

  lemma PaidIsNotStuck(t: Tables, events: Events, o: OrderId)
    requires Inv(t) && Faithful(t, events)
    requires CurrentStatus(t, o) == Created && Has(events, o, Paid)
    ensures Has(events, o, Shipped) && !PaymentLeads(events, o)
  {
    forall p | p in events && Holds(events, o, Paid, p)
      ensures exists s :: s in events && Holds(events, o, Shipped, s) && KeyLess(EventKey(events[s]), EventKey(events[p]))
    {
      assert Explains(CurrentStatus(t, o), t.processed[p].status, t.processed[p].outcome);
      assert HasOutcome(t.processed, p, OutOfOrder);
      assert OrderWaits(t, o);
      assert IsPendingFor(t.pending, o, p);
      var s :| IsPendingFor(t.pending, o, s) && t.pending[s].status == Shipped
               && KeyLess(PendingKey(t.pending, s), PendingKey(t.pending, p));
      assert Holds(events, o, Shipped, s);
    }
    forall p | p in events && Holds(events, o, Paid, p)
      ensures !LeadsShipments(events, o, p)
    {
      var s :| s in events && Holds(events, o, Shipped, s) && KeyLess(EventKey(events[s]), EventKey(events[p]));
      KeyOrder(EventKey(events[s]), EventKey(events[p]));
    }
  }

  lemma ShippedIsNotStuck(t: Tables, events: Events, o: OrderId)
    requires Inv(t) && Faithful(t, events)
    requires CurrentStatus(t, o) == Paid
    ensures !Has(events, o, Shipped)
  {
    forall s | s in events && Holds(events, o, Shipped, s)
      ensures false
    {
      assert Explains(CurrentStatus(t, o), t.processed[s].status, t.processed[s].outcome);
      assert HasOutcome(t.processed, s, OutOfOrder);
      assert OrderWaits(t, o);
      assert IsPendingFor(t.pending, o, s);
    }
  }

  lemma CreatedIsNotMissed(t: Tables, events: Events, o: OrderId)
    requires Inv(t) && Faithful(t, events) && Has(events, o, Created)
    ensures CurrentStatus(t, o) != NoStatus
  {
    var c :| c in events && Holds(events, o, Created, c);
    assert Explains(CurrentStatus(t, o), t.processed[c].status, t.processed[c].outcome);
  }

  lemma StatusIsFinalStatus(t: Tables, events: Events, o: OrderId)
    requires Inv(t) && Faithful(t, events) && IsConvergent(events, o)
    ensures CurrentStatus(t, o) == FinalStatus(events, o)
  {
    StatusIsKnown(t, o);
    if CurrentStatus(t, o) == NoStatus {
      if Has(events, o, Created) {
        CreatedIsNotMissed(t, events, o);
      }
    } else {
      StatusWasDelivered(t, events, o);
      if CurrentStatus(t, o) == Created && Has(events, o, Paid) {
        PaidIsNotStuck(t, events, o);
      } else if CurrentStatus(t, o) == Paid {
        ShippedIsNotStuck(t, events, o);
      }
    }
  }

  /** Whatever the delivery order, the repetitions and the events of other orders in between. */
  lemma RunConverges(events: seq<OrderEvent>, o: OrderId)
    requires IsConvergent(Accepted(events), o)
    ensures CurrentStatus(Run(EMPTY_TABLES, events), o) == FinalStatus(Accepted(events), o)
  {
    EmptyTablesInv();
    RunKeepsInv(EMPTY_TABLES, events);
    RunIsFaithful(events);
    StatusIsFinalStatus(Run(EMPTY_TABLES, events), Accepted(events), o);
  }

  // ----- and when it does not converge -----

  /** A set of events for one order, keyed by event id. */
  ghost predicate AreEventsOf(events: Events, o: OrderId) {
    forall id :: id in events ==> IsNormal(events[id]) && events[id].eventId == id && events[id].orderId == o
  }

  function OrderEvents(events: Events, o: OrderId): Events {
    map id | id in events && events[id].orderId == o :: events[id]
  }

  /** A delivery of exactly these events to the order, with any repetition and any other traffic. */
  ghost predicate Delivers(deliveries: seq<OrderEvent>, events: Events, o: OrderId) {
    OrderEvents(Accepted(deliveries), o) == events
  }

  ghost predicate AllDeliveriesAgree(events: Events, o: OrderId) {
    forall a, b :: Delivers(a, events, o) && Delivers(b, events, o) ==>
      CurrentStatus(Run(EMPTY_TABLES, a), o) == CurrentStatus(Run(EMPTY_TABLES, b), o)
  }

  lemma OrderEventsDecide(events: Events, o: OrderId)
    ensures forall s, id :: Holds(OrderEvents(events, o), o, s, id) <==> Holds(events, o, s, id)
    ensures IsConvergent(OrderEvents(events, o), o) <==> IsConvergent(events, o)
    ensures FinalStatus(OrderEvents(events, o), o) == FinalStatus(events, o)
  {
    var mine := OrderEvents(events, o);
    forall s, id
      ensures Holds(mine, o, s, id) <==> Holds(events, o, s, id)
    {
    }
    forall s
      ensures Has(mine, o, s) <==> Has(events, o, s)
    {
      if id :| id in events && Holds(events, o, s, id) {
        assert Holds(mine, o, s, id);
      }
    }
    forall p | Holds(events, o, Paid, p)
      ensures LeadsShipments(mine, o, p) <==> LeadsShipments(events, o, p)
    {
      if LeadsShipments(mine, o, p) {
        forall s | s in events && Holds(events, o, Shipped, s)
          ensures KeyLess(EventKey(events[p]), EventKey(events[s]))
        {
          assert Holds(mine, o, Shipped, s);
        }
      }
    }
    if PaymentLeads(events, o) {
      var p :| p in events && Holds(events, o, Paid, p) && LeadsShipments(events, o, p);
      assert Holds(mine, o, Paid, p);
    }
  }

  lemma ConvergentDeliveriesAgree(events: Events, o: OrderId)
    requires IsConvergent(events, o)
    ensures AllDeliveriesAgree(events, o)
  {
    forall a | Delivers(a, events, o)
      ensures CurrentStatus(Run(EMPTY_TABLES, a), o) == FinalStatus(events, o)
    {
      OrderEventsDecide(Accepted(a), o);
      RunConverges(a, o);
    }
  }

  /** The events one after the other, in some order. */
  ghost function Listing(events: Events): seq<OrderEvent>
    decreases |events|
  {
    if events == map[] then []
    else
      var id :| id in events;
      Listing(events - {id}) + [events[id]]
  }

  lemma ListingSplit(events: Events) returns (id: EventId)
    requires events != map[]
    ensures id in events && |events - {id}| < |events|
    ensures Listing(events) == Listing(events - {id}) + [events[id]]
  {
    id :| id in events && Listing(events) == Listing(events - {id}) + [events[id]];
    assert (events - {id}).Keys == events.Keys - {id};
  }

  lemma AcceptedSnoc(deliveries: seq<OrderEvent>, e: OrderEvent)
    requires IsNormal(e)
    ensures var before := Accepted(deliveries);
            Accepted(deliveries + [e]) == if e.eventId in before then before else before[e.eventId := e]
  {
    assert (deliveries + [e])[..|deliveries|] == deliveries;
  }

  lemma AcceptedOneMore(deliveries: seq<OrderEvent>, list: seq<OrderEvent>, events: Events, id: EventId)
    requires id in events && IsNormal(events[id]) && events[id].eventId == id
    requires id in Accepted(deliveries) ==> Accepted(deliveries)[id] == events[id]
    requires Accepted(deliveries + list) == Accepted(deliveries) + (events - {id})
    ensures Accepted(deliveries + (list + [events[id]])) == Accepted(deliveries) + events
  {
    AcceptedSnoc(deliveries + list, events[id]);
    assert deliveries + (list + [events[id]]) == (deliveries + list) + [events[id]];
    var merged := Accepted(deliveries) + (events - {id});
    assert (if id in merged then merged else merged[id := events[id]]) == Accepted(deliveries) + events;
  }

  lemma {:induction false} AcceptedListing(deliveries: seq<OrderEvent>, events: Events, o: OrderId)
    requires AreEventsOf(events, o)
    requires forall id :: id in Accepted(deliveries) && id in events ==> Accepted(deliveries)[id] == events[id]
    ensures Accepted(deliveries + Listing(events)) == Accepted(deliveries) + events
    decreases |events|
  {
    if events == map[] {
      assert deliveries + Listing(events) == deliveries;
    } else {
      var id := ListingSplit(events);
      AcceptedListing(deliveries, events - {id}, o);
      AcceptedOneMore(deliveries, Listing(events - {id}), events, id);
    }
  }

  lemma ListingDelivers(deliveries: seq<OrderEvent>, events: Events, o: OrderId)
    requires AreEventsOf(events, o)
    requires Accepted(deliveries).Keys <= events.Keys
    requires forall id :: id in Accepted(deliveries) ==> Accepted(deliveries)[id] == events[id]
    ensures Accepted(deliveries + Listing(events)) == events
    ensures Delivers(deliveries + Listing(events), events, o)
  {
    AcceptedListing(deliveries, events, o);
    assert OrderEvents(events, o) == events;
  }

  lemma {:induction false} ListingMembers(events: Events, i: nat)
    requires i < |Listing(events)|
    ensures exists id :: id in events && Listing(events)[i] == events[id]
    decreases |events|
  {
    var id := ListingSplit(events);
    if i < |Listing(events - {id})| {
      ListingMembers(events - {id}, i);
    }
  }

  lemma ReachedState(deliveries: seq<OrderEvent>) returns (t: Tables)
    ensures t == Run(EMPTY_TABLES, deliveries) && Inv(t) && Faithful(t, Accepted(deliveries))
  {
    t := Run(EMPTY_TABLES, deliveries);
    EmptyTablesInv();
    RunKeepsInv(EMPTY_TABLES, deliveries);
    RunIsFaithful(deliveries);
  }

  /** Once a terminal event is applied, no further delivery moves the order. */
  lemma StaysAt(first: seq<OrderEvent>, last: OrderEvent, rest: seq<OrderEvent>, o: OrderId)
    requires IsNormal(last) && last.orderId == o && last.status.IsTerminal() && last.eventId !in Accepted(first)
    requires Classify(CurrentStatus(Run(EMPTY_TABLES, first), o), last.status) == Applied
    ensures CurrentStatus(Run(EMPTY_TABLES, first + [last] + rest), o) == last.status
  {
    var t := ReachedState(first);
    RunSnoc(EMPTY_TABLES, first, last);
    TerminalEventSettles(t, last);
    var t' := ReachedState(first + [last]);
    RunConcat(EMPTY_TABLES, first + [last], rest);
    TerminalForever(t', rest, o);
  }

  ghost predicate IsPartOf(part: Events, events: Events) {
    forall id :: id in part ==> id in events && part[id] == events[id]
  }

  /** Deliver `first`, then an event that is applied and ends the lifecycle, then all the rest. */
  lemma EndsAt(first: seq<OrderEvent>, last: OrderEvent, events: Events, o: OrderId) returns (deliveries: seq<OrderEvent>)
    requires AreEventsOf(events, o)
    requires last.eventId in events && events[last.eventId] == last && last.status.IsTerminal()
    requires last.eventId !in Accepted(first) && IsPartOf(Accepted(first), events)
    requires Classify(CurrentStatus(Run(EMPTY_TABLES, first), o), last.status) == Applied
    ensures Delivers(deliveries, events, o)
    ensures CurrentStatus(Run(EMPTY_TABLES, deliveries), o) == last.status
  {
    var start := first + [last];
    AcceptedSnoc(first, last);
    deliveries := start + Listing(events);
    ListingDelivers(start, events, o);
    StaysAt(first, last, Listing(events), o);
  }

  lemma OneDelivery(e: OrderEvent)
    requires IsNormal(e)
    ensures Accepted([e]) == map[e.eventId := e]
  {
    AcceptedSnoc([], e);
    assert [] + [e] == [e];
  }

  lemma CreatedStandsAlone(e: OrderEvent)
    requires IsNormal(e) && e.status == Created
    ensures CurrentStatus(Run(EMPTY_TABLES, [e]), e.orderId) == Created
  {
    OneDelivery(e);
    assert Holds(Accepted([e]), e.orderId, Created, e.eventId);
    RunConverges([e], e.orderId);
  }

  lemma PaymentFollows(c: OrderEvent, p: OrderEvent)
    requires IsNormal(c) && IsNormal(p) && c.orderId == p.orderId && c.eventId != p.eventId
    requires c.status == Created && p.status == Paid
    ensures Accepted([c, p]) == map[c.eventId := c, p.eventId := p]
    ensures CurrentStatus(Run(EMPTY_TABLES, [c, p]), c.orderId) == Paid
  {
    OneDelivery(c);
    AcceptedSnoc([c], p);
    assert [c] + [p] == [c, p];
    assert Holds(Accepted([c, p]), c.orderId, Created, c.eventId);
    assert Holds(Accepted([c, p]), c.orderId, Paid, p.eventId);
    RunConverges([c, p], c.orderId);
  }

  // ----- a cancellation can come too early -----

  function OnlyCancelled(events: Events): Events {
    map id | id in events && events[id].status == Cancelled :: events[id]
  }

  lemma PartAccepted(part: Events, o: OrderId)
    requires AreEventsOf(part, o)
    ensures Accepted(Listing(part)) == part
  {
    AcceptedListing([], part, o);
    assert [] + Listing(part) == Listing(part) && map[] + part == part;
  }

  lemma CancelledWhileAbsent(t: Tables, events: Events, o: OrderId, id: EventId)
    requires Consistent(t) && Faithful(t, events)
    requires CurrentStatus(t, o) == NoStatus && Holds(events, o, Cancelled, id)
    ensures HasOutcome(t.processed, id, InvalidTransition)
  {
    assert Explains(CurrentStatus(t, o), t.processed[id].status, t.processed[id].outcome);
    assert id in t.pending <==> HasOutcome(t.processed, id, OutOfOrder);
  }

  lemma NeverCancelled(t: Tables, events: Events, o: OrderId)
    requires Consistent(t) && Faithful(t, events)
    requires forall id :: Holds(events, o, Cancelled, id) ==> HasOutcome(t.processed, id, InvalidTransition)
    ensures CurrentStatus(t, o) != Cancelled
  {
    if CurrentStatus(t, o) == Cancelled {
      assert OrderSumsUp(t, o);
      HistoryShows(t, events, o, |HistoryOf(t.history, o)| - 1);
      assert false;
    }
  }

  lemma EarlyCancellationIsLost(events: Events, o: OrderId)
    requires AreEventsOf(events, o)
    ensures var deliveries := Listing(OnlyCancelled(events)) + Listing(events);
            && Delivers(deliveries, events, o)
            && CurrentStatus(Run(EMPTY_TABLES, deliveries), o) != Cancelled
  {
    var early, rest := OnlyCancelled(events), Listing(events);
    PartAccepted(early, o);
    ListingDelivers(Listing(early), events, o);
    RunConcat(EMPTY_TABLES, Listing(early), rest);
    var t := ReachedState(Listing(early));
    assert !Has(early, o, Created);
    RunConverges(Listing(early), o);
    var t' := ReachedState(Listing(early) + rest);
    forall id | Holds(events, o, Cancelled, id)
      ensures HasOutcome(t'.processed, id, InvalidTransition)
    {
      assert Holds(early, o, Cancelled, id);
      CancelledWhileAbsent(t, early, o, id);
      RunKeepsOutcome(t, rest, id);
    }
    RestrictedFaithful(t', Listing(early) + rest, events, o);
  }

  lemma RestrictedFaithful(t: Tables, deliveries: seq<OrderEvent>, events: Events, o: OrderId)
    requires Consistent(t) && Faithful(t, Accepted(deliveries)) && Delivers(deliveries, events, o)
    requires forall id :: Holds(events, o, Cancelled, id) ==> HasOutcome(t.processed, id, InvalidTransition)
    ensures CurrentStatus(t, o) != Cancelled
  {
    OrderEventsDecide(Accepted(deliveries), o);
    NeverCancelled(t, Accepted(deliveries), o);
  }

  // ----- a shipment dated before every payment blocks them all -----

  function AllButCreated(events: Events): Events {
    map id | id in events && events[id].status != Created :: events[id]
  }

  ghost predicate IsBlocked(t: Tables, events: Events, o: OrderId) {
    && Inv(t)
    && (forall id :: id in t.processed && t.processed[id].orderId == o ==> id in events)
    && (forall id :: IsPendingFor(t.pending, o, id) <==> id in AllButCreated(events))
    && (forall id :: id in AllButCreated(events) && id in t.pending ==> PendingEvent(t.pending, id) == events[id])
    && (CurrentStatus(t, o) == NoStatus || CurrentStatus(t, o) == Created)
  }

  lemma BlockedQueueStartsShipped(t: Tables, events: Events, o: OrderId, queue: seq<OrderEvent>)
    requires Consistent(t) && AreEventsOf(events, o)
    requires forall id :: IsPendingFor(t.pending, o, id) <==> id in AllButCreated(events)
    requires forall id :: id in AllButCreated(events) && id in t.pending ==> PendingEvent(t.pending, id) == events[id]
    requires !PaymentLeads(events, o)
    requires queue == Queue(t.pending, PendingIds(t.pending, o))
    ensures MustWait(queue, Created)
  {
    QueueHoldsPaidAndShipped(t, o, queue);
    QueueIsDeferred(t, o);
    QueueAscends(t.pending, PendingIds(t.pending, o));
    if queue != [] && queue[0].status == Paid {
      var p := queue[0].eventId;
      assert IsPendingFor(t.pending, o, p);
      forall s | s in events && Holds(events, o, Shipped, s)
        ensures KeyLess(EventKey(events[p]), EventKey(events[s]))
      {
        assert s in AllButCreated(events);
        assert InQueue(queue, s);
        var j :| 0 <= j < |queue| && queue[j].eventId == s;
        assert IsPendingFor(t.pending, o, queue[j].eventId);
        assert KeyLess(EventKey(queue[0]), EventKey(queue[j]));
      }
      assert Holds(events, o, Paid, p) && LeadsShipments(events, o, p);
    }
  }

  lemma NothingToReplay(t: Tables, e: OrderEvent)
    requires IsNormal(e) && e.eventId !in t.processed
    requires var t1 := Route(t, e, CurrentStatus(t, e.orderId));
             Classify(CurrentStatus(t, e.orderId), e.status) == Applied ==>
               MustWait(Queue(t1.pending, PendingIds(t1.pending, e.orderId)), e.status)
    ensures Process(t, e) == Route(t, e, CurrentStatus(t, e.orderId))
  {
  }

  lemma BlockedCreation(t: Tables, events: Events, o: OrderId, e: OrderEvent)
    requires IsBlocked(t, events, o) && AreEventsOf(events, o) && !PaymentLeads(events, o)
    requires e.eventId in events && events[e.eventId] == e && e.eventId !in t.processed
    requires Route(t, e, CurrentStatus(t, o)).pending == t.pending && e.status == Created
    ensures Process(t, e) == Route(t, e, CurrentStatus(t, o))
  {
    var t1 := Route(t, e, CurrentStatus(t, o));
    if CurrentStatus(t, o) == NoStatus {
      RouteKeepsConsistent(t, e);
      BlockedQueueStartsShipped(t1, events, o, Queue(t1.pending, PendingIds(t1.pending, o)));
    }
    NothingToReplay(t, e);
  }

  lemma BlockedEventIsCreation(t: Tables, events: Events, o: OrderId, e: OrderEvent)
    requires IsBlocked(t, events, o)
    requires e.eventId in events && events[e.eventId] == e && e.eventId !in t.processed
    ensures e.status == Created && e.eventId !in t.pending
    ensures Route(t, e, CurrentStatus(t, o)).pending == t.pending
  {
    assert e.eventId in t.pending <==> HasOutcome(t.processed, e.eventId, OutOfOrder);
    assert e.eventId !in AllButCreated(events);
    assert t.pending - {e.eventId} == t.pending;
  }

  lemma BlockedStep(t: Tables, events: Events, o: OrderId, e: OrderEvent)
    requires IsBlocked(t, events, o) && AreEventsOf(events, o) && !PaymentLeads(events, o)
    requires e.eventId in events && events[e.eventId] == e
    ensures IsBlocked(Process(t, e), events, o)
  {
    ProcessKeepsInv(t, e);
    if e.eventId !in t.processed {
      BlockedEventIsCreation(t, events, o, e);
      BlockedCreation(t, events, o, e);
      RoutesToItsStatus(t, e);
    }
  }

  lemma {:induction false} BlockedRun(t: Tables, events: Events, o: OrderId, list: seq<OrderEvent>)
    requires IsBlocked(t, events, o) && AreEventsOf(events, o) && !PaymentLeads(events, o)
    requires forall i :: 0 <= i < |list| ==> list[i].eventId in events && events[list[i].eventId] == list[i]
    ensures IsBlocked(Run(t, list), events, o)
    decreases |list|
  {
    if list != [] {
      var n := |list| - 1;
      BlockedRun(t, events, o, list[..n]);
      BlockedStep(Run(t, list[..n]), events, o, list[n]);
    }
  }

  lemma AllWait(t: Tables, early: Events, events: Events, o: OrderId)
    requires Inv(t) && Faithful(t, early) && CurrentStatus(t, o) == NoStatus
    requires AreEventsOf(events, o) && !Has(events, o, Cancelled) && early == AllButCreated(events)
    ensures IsBlocked(t, events, o)
  {
    forall id
      ensures IsPendingFor(t.pending, o, id) <==> id in early
    {
      EarlyEventWaits(t, early, events, o, id);
    }
  }

  lemma EarlyEventWaits(t: Tables, early: Events, events: Events, o: OrderId, id: EventId)
    requires PendingRowsMatch(t.processed, t.pending) && StatusesExplained(t)
    requires Faithful(t, early) && CurrentStatus(t, o) == NoStatus
    requires AreEventsOf(events, o) && !Has(events, o, Cancelled) && early == AllButCreated(events)
    ensures IsPendingFor(t.pending, o, id) <==> id in early
  {
    assert id in t.pending <==> HasOutcome(t.processed, id, OutOfOrder);
    if id in early {
      EarlyStatus(events, o, id);
      EarlyOutcome(t, early, o, id);
    }
  }

  lemma EarlyStatus(events: Events, o: OrderId, id: EventId)
    requires AreEventsOf(events, o) && !Has(events, o, Cancelled) && id in AllButCreated(events)
    ensures events[id].status == Paid || events[id].status == Shipped
    ensures AllButCreated(events)[id] == events[id] && events[id].orderId == o
  {
    assert !Holds(events, o, Cancelled, id);
  }

  lemma EarlyOutcome(t: Tables, early: Events, o: OrderId, id: EventId)
    requires StatusesExplained(t) && Faithful(t, early) && CurrentStatus(t, o) == NoStatus
    requires id in early && early[id].orderId == o && (early[id].status == Paid || early[id].status == Shipped)
    ensures HasOutcome(t.processed, id, OutOfOrder)
  {
    assert Matches(t.processed[id], id, early[id]);
    assert Explains(CurrentStatus(t, o), t.processed[id].status, t.processed[id].outcome);
  }

  lemma EarlyShipmentBlocks(events: Events, o: OrderId)
    requires AreEventsOf(events, o)
    requires !Has(events, o, Cancelled) && !PaymentLeads(events, o)
    ensures var deliveries := Listing(AllButCreated(events)) + Listing(events);
            && Delivers(deliveries, events, o)
            && CurrentStatus(Run(EMPTY_TABLES, deliveries), o) != Shipped
  {
    var early, rest := AllButCreated(events), Listing(events);
    PartAccepted(early, o);
    ListingDelivers(Listing(early), events, o);
    RunConcat(EMPTY_TABLES, Listing(early), rest);
    var t := ReachedState(Listing(early));
    assert !Has(early, o, Created);
    RunConverges(Listing(early), o);
    AllWait(t, early, events, o);
    forall i | 0 <= i < |rest|
      ensures rest[i].eventId in events && events[rest[i].eventId] == rest[i]
    {
      ListingMembers(events, i);
    }
    BlockedRun(t, events, o, rest);
  }

  lemma CancellationDiverges(events: Events, o: OrderId, c: EventId, x: EventId)
    requires AreEventsOf(events, o) && Holds(events, o, Created, c) && Holds(events, o, Cancelled, x)
    ensures !AllDeliveriesAgree(events, o)
  {
    CreatedStandsAlone(events[c]);
    OneDelivery(events[c]);
    var a := EndsAt([events[c]], events[x], events, o);
    EarlyCancellationIsLost(events, o);
  }

  lemma ShipmentDiverges(events: Events, o: OrderId, c: EventId, p: EventId, s: EventId)
    requires AreEventsOf(events, o) && !Has(events, o, Cancelled) && !PaymentLeads(events, o)
    requires Holds(events, o, Created, c) && Holds(events, o, Paid, p) && Holds(events, o, Shipped, s)
    ensures !AllDeliveriesAgree(events, o)
  {
    var a := ShipmentArrives(events, o, c, p, s);
    EarlyShipmentBlocks(events, o);
  }

  lemma ShipmentArrives(events: Events, o: OrderId, c: EventId, p: EventId, s: EventId) returns (deliveries: seq<OrderEvent>)
    requires AreEventsOf(events, o)
    requires Holds(events, o, Created, c) && Holds(events, o, Paid, p) && Holds(events, o, Shipped, s)
    ensures Delivers(deliveries, events, o) && CurrentStatus(Run(EMPTY_TABLES, deliveries), o) == Shipped
  {
    var first := PaidStart(events, o, c, p);
    assert events[s].eventId == s;
    deliveries := EndsAt(first, events[s], events, o);
  }

  lemma PaidStart(events: Events, o: OrderId, c: EventId, p: EventId) returns (first: seq<OrderEvent>)
    requires AreEventsOf(events, o) && Holds(events, o, Created, c) && Holds(events, o, Paid, p)
    ensures Accepted(first).Keys == {c, p} && IsPartOf(Accepted(first), events)
    ensures CurrentStatus(Run(EMPTY_TABLES, first), o) == Paid
  {
    first := [events[c], events[p]];
    PaymentFollows(events[c], events[p]);
  }

  /** The exact condition: all ways to deliver the same events of an order, with any repetition
      and any other traffic, end in the same status if and only if the events are convergent. */
  lemma ConvergesExactlyWhen(events: Events, o: OrderId)
    requires AreEventsOf(events, o)
    ensures AllDeliveriesAgree(events, o) <==> IsConvergent(events, o)
  {
    if IsConvergent(events, o) {
      ConvergentDeliveriesAgree(events, o);
    } else {
      var c :| c in events && Holds(events, o, Created, c);
      if Has(events, o, Cancelled) {
        var x :| x in events && Holds(events, o, Cancelled, x);
        CancellationDiverges(events, o, c, x);
      } else {
        var p :| p in events && Holds(events, o, Paid, p);
        var s :| s in events && Holds(events, o, Shipped, s);
        ShipmentDiverges(events, o, c, p, s);
      }
    }
  }
}
