/** Every event keeps the invariant, and replay empties an order's pending rows or leaves them alone. */
module Steps {
  import opened Domain
  import opened Schema
  import opened Processor
  import opened Invariants

  // ----- what an event can touch -----

  /** The rows of one order that a transaction reads, order row and pending rows, are the same. */
  ghost predicate SameOrder(t: Tables, u: Tables, o: OrderId) {
    && (o in t.orders <==> o in u.orders)
    && (o in t.orders ==> t.orders[o] == u.orders[o])
    && (forall id :: IsPendingFor(t.pending, o, id) <==> IsPendingFor(u.pending, o, id))
    && (forall id :: IsPendingFor(t.pending, o, id) ==> t.pending[id] == u.pending[id])
  }

  lemma SameOrderIsTransitive(t: Tables, u: Tables, v: Tables, o: OrderId)
    requires SameOrder(t, u, o) && SameOrder(u, v, o)
    ensures SameOrder(t, v, o)
  {
    forall id
      ensures IsPendingFor(t.pending, o, id) <==> IsPendingFor(v.pending, o, id)
      ensures IsPendingFor(t.pending, o, id) ==> t.pending[id] == v.pending[id]
    {
      assert IsPendingFor(t.pending, o, id) <==> IsPendingFor(u.pending, o, id);
    }
  }

  lemma RouteFrame(t: Tables, e: OrderEvent, current: Status, o: OrderId)
    requires o != e.orderId
    requires e.eventId in t.pending ==> t.pending[e.eventId].orderId == e.orderId
    ensures SameOrder(t, Route(t, e, current), o)
  {
  }

  // ----- replaying a queue -----

  /** The queue lists rows that are pending for the order, each once. */
  ghost predicate IsDeferred(t: Tables, queue: seq<OrderEvent>, o: OrderId) {
    && (forall i :: 0 <= i < |queue| ==>
          IsPendingFor(t.pending, o, queue[i].eventId) && queue[i] == PendingEvent(t.pending, queue[i].eventId))
    && (forall i, j :: 0 <= i < j < |queue| ==> queue[i].eventId != queue[j].eventId)
  }

  lemma QueueIsDeferred(t: Tables, o: OrderId)
    ensures IsDeferred(t, Queue(t.pending, PendingIds(t.pending, o)), o)
  {
    var ids := PendingIds(t.pending, o);
    var queue := Queue(t.pending, ids);
    QueueListsRows(t.pending, ids);
    QueueAscends(t.pending, ids);
    forall i, j | 0 <= i < j < |queue|
      ensures queue[i].eventId != queue[j].eventId
    {
      assert KeyLess(EventKey(queue[i]), EventKey(queue[j]));
      KeyOrder(EventKey(queue[i]), EventKey(queue[i]));
    }
  }

  lemma RouteShortensQueue(t: Tables, queue: seq<OrderEvent>, o: OrderId, current: Status)
    requires IsDeferred(t, queue, o) && queue != []
    requires Classify(current, queue[0].status) != OutOfOrder
    ensures IsDeferred(Route(t, queue[0], current), queue[1..], o)
    ensures Route(t, queue[0], current).pending == t.pending - {queue[0].eventId}
  {
  }

  ghost predicate InQueue(queue: seq<OrderEvent>, id: EventId) {
    exists i :: 0 <= i < |queue| && queue[i].eventId == id
  }

  lemma InQueueSplits(queue: seq<OrderEvent>, id: EventId)
    requires queue != []
    ensures InQueue(queue, id) <==> id == queue[0].eventId || InQueue(queue[1..], id)
  {
    if InQueue(queue[1..], id) {
      var i :| 0 <= i < |queue[1..]| && queue[1..][i].eventId == id;
      assert queue[i + 1].eventId == id;
    }
    if InQueue(queue, id) && id != queue[0].eventId {
      var i :| 0 <= i < |queue| && queue[i].eventId == id;
      assert queue[1..][i - 1].eventId == id;
    }
  }

  /** Replay never adds a pending row or alters one. */
  lemma {:induction false} ReplayKeepsRows(t: Tables, queue: seq<OrderEvent>, current: Status, o: OrderId)
    requires IsDeferred(t, queue, o)
    ensures var pending := Replay(t, queue, current).tables.pending;
            forall id :: id in pending ==> id in t.pending && pending[id] == t.pending[id]
    decreases |queue|
  {
    if queue != [] && Classify(current, queue[0].status) != OutOfOrder {
      var c := Classify(current, queue[0].status);
      RouteShortensQueue(t, queue, o, current);
      ReplayKeepsRows(Route(t, queue[0], current), queue[1..], NextStatus(current, queue[0]), o);
    }
  }

  lemma RoutesToItsStatus(t: Tables, e: OrderEvent)
    ensures var current := CurrentStatus(t, e.orderId);
            CurrentStatus(Route(t, e, current), e.orderId) == NextStatus(current, e)
  {
  }

  lemma DeferredIsRoutable(t: Tables, queue: seq<OrderEvent>, o: OrderId)
    requires Consistent(t) && IsDeferred(t, queue, o) && queue != []
    requires Classify(CurrentStatus(t, o), queue[0].status) != OutOfOrder
    ensures Routable(t, queue[0])
    ensures queue[0].orderId == o
    ensures queue[0].status == Paid || queue[0].status == Shipped
  {
    assert IsPendingFor(t.pending, o, queue[0].eventId);
  }

  lemma {:induction false} ReplayKeepsConsistent(t: Tables, queue: seq<OrderEvent>, o: OrderId)
    requires Consistent(t) && IsDeferred(t, queue, o)
    ensures var r := Replay(t, queue, CurrentStatus(t, o));
            Consistent(r.tables) && r.status == CurrentStatus(r.tables, o)
    decreases |queue|
  {
    var current := CurrentStatus(t, o);
    if queue != [] && Classify(current, queue[0].status) != OutOfOrder {
      var t' := Route(t, queue[0], current);
      DeferredIsRoutable(t, queue, o);
      RouteKeepsConsistent(t, queue[0]);
      RouteShortensQueue(t, queue, o, current);
      RoutesToItsStatus(t, queue[0]);
      ReplayKeepsConsistent(t', queue[1..], o);
    }
  }

  lemma {:induction false} ReplayFrame(t: Tables, queue: seq<OrderEvent>, current: Status, o: OrderId, other: OrderId)
    requires IsDeferred(t, queue, o) && other != o
    ensures SameOrder(t, Replay(t, queue, current).tables, other)
    decreases |queue|
  {
    if queue != [] && Classify(current, queue[0].status) != OutOfOrder {
      var c := Classify(current, queue[0].status);
      var t' := Route(t, queue[0], current);
      assert queue[0].orderId == o;
      RouteFrame(t, queue[0], current, other);
      RouteShortensQueue(t, queue, o, current);
      var next := NextStatus(current, queue[0]);
      ReplayFrame(t', queue[1..], next, o, other);
      SameOrderIsTransitive(t, t', Replay(t', queue[1..], next).tables, other);
    }
  }

  /** Once an order is at PAID or later nothing has to wait, so the whole queue is consumed;
      the pending table loses exactly the queue. */
  lemma {:induction false} SettledReplayConsumesAll(t: Tables, queue: seq<OrderEvent>, current: Status, o: OrderId)
    requires IsDeferred(t, queue, o)
    requires forall i :: 0 <= i < |queue| ==> queue[i].status == Paid || queue[i].status == Shipped
    requires current.IsSettled()
    ensures var r := Replay(t, queue, current);
            && r.status.IsSettled()
            && r.applied <= StepsLeft(current) - StepsLeft(r.status)
            && r.applied + r.deadLettered + r.dropped == |queue|
            && (forall id :: id in r.tables.pending <==> id in t.pending && !InQueue(queue, id))
    decreases |queue|
  {
    if queue != [] {
      var c := Classify(current, queue[0].status);
      var t' := Route(t, queue[0], current);
      RouteShortensQueue(t, queue, o, current);
      SettledReplayConsumesAll(t', queue[1..], NextStatus(current, queue[0]), o);
      forall id
        ensures InQueue(queue, id) <==> id == queue[0].eventId || InQueue(queue[1..], id)
      {
        InQueueSplits(queue, id);
      }
    }
  }

  ghost predicate MustWait(queue: seq<OrderEvent>, current: Status) {
    queue == [] || (current == Created && queue[0].status == Shipped)
  }

  lemma ReplayConsumesAll(t: Tables, queue: seq<OrderEvent>, current: Status, o: OrderId)
    requires IsDeferred(t, queue, o)
    requires forall i :: 0 <= i < |queue| ==> queue[i].status == Paid || queue[i].status == Shipped
    requires current.IsKnown() && !MustWait(queue, current)
    ensures var r := Replay(t, queue, current);
            && r.status.IsSettled()
            && r.applied <= StepsLeft(current) - StepsLeft(r.status)
            && r.applied + r.deadLettered + r.dropped == |queue|
            && (forall id :: id in r.tables.pending <==> id in t.pending && !InQueue(queue, id))
  {
    if current == Created {
      var t' := Route(t, queue[0], current);
      RouteShortensQueue(t, queue, o, current);
      SettledReplayConsumesAll(t', queue[1..], Paid, o);
      forall id
        ensures InQueue(queue, id) <==> id == queue[0].eventId || InQueue(queue[1..], id)
      {
        InQueueSplits(queue, id);
      }
    } else {
      SettledReplayConsumesAll(t, queue, current, o);
    }
  }

  lemma QueueHoldsPaidAndShipped(t: Tables, o: OrderId, queue: seq<OrderEvent>)
    requires Consistent(t)
    requires queue == Queue(t.pending, PendingIds(t.pending, o))
    ensures forall i :: 0 <= i < |queue| ==> queue[i].status == Paid || queue[i].status == Shipped
    ensures forall id :: InQueue(queue, id) <==> IsPendingFor(t.pending, o, id)
  {
    var ids := PendingIds(t.pending, o);
    QueueListsRows(t.pending, ids);
    forall i | 0 <= i < |queue|
      ensures queue[i].status == Paid || queue[i].status == Shipped
    {
      assert queue[i].eventId in ids;
    }
    forall id
      ensures InQueue(queue, id) <==> IsPendingFor(t.pending, o, id)
    {
      assert id in ids <==> IsPendingFor(t.pending, o, id);
    }
  }

  lemma UnblockedReplaySettlesAll(t: Tables, o: OrderId, queue: seq<OrderEvent>)
    requires Consistent(t) && CurrentStatus(t, o).IsKnown()
    requires queue == Queue(t.pending, PendingIds(t.pending, o)) && !MustWait(queue, CurrentStatus(t, o))
    ensures var r := Replay(t, queue, CurrentStatus(t, o));
            && r.status.IsSettled()
            && r.applied <= StepsLeft(CurrentStatus(t, o)) - StepsLeft(r.status)
            && r.applied + r.deadLettered + r.dropped == |queue|
            && (forall id :: !IsPendingFor(r.tables.pending, o, id))
  {
    var current := CurrentStatus(t, o);
    var r := Replay(t, queue, current);
    QueueIsDeferred(t, o);
    QueueHoldsPaidAndShipped(t, o, queue);
    ReplayConsumesAll(t, queue, current, o);
    ReplayKeepsRows(t, queue, current, o);
    forall id
      ensures !IsPendingFor(r.tables.pending, o, id)
    {
      assert InQueue(queue, id) <==> IsPendingFor(t.pending, o, id);
    }
  }

  lemma StuckReplayStops(t: Tables, queue: seq<OrderEvent>, current: Status)
    requires MustWait(queue, current)
    ensures Replay(t, queue, current) == Replayed(t, current, 0, 0, 0)
  {
  }

  /** All or nothing: replaying an existing order either stops at once and changes no table, or
      settles every pending event of the order. At most two events are applied. */
  lemma ReplayIsAllOrNothing(t: Tables, o: OrderId, queue: seq<OrderEvent>)
    requires Consistent(t) && CurrentStatus(t, o) != NoStatus
    requires queue == Queue(t.pending, PendingIds(t.pending, o))
    ensures var current := CurrentStatus(t, o);
            var r := Replay(t, queue, current);
            && (MustWait(queue, current) ==> r == Replayed(t, current, 0, 0, 0))
            && (!MustWait(queue, current) ==>
                  && r.status.IsSettled()
                  && r.applied + r.deadLettered + r.dropped == |queue|
                  && (forall id :: !IsPendingFor(r.tables.pending, o, id)))
            && r.applied <= StepsLeft(current) - StepsLeft(r.status) <= 2
  {
    StatusIsKnown(t, o);
    if MustWait(queue, CurrentStatus(t, o)) {
      StuckReplayStops(t, queue, CurrentStatus(t, o));
    } else {
      UnblockedReplaySettlesAll(t, o, queue);
    }
  }

  // ----- one whole event -----

  /** Only the order of the event can change. */
  lemma StepFrame(t: Tables, e: OrderEvent, o: OrderId)
    requires Consistent(t) && o != e.orderId
    ensures SameOrder(t, Step(t, e).tables, o)
  {
    if e.eventId !in t.processed {
      var current := CurrentStatus(t, e.orderId);
      var t1 := Route(t, e, current);
      assert e.eventId in t.pending <==> HasOutcome(t.processed, e.eventId, OutOfOrder);
      RouteFrame(t, e, current, o);
      if Classify(current, e.status) == Applied {
        var queue := Queue(t1.pending, PendingIds(t1.pending, e.orderId));
        QueueIsDeferred(t1, e.orderId);
        ReplayFrame(t1, queue, e.status, e.orderId, o);
        SameOrderIsTransitive(t, t1, Replay(t1, queue, e.status).tables, o);
      }
    }
  }

  // ----- what an event cannot touch: the records of the other orders -----

  function LettersOf(letters: seq<DeadLetterRow>, o: OrderId): seq<DeadLetterRow>
    decreases |letters|
  {
    if letters == [] then []
    else
      var n := |letters| - 1;
      LettersOf(letters[..n], o) + (if letters[n].orderId == o then [letters[n]] else [])
  }

  predicate IsRecordOf(processed: map<EventId, ProcessedRow>, o: OrderId, id: EventId) {
    id in processed && processed[id].orderId == o
  }

  /** History, dead letters and processed events of one order are the same. */
  ghost predicate SameRecords(t: Tables, u: Tables, o: OrderId) {
    && HistoryOf(t.history, o) == HistoryOf(u.history, o)
    && LettersOf(t.deadLetters, o) == LettersOf(u.deadLetters, o)
    && (forall id :: IsRecordOf(t.processed, o, id) <==> IsRecordOf(u.processed, o, id))
    && (forall id :: IsRecordOf(t.processed, o, id) ==> t.processed[id] == u.processed[id])
  }

  lemma SameRecordsIsTransitive(t: Tables, u: Tables, v: Tables, o: OrderId)
    requires SameRecords(t, u, o) && SameRecords(u, v, o)
    ensures SameRecords(t, v, o)
  {
    forall id
      ensures IsRecordOf(t.processed, o, id) <==> IsRecordOf(v.processed, o, id)
      ensures IsRecordOf(t.processed, o, id) ==> t.processed[id] == v.processed[id]
    {
      assert IsRecordOf(t.processed, o, id) <==> IsRecordOf(u.processed, o, id);
    }
  }

  lemma RouteKeepsRecords(t: Tables, e: OrderEvent, current: Status, o: OrderId)
    requires o != e.orderId
    requires e.eventId in t.processed ==> t.processed[e.eventId].orderId == e.orderId
    ensures SameRecords(t, Route(t, e, current), o)
  {
    var t' := Route(t, e, current);
    if t'.history != t.history {
      HistoryOfSnoc(t.history, t'.history[|t.history|], o);
    }
    if t'.deadLetters != t.deadLetters {
      assert t'.deadLetters[..|t.deadLetters|] == t.deadLetters;
    }
    forall id
      ensures IsRecordOf(t.processed, o, id) <==> IsRecordOf(t'.processed, o, id)
    {
      assert id != e.eventId ==> (id in t'.processed <==> id in t.processed);
    }
  }

  /** The processed events behind a queue belong to the queue's order. */
  ghost predicate AreRecordedFor(t: Tables, queue: seq<OrderEvent>, o: OrderId) {
    forall i :: 0 <= i < |queue| ==> queue[i].orderId == o && IsRecordOf(t.processed, o, queue[i].eventId)
  }

  lemma {:induction false} ReplayKeepsRecords(t: Tables, queue: seq<OrderEvent>, current: Status, o: OrderId, other: OrderId)
    requires AreRecordedFor(t, queue, o) && other != o
    ensures SameRecords(t, Replay(t, queue, current).tables, other)
    decreases |queue|
  {
    if queue != [] && Classify(current, queue[0].status) != OutOfOrder {
      var t' := Route(t, queue[0], current);
      RouteKeepsRecords(t, queue[0], current, other);
      var next := NextStatus(current, queue[0]);
      assert AreRecordedFor(t', queue[1..], o);
      ReplayKeepsRecords(t', queue[1..], next, o, other);
      SameRecordsIsTransitive(t, t', Replay(t', queue[1..], next).tables, other);
    }
  }

  lemma QueueIsRecorded(t: Tables, o: OrderId)
    requires PendingRowsMatch(t.processed, t.pending)
    ensures AreRecordedFor(t, Queue(t.pending, PendingIds(t.pending, o)), o)
  {
    var queue := Queue(t.pending, PendingIds(t.pending, o));
    QueueIsDeferred(t, o);
    forall i | 0 <= i < |queue|
      ensures queue[i].orderId == o && IsRecordOf(t.processed, o, queue[i].eventId)
    {
      assert IsPendingFor(t.pending, o, queue[i].eventId);
      assert queue[i].eventId in t.pending <==> HasOutcome(t.processed, queue[i].eventId, OutOfOrder);
    }
  }

  lemma StepKeepsRecords(t: Tables, e: OrderEvent, o: OrderId)
    requires Consistent(t) && e.status.IsKnown() && o != e.orderId
    ensures SameRecords(t, Step(t, e).tables, o)
  {
    if e.eventId !in t.processed {
      var current := CurrentStatus(t, e.orderId);
      var t1 := Route(t, e, current);
      RouteKeepsRecords(t, e, current, o);
      RouteKeepsConsistent(t, e);
      if Classify(current, e.status) == Applied {
        var queue := Queue(t1.pending, PendingIds(t1.pending, e.orderId));
        QueueIsRecorded(t1, e.orderId);
        ReplayKeepsRecords(t1, queue, e.status, e.orderId, o);
        SameRecordsIsTransitive(t, t1, Replay(t1, queue, e.status).tables, o);
      }
    }
  }

  /** A transaction changes no row of another order in any of the five tables. */
  lemma OtherOrdersAreUntouched(t: Tables, e: OrderEvent, o: OrderId)
    requires Consistent(t) && e.status.IsKnown() && o != e.orderId
    ensures SameOrder(t, Step(t, e).tables, o) && SameRecords(t, Step(t, e).tables, o)
  {
    StepFrame(t, e, o);
    StepKeepsRecords(t, e, o);
  }

  lemma StepKeepsConsistent(t: Tables, e: OrderEvent)
    requires Consistent(t) && e.status.IsKnown()
    ensures Consistent(Step(t, e).tables)
  {
    if e.eventId !in t.processed {
      var current := CurrentStatus(t, e.orderId);
      var t1 := Route(t, e, current);
      RouteKeepsConsistent(t, e);
      RoutesToItsStatus(t, e);
      if Classify(current, e.status) == Applied {
        QueueIsDeferred(t1, e.orderId);
        ReplayKeepsConsistent(t1, Queue(t1.pending, PendingIds(t1.pending, e.orderId)), e.orderId);
      }
    }
  }

  lemma SameOrderWaits(t: Tables, u: Tables, o: OrderId)
    requires SameOrder(t, u, o) && OrderWaits(t, o)
    ensures OrderWaits(u, o)
  {
    if CurrentStatus(u, o) == Created {
      forall p | IsPendingFor(u.pending, o, p) && u.pending[p].status == Paid
        ensures exists s :: IsPendingFor(u.pending, o, s) && u.pending[s].status == Shipped
                            && KeyLess(PendingKey(u.pending, s), PendingKey(u.pending, p))
      {
        assert IsPendingFor(t.pending, o, p);
        var s :| IsPendingFor(t.pending, o, s) && t.pending[s].status == Shipped
                 && KeyLess(PendingKey(t.pending, s), PendingKey(t.pending, p));
        assert IsPendingFor(u.pending, o, s);
      }
    } else {
      forall p
        ensures IsPendingFor(t.pending, o, p) <==> IsPendingFor(u.pending, o, p)
      {
      }
    }
  }

  lemma DeferredOrderWaits(t: Tables, e: OrderEvent)
    requires Inv(t) && e.eventId !in t.processed
    requires Classify(CurrentStatus(t, e.orderId), e.status) != Applied
    ensures OrderWaits(Route(t, e, CurrentStatus(t, e.orderId)), e.orderId)
  {
    var o, current := e.orderId, CurrentStatus(t, e.orderId);
    var t1 := Route(t, e, current);
    StatusIsKnown(t, o);
    assert e.eventId in t.pending <==> HasOutcome(t.processed, e.eventId, OutOfOrder);
    assert OrderWaits(t, o);
    if Classify(current, e.status) != OutOfOrder {
      assert t1.pending == t.pending;
      SameOrderWaits(t, t1, o);
    } else if current == Created {
      forall p | IsPendingFor(t1.pending, o, p) && t1.pending[p].status == Paid
        ensures exists s :: IsPendingFor(t1.pending, o, s) && t1.pending[s].status == Shipped
                            && KeyLess(PendingKey(t1.pending, s), PendingKey(t1.pending, p))
      {
        assert IsPendingFor(t.pending, o, p);
        var s :| IsPendingFor(t.pending, o, s) && t.pending[s].status == Shipped
                 && KeyLess(PendingKey(t.pending, s), PendingKey(t.pending, p));
        assert IsPendingFor(t1.pending, o, s);
      }
    }
  }

  /** A stuck queue is the reason to wait: its head, a SHIPPED event, precedes all the others. */
  lemma StuckQueueWaits(t: Tables, o: OrderId, queue: seq<OrderEvent>)
    requires Consistent(t) && CurrentStatus(t, o).IsKnown()
    requires queue == Queue(t.pending, PendingIds(t.pending, o))
    requires MustWait(queue, CurrentStatus(t, o))
    ensures OrderWaits(t, o)
  {
    QueueHoldsPaidAndShipped(t, o, queue);
    if queue == [] {
      forall p
        ensures !IsPendingFor(t.pending, o, p)
      {
        assert !InQueue(queue, p);
      }
    } else {
      var s := queue[0].eventId;
      QueueIsDeferred(t, o);
      QueueAscends(t.pending, PendingIds(t.pending, o));
      forall p | IsPendingFor(t.pending, o, p) && t.pending[p].status == Paid
        ensures KeyLess(PendingKey(t.pending, s), PendingKey(t.pending, p))
      {
        assert InQueue(queue, p);
        var j :| 0 <= j < |queue| && queue[j].eventId == p;
        assert KeyLess(EventKey(queue[0]), EventKey(queue[j]));
      }
      assert IsPendingFor(t.pending, o, s);
    }
  }

  lemma ReplayedOrderWaits(t: Tables, e: OrderEvent)
    requires Consistent(t) && e.status.IsKnown() && e.eventId !in t.processed
    requires Classify(CurrentStatus(t, e.orderId), e.status) == Applied
    ensures OrderWaits(Step(t, e).tables, e.orderId)
  {
    var o := e.orderId;
    var t1 := Route(t, e, CurrentStatus(t, o));
    RouteKeepsConsistent(t, e);
    RoutesToItsStatus(t, e);
    var queue := Queue(t1.pending, PendingIds(t1.pending, o));
    ReplayIsAllOrNothing(t1, o, queue);
    QueueIsDeferred(t1, o);
    ReplayKeepsConsistent(t1, queue, o);
    if MustWait(queue, e.status) {
      StuckQueueWaits(t1, o, queue);
    }
  }

  /** Every event, accepted or not, keeps the invariant. */
  lemma ProcessKeepsInv(t: Tables, e: OrderEvent)
    requires Inv(t)
    ensures Inv(Process(t, e))
  {
    if ValidateEvent(e).Valid? {
      StepKeepsInv(t, ValidateEvent(e).event);
    }
  }

  lemma StepKeepsInv(t: Tables, e: OrderEvent)
    requires Inv(t) && e.status.IsKnown()
    ensures Inv(Step(t, e).tables)
  {
    StepKeepsConsistent(t, e);
    var t' := Step(t, e).tables;
    forall o
      ensures OrderWaits(t', o)
    {
      assert OrderWaits(t, o);
      if o != e.orderId {
        StepFrame(t, e, o);
        SameOrderWaits(t, t', o);
      } else if e.eventId !in t.processed {
        if Classify(CurrentStatus(t, o), e.status) == Applied {
          ReplayedOrderWaits(t, e);
        } else {
          DeferredOrderWaits(t, e);
        }
      }
    }
  }

  lemma EmptyTablesInv()
    ensures Inv(EMPTY_TABLES)
  {
    forall o
      ensures OrderSumsUp(EMPTY_TABLES, o)
    {
      assert HistoryOf(EMPTY_TABLES.history, o) == [];
    }
  }

  /** The invariant holds in every state the service reaches. */
  lemma {:induction false} RunKeepsInv(t: Tables, events: seq<OrderEvent>)
    requires Inv(t)
    ensures Inv(Run(t, events))
    decreases |events|
  {
    if events != [] {
      var n := |events| - 1;
      RunKeepsInv(t, events[..n]);
      ProcessKeepsInv(Run(t, events[..n]), events[n]);
    }
  }

  lemma {:induction false} ReplayKeepsKeys(t: Tables, queue: seq<OrderEvent>, current: Status)
    requires forall i :: 0 <= i < |queue| ==> queue[i].eventId in t.processed
    ensures Replay(t, queue, current).tables.processed.Keys == t.processed.Keys
    decreases |queue|
  {
    if queue != [] && Classify(current, queue[0].status) != OutOfOrder {
      var t' := Route(t, queue[0], current);
      assert t'.processed.Keys == t.processed.Keys;
      ReplayKeepsKeys(t', queue[1..], NextStatus(current, queue[0]));
    }
  }

  /** A transaction adds its own event id to the processed events and no other. */
  lemma StepAddsKey(t: Tables, e: OrderEvent)
    requires PendingRowsMatch(t.processed, t.pending)
    ensures Step(t, e).tables.processed.Keys == t.processed.Keys + {e.eventId}
  {
    var current := CurrentStatus(t, e.orderId);
    if e.eventId !in t.processed && Classify(current, e.status) == Applied {
      var t1 := Route(t, e, current);
      var queue := Queue(t1.pending, PendingIds(t1.pending, e.orderId));
      QueueIsDeferred(t1, e.orderId);
      forall i | 0 <= i < |queue|
        ensures queue[i].eventId in t1.processed
      {
        assert IsPendingFor(t1.pending, e.orderId, queue[i].eventId);
        assert queue[i].eventId in t.pending <==> HasOutcome(t.processed, queue[i].eventId, OutOfOrder);
      }
      ReplayKeepsKeys(t1, queue, e.status);
    }
  }
}
