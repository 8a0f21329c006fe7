/** The repository that processes one event in one transaction, statement by statement. */
module Repository {
  import opened Domain
  import opened Schema
  import opened Processor
  import opened Invariants
  import opened Steps

  // ----- the statements of one routed event -----

  function ReceivedRow(e: OrderEvent): ProcessedRow {
    ProcessedRow(e.orderId, e.status, e.timestamp, Received)
  }

  function SaveOrder(e: OrderEvent, orderExists: bool): Stmt {
    var row := OrderRow(e.status, e.timestamp);
    if orderExists then UpdateOrder(e.orderId, row) else InsertOrder(e.orderId, row)
  }

  function SaveHistory(e: OrderEvent, current: Status, orderExists: bool): Stmt {
    InsertHistory(HistoryRow(e.eventId, e.orderId, if orderExists then Some(current) else None, e.status, e.timestamp))
  }

  function SavePending(e: OrderEvent, reason: Reason): Stmt {
    InsertPending(e.eventId, PendingRow(e.orderId, e.status, e.timestamp, reason, e.payload))
  }

  function SaveDeadLetter(e: OrderEvent, reason: Reason): Stmt {
    InsertDeadLetter(DeadLetterRow(e.eventId, e.orderId, e.status, reason, e.payload))
  }

  /** The statements that act on a classification, ending with the outcome update. */
  function RouteStmts(e: OrderEvent, current: Status, orderExists: bool): seq<Stmt> {
    var tr := EvaluateTransition(current, e.status);
    var outcome := UpdateOutcome(e.eventId, tr.classification);
    if tr.classification == Applied then [SaveOrder(e, orderExists), SaveHistory(e, current, orderExists), outcome]
    else if tr.classification == OutOfOrder then [SavePending(e, tr.reason), outcome]
    else if tr.classification == InvalidTransition then [SaveDeadLetter(e, tr.reason), outcome]
    else [outcome]
  }

  /** A new event: record it as received, then route it. */
  function FirstStmts(e: OrderEvent, current: Status, orderExists: bool): seq<Stmt> {
    [InsertProcessed(e.eventId, ReceivedRow(e))] + RouteStmts(e, current, orderExists)
  }

  /** A replayed event: route it, then take it out of the pending table. */
  function ReplayStmts(e: OrderEvent, current: Status): seq<Stmt> {
    RouteStmts(e, current, true) + [DeletePending(e.eventId)]
  }

  lemma NoHistoryYet(t: Tables, id: EventId)
    requires HistoryMatches(t.processed, t.history) && !HasOutcome(t.processed, id, Applied)
    ensures !InHistory(t.history, id)
  {
    forall i | 0 <= i < |t.history|
      ensures t.history[i].eventId != id
    {
      assert HistoryFits(t.processed, t.history[i]);
    }
  }

  lemma OneStmt(t: Tables, a: Stmt)
    ensures ExecAll(t, [a]) == Exec(t, a)
    ensures AcceptsAll(t, [a]) <==> Accepts(t, a)
  {
    assert [a][1..] == [];
  }

  lemma TwoStmts(t: Tables, a: Stmt, b: Stmt)
    ensures ExecAll(t, [a, b]) == Exec(Exec(t, a), b)
    ensures AcceptsAll(t, [a, b]) <==> Accepts(t, a) && Accepts(Exec(t, a), b)
  {
    assert [a, b][1..] == [b];
    OneStmt(Exec(t, a), b);
  }

  lemma ThreeStmts(t: Tables, a: Stmt, b: Stmt, c: Stmt)
    ensures ExecAll(t, [a, b, c]) == Exec(Exec(Exec(t, a), b), c)
    ensures AcceptsAll(t, [a, b, c]) <==> Accepts(t, a) && Accepts(Exec(t, a), b) && Accepts(Exec(Exec(t, a), b), c)
  {
    assert [a, b, c][1..] == [b, c];
    TwoStmts(Exec(t, a), b, c);
  }

  /** The tables after a routed event whose row was not taken out of the pending table yet. */
  function RouteInPlace(t: Tables, e: OrderEvent, current: Status): Tables {
    var routed := Route(t, e, current);
    if Classify(current, e.status) == OutOfOrder then routed else routed.(pending := t.pending)
  }

  /** Where a routed event may be written without breaking a constraint. */
  ghost predicate Writable(t: Tables, e: OrderEvent, current: Status, orderExists: bool) {
    && e.status.IsKnown()
    && e.eventId in t.processed
    && t.processed[e.eventId].(outcome := Received) == ReceivedRow(e)
    && (orderExists <==> e.orderId in t.orders)
    && (orderExists <==> current != NoStatus)
    && (current == NoStatus || current.IsKnown())
    && !InHistory(t.history, e.eventId)
    && (Classify(current, e.status) == OutOfOrder ==> e.eventId !in t.pending)
  }

  lemma RouteStmtsRoute(t: Tables, e: OrderEvent, current: Status, orderExists: bool)
    requires Writable(t, e, current, orderExists)
    ensures AcceptsAll(t, RouteStmts(e, current, orderExists))
    ensures ExecAll(t, RouteStmts(e, current, orderExists)) == RouteInPlace(t, e, current)
  {
    var tr := EvaluateTransition(current, e.status);
    var outcome := UpdateOutcome(e.eventId, tr.classification);
    if tr.classification == Applied {
      ThreeStmts(t, SaveOrder(e, orderExists), SaveHistory(e, current, orderExists), outcome);
    } else if tr.classification == OutOfOrder {
      TwoStmts(t, SavePending(e, tr.reason), outcome);
    } else if tr.classification == InvalidTransition {
      TwoStmts(t, SaveDeadLetter(e, tr.reason), outcome);
    } else {
      OneStmt(t, outcome);
    }
  }

  lemma NewEventIsWritable(t: Tables, e: OrderEvent)
    requires Consistent(t) && e.status.IsKnown() && e.eventId !in t.processed
    ensures Writable(Exec(t, InsertProcessed(e.eventId, ReceivedRow(e))), e, CurrentStatus(t, e.orderId), e.orderId in t.orders)
    ensures e.eventId !in t.pending
  {
    StatusIsKnown(t, e.orderId);
    NoHistoryYet(t, e.eventId);
    assert e.eventId in t.pending <==> HasOutcome(t.processed, e.eventId, OutOfOrder);
  }

  lemma DeferredEventIsWritable(t: Tables, e: OrderEvent)
    requires Consistent(t) && e.eventId in t.pending && e == PendingEvent(t.pending, e.eventId)
    requires e.orderId in t.orders && Classify(CurrentStatus(t, e.orderId), e.status) != OutOfOrder
    ensures Writable(t, e, CurrentStatus(t, e.orderId), true)
  {
    StatusIsKnown(t, e.orderId);
    assert e.eventId in t.pending <==> HasOutcome(t.processed, e.eventId, OutOfOrder);
    NoHistoryYet(t, e.eventId);
  }

  lemma InsertedThenRouted(t: Tables, e: OrderEvent, current: Status)
    requires e.eventId !in t.pending
    ensures RouteInPlace(Exec(t, InsertProcessed(e.eventId, ReceivedRow(e))), e, current) == Route(t, e, current)
  {
    assert t.pending - {e.eventId} == t.pending;
    assert t.processed[e.eventId := ReceivedRow(e)][e.eventId := ReceivedRow(e).(outcome := Classify(current, e.status))]
        == Route(t, e, current).processed;
  }

  lemma RoutedThenDeleted(t: Tables, e: OrderEvent, current: Status)
    requires Classify(current, e.status) != OutOfOrder
    ensures Exec(RouteInPlace(t, e, current), DeletePending(e.eventId)) == Route(t, e, current)
  {
  }

  /** No statement issued for a new event violates a constraint, and together they route it. */
  lemma FirstStmtsRoute(t: Tables, e: OrderEvent)
    requires Consistent(t) && e.status.IsKnown() && e.eventId !in t.processed
    ensures var current := CurrentStatus(t, e.orderId);
            var stmts := FirstStmts(e, current, e.orderId in t.orders);
            AcceptsAll(t, stmts) && ExecAll(t, stmts) == Route(t, e, current)
  {
    var current, orderExists := CurrentStatus(t, e.orderId), e.orderId in t.orders;
    var insert := InsertProcessed(e.eventId, ReceivedRow(e));
    NewEventIsWritable(t, e);
    RouteStmtsRoute(Exec(t, insert), e, current, orderExists);
    OneStmt(t, insert);
    ExecAllConcat(t, [insert], RouteStmts(e, current, orderExists));
    InsertedThenRouted(t, e, current);
  }

  /** The same for an event taken from the pending table. */
  lemma ReplayStmtsRoute(t: Tables, e: OrderEvent)
    requires Consistent(t) && e.eventId in t.pending && e == PendingEvent(t.pending, e.eventId)
    requires e.orderId in t.orders && Classify(CurrentStatus(t, e.orderId), e.status) != OutOfOrder
    ensures var current := CurrentStatus(t, e.orderId);
            AcceptsAll(t, ReplayStmts(e, current)) && ExecAll(t, ReplayStmts(e, current)) == Route(t, e, current)
  {
    var current, last := CurrentStatus(t, e.orderId), DeletePending(e.eventId);
    DeferredEventIsWritable(t, e);
    RouteStmtsRoute(t, e, current, true);
    ExecAllConcat(t, RouteStmts(e, current, true), [last]);
    OneStmt(RouteInPlace(t, e, current), last);
    RoutedThenDeleted(t, e, current);
  }

  // ----- the queue while it is being re-queried -----

  /** Taking the least row out of the pending table leaves the rest of the queue. */
  lemma QueueTail(pending: map<EventId, PendingRow>, o: OrderId, queue: seq<OrderEvent>)
    requires queue == Queue(pending, PendingIds(pending, o)) && queue != []
    ensures var rest := pending - {queue[0].eventId}; Queue(rest, PendingIds(rest, o)) == queue[1..]
    ensures IsLeast(pending, PendingIds(pending, o), queue[0].eventId)
    ensures queue[0] == PendingEvent(pending, queue[0].eventId) && queue[0].orderId == o
  {
    var ids := PendingIds(pending, o);
    var id := queue[0].eventId;
    var rest := pending - {id};
    QueueUnfolds(pending, ids);
    assert PendingIds(rest, o) == ids - {id};
    QueueDependsOnRows(pending, rest, ids - {id});
  }

  /** One round of the replay loop: route the head, and the rest is the queue of what is left. */
  lemma ReplayRound(t: Tables, o: OrderId, queue: seq<OrderEvent>)
    requires Consistent(t) && o in t.orders
    requires queue == Queue(t.pending, PendingIds(t.pending, o)) && queue != []
    requires Classify(CurrentStatus(t, o), queue[0].status) != OutOfOrder
    ensures var t' := Route(t, queue[0], CurrentStatus(t, o));
            && Consistent(t') && o in t'.orders
            && CurrentStatus(t', o) == NextStatus(CurrentStatus(t, o), queue[0])
            && queue[1..] == Queue(t'.pending, PendingIds(t'.pending, o))
  {
    QueueTail(t.pending, o, queue);
    assert IsPendingFor(t.pending, o, queue[0].eventId);
    QueueIsDeferred(t, o);
    DeferredIsRoutable(t, queue, o);
    RouteKeepsConsistent(t, queue[0]);
    RoutesToItsStatus(t, queue[0]);
  }

  lemma ReplayUnfolds(t: Tables, queue: seq<OrderEvent>, current: Status)
    requires queue != [] && Classify(current, queue[0].status) != OutOfOrder
    ensures var r := Replay(Route(t, queue[0], current), queue[1..], NextStatus(current, queue[0]));
            && Replay(t, queue, current).tables == r.tables
            && Replay(t, queue, current).applied == r.applied + if Classify(current, queue[0].status) == Applied then 1 else 0
  {
  }

  // ----- the repository -----

  datatype TxError = InvalidEvent(error: EventError) | TransactionFailed

  datatype TxResult = Committed(result: ProcessResult) | Failed(error: TxError)

  /** A transaction commits, or `FailsAfter(n)`: its first n commands succeed and the next one fails,
      be it the begin, the lock, a query, a statement or, at the latest, the commit. */
  datatype TxFate = Commits | FailsAfter(commands: nat)

  /** The database behind one repository, changed in place by SQL statements. */
  class OrderRepository {
    var orders: map<OrderId, OrderRow>
    var processed: map<EventId, ProcessedRow>
    var history: seq<HistoryRow>
    var pending: map<EventId, PendingRow>
    var deadLetters: seq<DeadLetterRow>
    /** What is still to happen to the transaction in progress. */
    var fate: TxFate

    constructor ()
      ensures Contents() == EMPTY_TABLES && Inv(Contents())
    {
      orders, processed, history, pending, deadLetters, fate := map[], map[], [], map[], [], Commits;
      new;
      EmptyTablesInv();
    }

    function Contents(): Tables
      reads this`orders, this`processed, this`history, this`pending, this`deadLetters
    {
      Tables(orders, processed, history, pending, deadLetters)
    }

    /** One more command reaches the database, which may fail it. */
    method Command() returns (ok: bool)
      modifies this`fate
      ensures ok <==> old(fate) != FailsAfter(0)
      ensures fate == match old(fate)
                      case Commits => Commits
                      case FailsAfter(n) => FailsAfter(if n > 0 then n - 1 else 0)
    {
      ok := fate != FailsAfter(0);
      if ok && fate.FailsAfter? {
        fate := FailsAfter(fate.commands - 1);
      }
    }

    /** Inserts the event id unless it is already there, and says whether it did. */
    method InsertProcessedEvent(e: OrderEvent) returns (ok: bool, inserted: bool)
      requires e.eventId !in processed ==> Accepts(Contents(), InsertProcessed(e.eventId, ReceivedRow(e)))
      modifies this`processed, this`fate
      ensures fate.Commits? <==> old(fate).Commits?
      ensures old(fate).Commits? ==> ok
      ensures ok ==> (inserted <==> e.eventId !in old(processed))
      ensures ok ==> Contents() == if inserted then Exec(old(Contents()), InsertProcessed(e.eventId, ReceivedRow(e)))
                                   else old(Contents())
    {
      inserted := false;
      ok := Command();
      if ok {
        inserted := e.eventId !in processed;
        if inserted {
          processed := processed[e.eventId := ProcessedRow(e.orderId, e.status, e.timestamp, Received)];
        }
      }
    }

    method LoadCurrentStatus(o: OrderId) returns (ok: bool, current: Status, found: bool)
      modifies this`fate
      ensures fate.Commits? <==> old(fate).Commits?
      ensures old(fate).Commits? ==> ok
      ensures ok ==> current == CurrentStatus(Contents(), o) && (found <==> o in orders)
    {
      ok := Command();
      if ok && o in orders {
        return ok, orders[o].status, true;
      }
      return ok, NoStatus, false;
    }

    /** Saves the new status of the order and records the step in its history. */
    method ApplyEvent(e: OrderEvent, current: Status, orderExists: bool) returns (ok: bool)
      requires Accepts(Contents(), SaveOrder(e, orderExists))
      requires Accepts(Exec(Contents(), SaveOrder(e, orderExists)), SaveHistory(e, current, orderExists))
      modifies this`orders, this`history, this`fate
      ensures fate.Commits? <==> old(fate).Commits?
      ensures old(fate).Commits? ==> ok
      ensures ok ==>
                Contents() == Exec(Exec(old(Contents()), SaveOrder(e, orderExists)), SaveHistory(e, current, orderExists))
    {
      ok := Command();
      if !ok { return; }
      orders := orders[e.orderId := OrderRow(e.status, e.timestamp)];
      ok := Command();
      if !ok { return; }
      var fromStatus := if orderExists then Some(current) else None;
      history := history + [HistoryRow(e.eventId, e.orderId, fromStatus, e.status, e.timestamp)];
    }

    method InsertPendingEvent(e: OrderEvent, reason: Reason) returns (ok: bool)
      requires Accepts(Contents(), SavePending(e, reason))
      modifies this`pending, this`fate
      ensures fate.Commits? <==> old(fate).Commits?
      ensures old(fate).Commits? ==> ok
      ensures ok ==> Contents() == Exec(old(Contents()), SavePending(e, reason))
    {
      ok := Command();
      if ok {
        pending := pending[e.eventId := PendingRow(e.orderId, e.status, e.timestamp, reason, e.payload)];
      }
    }

    method InsertDeadLetterEvent(e: OrderEvent, reason: Reason) returns (ok: bool)
      requires Accepts(Contents(), SaveDeadLetter(e, reason))
      modifies this`deadLetters, this`fate
      ensures fate.Commits? <==> old(fate).Commits?
      ensures old(fate).Commits? ==> ok
      ensures ok ==> Contents() == Exec(old(Contents()), SaveDeadLetter(e, reason))
    {
      ok := Command();
      if ok {
        deadLetters := deadLetters + [DeadLetterRow(e.eventId, e.orderId, e.status, reason, e.payload)];
      }
    }

    method SetOutcome(id: EventId, outcome: Classification) returns (ok: bool)
      requires Accepts(Contents(), UpdateOutcome(id, outcome))
      modifies this`processed, this`fate
      ensures fate.Commits? <==> old(fate).Commits?
      ensures old(fate).Commits? ==> ok
      ensures ok ==> Contents() == Exec(old(Contents()), UpdateOutcome(id, outcome))
    {
      ok := Command();
      if ok {
        processed := processed[id := processed[id].(outcome := outcome)];
      }
    }

    method DeletePendingEvent(id: EventId) returns (ok: bool)
      requires Accepts(Contents(), DeletePending(id))
      modifies this`pending, this`fate
      ensures fate.Commits? <==> old(fate).Commits?
      ensures old(fate).Commits? ==> ok
      ensures ok ==> Contents() == Exec(old(Contents()), DeletePending(id))
    {
      ok := Command();
      if ok {
        pending := pending - {id};
      }
    }

    /** Acts on a classification: the order and its history, the pending table or the dead
        letters, and the outcome of the processed row. */
    method RouteEvent(e: OrderEvent, current: Status, orderExists: bool) returns (ok: bool)
      requires Writable(Contents(), e, current, orderExists)
      modifies this
      ensures fate.Commits? <==> old(fate).Commits?
      ensures old(fate).Commits? ==> ok
      ensures ok ==> Contents() == RouteInPlace(old(Contents()), e, current)
    {
      ghost var before := Contents();
      RouteStmtsRoute(before, e, current, orderExists);
      var transition := EvaluateTransition(current, e.status);
      if transition.classification == Applied {
        ThreeStmts(before, SaveOrder(e, orderExists), SaveHistory(e, current, orderExists), UpdateOutcome(e.eventId, Applied));
        ok := ApplyEvent(e, current, orderExists);
        if !ok { return; }
        ok := SetOutcome(e.eventId, Applied);
      } else if transition.classification == DuplicateStatus {
        OneStmt(before, UpdateOutcome(e.eventId, DuplicateStatus));
        ok := SetOutcome(e.eventId, DuplicateStatus);
      } else if transition.classification == OutOfOrder {
        TwoStmts(before, SavePending(e, transition.reason), UpdateOutcome(e.eventId, OutOfOrder));
        ok := InsertPendingEvent(e, transition.reason);
        if !ok { return; }
        ok := SetOutcome(e.eventId, OutOfOrder);
      } else {
        TwoStmts(before, SaveDeadLetter(e, transition.reason), UpdateOutcome(e.eventId, InvalidTransition));
        ok := InsertDeadLetterEvent(e, transition.reason);
        if !ok { return; }
        ok := SetOutcome(e.eventId, InvalidTransition);
      }
    }

    /** The least pending row of an order by timestamp and event id, if there is one. */
    method LoadNextPending(o: OrderId) returns (ok: bool, next: Option<OrderEvent>)
      modifies this`fate
      ensures fate.Commits? <==> old(fate).Commits?
      ensures old(fate).Commits? ==> ok
      ensures ok ==>
                var queue := Queue(pending, PendingIds(pending, o));
                next == if queue == [] then None else Some(queue[0])
      ensures ok && next.Some? ==> IsLeast(pending, PendingIds(pending, o), next.value.eventId)
                                   && next.value == PendingEvent(pending, next.value.eventId)
    {
      ok := Command();
      var ids := PendingIds(pending, o);
      if !ok || ids == {} {
        return ok, None;
      }
      LeastExists(pending, ids);
      var id :| id in ids && forall other :: other in ids && other != id ==>
        KeyLess(Key(pending[id].timestamp, id), Key(pending[other].timestamp, other));
      assert IsLeast(pending, ids, id);
      LeastIsUnique(pending, ids, id, Least(pending, ids));
      next := Some(OrderEvent(id, pending[id].orderId, pending[id].status, pending[id].timestamp, pending[id].payload));
    }

    /** Routes one deferred event and takes it out of the pending table. */
    method ReplayEvent(e: OrderEvent, current: Status) returns (ok: bool)
      requires Consistent(Contents()) && e.eventId in pending && e == PendingEvent(pending, e.eventId)
      requires e.orderId in orders && orders[e.orderId].status == current
      requires Classify(current, e.status) != OutOfOrder
      modifies this
      ensures fate.Commits? <==> old(fate).Commits?
      ensures old(fate).Commits? ==> ok
      ensures ok ==> Contents() == Route(old(Contents()), e, current)
    {
      DeferredEventIsWritable(Contents(), e);
      RoutedThenDeleted(Contents(), e, current);
      ok := RouteEvent(e, current, true);
      if !ok { return; }
      ok := DeletePendingEvent(e.eventId);
    }

    /** One round of the loop: replays the least deferred event, unless it has to keep waiting. */
    method ReplayNext(o: OrderId, current: Status, ghost queue: seq<OrderEvent>)
      returns (ok: bool, replayed: Option<OrderEvent>)
      requires Consistent(Contents()) && o in orders && orders[o].status == current
      requires queue == Queue(pending, PendingIds(pending, o))
      modifies this
      ensures fate.Commits? <==> old(fate).Commits?
      ensures old(fate).Commits? ==> ok
      ensures ok && replayed.None? ==>
                Contents() == old(Contents()) && (queue == [] || Classify(current, queue[0].status) == OutOfOrder)
      ensures ok && replayed.Some? ==>
                && queue != [] && replayed.value == queue[0] && Classify(current, queue[0].status) != OutOfOrder
                && Contents() == Route(old(Contents()), queue[0], current)
    {
      var next;
      ok, next := LoadNextPending(o);
      if !ok || next == None || Classify(current, next.value.status) == OutOfOrder {
        return ok, None;
      }
      replayed := next;
      ReplayRound(Contents(), o, queue);
      QueueTail(pending, o, queue);
      ok := ReplayEvent(next.value, current);
    }

    /** Replays deferred events, asking for the least row again after each one. This equals one
        pass over the rows sorted once, and it ends because each round removes a row. */
    method ReplayPending(o: OrderId, status: Status) returns (ok: bool, appliedCount: nat)
      requires Consistent(Contents()) && o in orders && orders[o].status == status
      modifies this
      ensures fate.Commits? <==> old(fate).Commits?
      ensures old(fate).Commits? ==> ok
      ensures ok ==> var r := ReplayOrder(old(Contents()), o, status);
                     Contents() == r.tables && appliedCount == r.applied
    {
      ghost var queue := Queue(pending, PendingIds(pending, o));
      ghost var whole := Replay(Contents(), queue, status);
      var current := status;
      appliedCount := 0;
      while true
        invariant fate.Commits? <==> old(fate).Commits?
        invariant Consistent(Contents()) && o in orders && orders[o].status == current
        invariant queue == Queue(pending, PendingIds(pending, o))
        invariant Replay(Contents(), queue, current).tables == whole.tables
        invariant appliedCount + Replay(Contents(), queue, current).applied == whole.applied
        decreases |queue|
      {
        ghost var before := Contents();
        var replayed;
        ok, replayed := ReplayNext(o, current, queue);
        if !ok || replayed == None {
          return;
        }
        ReplayRound(before, o, queue);
        ReplayUnfolds(before, queue, current);
        if Classify(current, replayed.value.status) == Applied {
          current := replayed.value.status;
          appliedCount := appliedCount + 1;
        }
        queue := queue[1..];
      }
    }

    /** Puts back the tables that a failed transaction started from. */
    method Rollback(to: Tables)
      modifies this
      ensures Contents() == to
    {
      orders, processed, history, pending, deadLetters := to.orders, to.processed, to.history, to.pending, to.deadLetters;
    }

    /** One transaction. It commits `Step` or changes nothing at all, whichever of its commands
        fails; every statement on the way respects the schema. */
    method ProcessEventTx(raw: OrderEvent, fate: TxFate) returns (answer: TxResult)
      requires Inv(Contents())
      modifies this
      ensures Inv(Contents())
      ensures answer.Committed? <==> fate.Commits? && ValidateEvent(raw).Valid?
      ensures answer.Committed? ==>
                && Contents() == Process(old(Contents()), raw)
                && answer.result == Step(old(Contents()), ValidateEvent(raw).event).result
      ensures answer.Failed? ==> Contents() == old(Contents())
      ensures answer.Failed? && ValidateEvent(raw).Rejected? ==> answer.error == InvalidEvent(ValidateEvent(raw).error)
    {
      var validated := ValidateEvent(raw);
      if validated.Rejected? {
        return Failed(InvalidEvent(validated.error));
      }
      var before := Contents();
      this.fate := fate;
      StepKeepsInv(before, validated.event);
      var ok, result := RunTx(validated.event, before);
      if ok && this.fate.Commits? {
        return Committed(result);
      }
      Rollback(before);
      answer := Failed(TransactionFailed);
    }

    /** Everything between validation and commit. */
    method RunTx(e: OrderEvent, ghost before: Tables) returns (ok: bool, result: ProcessResult)
      requires Inv(before) && e.status.IsKnown() && Contents() == before
      modifies this
      ensures fate.Commits? <==> old(fate).Commits?
      ensures old(fate).Commits? ==> ok
      ensures ok ==> Contents() == Step(before, e).tables && result == Step(before, e).result
    {
      result := DuplicateResult(e);
      ok := Command();
      if !ok { return; }
      ok := Command();
      if !ok { return; }
      if e.eventId !in processed {
        NewEventIsWritable(before, e);
      }
      var inserted;
      ok, inserted := InsertProcessedEvent(e);
      if !ok || !inserted { return; }
      ok, result := ProcessNewEvent(e, before);
    }

    /** The part of the transaction that follows the insert of a new event id. */
    method ProcessNewEvent(e: OrderEvent, ghost before: Tables) returns (ok: bool, result: ProcessResult)
      requires Inv(before) && e.status.IsKnown() && e.eventId !in before.processed
      requires Contents() == Exec(before, InsertProcessed(e.eventId, ReceivedRow(e)))
      modifies this
      ensures fate.Commits? <==> old(fate).Commits?
      ensures old(fate).Commits? ==> ok
      ensures ok ==> Contents() == Step(before, e).tables && result == Step(before, e).result
    {
      result := DuplicateResult(e);
      var current, orderExists;
      ok, current, orderExists := LoadCurrentStatus(e.orderId);
      if !ok { return; }
      var transition := EvaluateTransition(current, e.status);
      NewEventIsWritable(before, e);
      InsertedThenRouted(before, e, current);
      ok := RouteEvent(e, current, orderExists);
      if !ok { return; }
      RouteKeepsConsistent(before, e);
      RoutesToItsStatus(before, e);
      var replayed := 0;
      if transition.classification == Applied {
        ok, replayed := ReplayPending(e.orderId, e.status);
        if !ok { return; }
      }
      result := ProcessResult(
        e.eventId, e.orderId, transition.classification,
        transition.classification == Applied,
        transition.classification == DuplicateStatus,
        transition.classification == OutOfOrder,
        transition.classification == InvalidTransition,
        replayed,
        transition.reason);
    }
  }
}
