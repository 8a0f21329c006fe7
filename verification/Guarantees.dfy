/** What an operator can rely on in every committed state, read off the invariant. */
module Guarantees {
  import opened Domain
  import opened Schema
  import opened Processor
  import opened Invariants
  import opened Steps
  import opened Runs
  import opened Convergence
  import opened Transactions
  import opened Concurrency
  import opened Metrics

  function CountHistory(history: seq<HistoryRow>, id: EventId): nat
    decreases |history|
  {
    if history == [] then 0
    else CountHistory(history[..|history| - 1], id) + if history[|history| - 1].eventId == id then 1 else 0
  }

  function CountLetters(letters: seq<DeadLetterRow>, id: EventId): nat
    decreases |letters|
  {
    if letters == [] then 0
    else CountLetters(letters[..|letters| - 1], id) + if letters[|letters| - 1].eventId == id then 1 else 0
  }

  lemma {:induction false} HistoryIdsCount(history: seq<HistoryRow>, id: EventId)
    requires forall i, j :: 0 <= i < j < |history| ==> history[i].eventId != history[j].eventId
    ensures CountHistory(history, id) == if InHistory(history, id) then 1 else 0
    decreases |history|
  {
    if history != [] {
      var n := |history| - 1;
      HistoryIdsCount(history[..n], id);
      assert forall i :: 0 <= i < n ==> history[..n][i] == history[i];
      if InHistory(history[..n], id) {
        var i :| 0 <= i < n && history[..n][i].eventId == id;
        assert history[i].eventId == id;
      }
    }
  }

  lemma {:induction false} LetterIdsCount(letters: seq<DeadLetterRow>, id: EventId)
    requires forall i, j :: 0 <= i < j < |letters| ==> letters[i].eventId != letters[j].eventId
    ensures CountLetters(letters, id) == if InDeadLetters(letters, id) then 1 else 0
    decreases |letters|
  {
    if letters != [] {
      var n := |letters| - 1;
      LetterIdsCount(letters[..n], id);
      assert forall i :: 0 <= i < n ==> letters[..n][i] == letters[i];
      if InDeadLetters(letters[..n], id) {
        var i :| 0 <= i < n && letters[..n][i].eventId == id;
        assert letters[i].eventId == id;
      }
    }
  }

  function RowsFor(t: Tables, id: EventId): nat {
    CountHistory(t.history, id) + CountLetters(t.deadLetters, id) + if id in t.pending then 1 else 0
  }

  lemma HistoryCount(processed: map<EventId, ProcessedRow>, history: seq<HistoryRow>, id: EventId)
    requires HistoryMatches(processed, history)
    ensures CountHistory(history, id) == if HasOutcome(processed, id, Applied) then 1 else 0
  {
    HistoryIdsCount(history, id);
    if InHistory(history, id) {
      var i :| 0 <= i < |history| && history[i].eventId == id;
      assert HistoryFits(processed, history[i]);
    }
  }

  lemma LetterCount(processed: map<EventId, ProcessedRow>, letters: seq<DeadLetterRow>, id: EventId)
    requires DeadLettersMatch(processed, letters)
    ensures CountLetters(letters, id) == if HasOutcome(processed, id, InvalidTransition) then 1 else 0
  {
    LetterIdsCount(letters, id);
    if InDeadLetters(letters, id) {
      var i :| 0 <= i < |letters| && letters[i].eventId == id;
      assert DeadLetterFits(processed, letters[i]);
    }
  }

  /** One fate per event: an applied event has one history row, a waiting one its pending row, a
      rejected one a dead letter, a repeated status none; and no row speaks of an unknown event. */
  lemma OneFate(t: Tables, id: EventId)
    requires Inv(t)
    ensures id in t.processed ==> t.processed[id].outcome in {Applied, DuplicateStatus, OutOfOrder, InvalidTransition}
    ensures CountHistory(t.history, id) == if HasOutcome(t.processed, id, Applied) then 1 else 0
    ensures CountLetters(t.deadLetters, id) == if HasOutcome(t.processed, id, InvalidTransition) then 1 else 0
    ensures id in t.pending <==> HasOutcome(t.processed, id, OutOfOrder)
    ensures RowsFor(t, id) == if id in t.processed && t.processed[id].outcome != DuplicateStatus then 1 else 0
  {
    RowsMatchOutcomes(t, id);
  }

  lemma RowsMatchOutcomes(t: Tables, id: EventId)
    requires OutcomesFinal(t) && PendingRowsMatch(t.processed, t.pending)
    requires DeadLettersMatch(t.processed, t.deadLetters) && HistoryMatches(t.processed, t.history)
    ensures id in t.processed ==> t.processed[id].outcome in {Applied, DuplicateStatus, OutOfOrder, InvalidTransition}
    ensures CountHistory(t.history, id) == if HasOutcome(t.processed, id, Applied) then 1 else 0
    ensures CountLetters(t.deadLetters, id) == if HasOutcome(t.processed, id, InvalidTransition) then 1 else 0
    ensures id in t.pending <==> HasOutcome(t.processed, id, OutOfOrder)
  {
    HistoryCount(t.processed, t.history, id);
    LetterCount(t.processed, t.deadLetters, id);
  }

  // ----- what an answer says about the tables it leaves -----

  lemma OwnOutcome(t: Tables, e: OrderEvent)
    requires Inv(t) && e.eventId !in t.processed
    ensures HasOutcome(Step(t, e).tables.processed, e.eventId, Classify(CurrentStatus(t, e.orderId), e.status))
  {
    var current := CurrentStatus(t, e.orderId);
    if Classify(current, e.status) == Applied {
      var t1 := Route(t, e, current);
      QueueIsDeferred(t1, e.orderId);
      ReplayKeepsOutcome(t1, Queue(t1.pending, PendingIds(t1.pending, e.orderId)), e.status, e.orderId, e.eventId);
    }
  }

  /** Every field of the answer to a new event is true of the tables: the event was applied, waits,
      or was dead-lettered exactly when its history row, pending row, or dead letter is there, it is
      a repeated status exactly when there is none of these rows, and each replayed event has its
      own history row. */
  lemma NewAnswerIsTrue(t: Tables, e: OrderEvent)
    requires Inv(t) && e.status.IsKnown() && e.eventId !in t.processed
    ensures var t', r := Step(t, e).tables, Step(t, e).result;
            && r.eventId == e.eventId && r.orderId == e.orderId
            && HasOutcome(t'.processed, e.eventId, r.classification)
            && (r.applied <==> CountHistory(t'.history, e.eventId) == 1)
            && (r.pending <==> e.eventId in t'.pending)
            && (r.pending <==> HasOutcome(t'.processed, e.eventId, OutOfOrder))
            && (r.deadLetter <==> CountLetters(t'.deadLetters, e.eventId) == 1)
            && (r.duplicate <==> RowsFor(t', e.eventId) == 0)
            && |t'.history| == |t.history| + r.replayedPending + (if r.applied then 1 else 0)
  {
    StepKeepsInv(t, e);
    OwnOutcome(t, e);
    StatusIsKnown(t, e.orderId);
    OneFate(Step(t, e).tables, e.eventId);
    StepSizes(t, e);
  }

  /** The rows of a new event that waits or was rejected carry the event and the answer's reason. */
  lemma NewRowsCarryTheEvent(t: Tables, e: OrderEvent)
    requires e.eventId !in t.processed
    ensures var t', r := Step(t, e).tables, Step(t, e).result;
            && (r.pending ==> e.eventId in t'.pending && PendingEvent(t'.pending, e.eventId) == e
                              && t'.pending[e.eventId].reason == r.reason)
            && (r.deadLetter ==>
                  t'.deadLetters
                  == t.deadLetters + [DeadLetterRow(e.eventId, e.orderId, e.status, r.reason, e.payload)])
            && r.reason == EvaluateTransition(CurrentStatus(t, e.orderId), e.status).reason
  {
  }

  /** The answer to a repeated event says so and nothing else, and no row changes. */
  lemma RepeatedAnswerIsTrue(t: Tables, e: OrderEvent)
    requires e.eventId in t.processed
    ensures var r := Step(t, e).result;
            && Step(t, e).tables == t
            && r.eventId == e.eventId && r.orderId == e.orderId
            && r.classification == DuplicateEvent && r.reason == EventAlreadyProcessed
            && r.duplicate && !r.applied && !r.pending && !r.deadLetter && r.replayedPending == 0
  {
  }

  /** A waiting event was early for want of the step that leads to its status, and of no later one. */
  ghost predicate ReasonFits(row: PendingRow) {
    && (exists s :: s in MissingSteps(row.reason) && IsEdge(s, row.status))
    && (forall s :: s in MissingSteps(row.reason) ==> StepsLeft(row.status) < StepsLeft(s))
  }

  lemma EarlyReasonFits(current: Status, row: PendingRow)
    requires Classify(current, row.status) == OutOfOrder && row.reason == EvaluateTransition(current, row.status).reason
    ensures ReasonFits(row)
  {
    var before := if row.status == Paid then Created else Paid;
    ReasonsAreTrue(current, row.status);
    assert before in MissingSteps(row.reason) && IsEdge(before, row.status);
  }

  ghost predicate ReasonsFit(t: Tables) {
    forall id :: id in t.pending ==> ReasonFits(t.pending[id])
  }

  lemma StepKeepsReasons(t: Tables, e: OrderEvent)
    requires ReasonsFit(t)
    ensures ReasonsFit(Step(t, e).tables)
  {
    var current := CurrentStatus(t, e.orderId);
    var t1 := Route(t, e, current);
    if Classify(current, e.status) == OutOfOrder {
      EarlyReasonFits(current, t1.pending[e.eventId]);
    } else if Classify(current, e.status) == Applied {
      QueueIsDeferred(t1, e.orderId);
      ReplayKeepsRows(t1, Queue(t1.pending, PendingIds(t1.pending, e.orderId)), e.status, e.orderId);
    }
  }

  /** In every state a run reaches, the reasons in the pending table fit. */
  lemma {:induction false} WaitingReasonsFit(events: seq<OrderEvent>)
    ensures ReasonsFit(Run(EMPTY_TABLES, events))
    decreases |events|
  {
    if events != [] {
      var n := |events| - 1;
      WaitingReasonsFit(events[..n]);
      if ValidateEvent(events[n]).Valid? {
        StepKeepsReasons(Run(EMPTY_TABLES, events[..n]), ValidateEvent(events[n]).event);
      }
    }
  }

  /** The head of every pending queue has to wait, so a settled order has no pending rows. */
  lemma PendingHeadWaits(t: Tables, o: OrderId)
    requires Inv(t)
    ensures var ids := PendingIds(t.pending, o);
            ids != {} ==>
              && Classify(CurrentStatus(t, o), t.pending[Least(t.pending, ids)].status) == OutOfOrder
              && !CurrentStatus(t, o).IsSettled()
  {
    var ids := PendingIds(t.pending, o);
    StatusIsKnown(t, o);
    if ids != {} {
      var p := Least(t.pending, ids);
      assert IsPendingFor(t.pending, o, p);
      assert OrderWaits(t, o);
      if CurrentStatus(t, o) == Created && t.pending[p].status == Paid {
        var s :| IsPendingFor(t.pending, o, s) && t.pending[s].status == Shipped
                 && KeyLess(PendingKey(t.pending, s), PendingKey(t.pending, p));
        assert s in ids;
        KeyOrder(PendingKey(t.pending, s), PendingKey(t.pending, p));
      }
    }
  }

  /** The history of an order is a lawful path of at most three steps from nothing to the status
      it shows; it is empty exactly when there is no order. */
  lemma HistoryTellsTheOrder(t: Tables, o: OrderId)
    requires Inv(t)
    ensures var path := HistoryOf(t.history, o);
            && IsLawfulPath(path) && |path| <= 3
            && (o in t.orders <==> path != [])
            && (o in t.orders ==> t.orders[o].status == path[|path| - 1].toStatus && path[0].toStatus == Created)
  {
    assert OrderSumsUp(t, o);
    var path := HistoryOf(t.history, o);
    PathIsShort(path);
    if path != [] {
      PathShape(path);
    }
  }

  /** All of this holds in every state that concurrent transactions can commit. */
  lemma CommittedStatesAreSound(hash: LockHash, actions: seq<Action>)
    ensures var t := PerformAll(hash, actions).db;
            && Inv(t)
            && (forall id ::
                  RowsFor(t, id) == if id in t.processed && t.processed[id].outcome != DuplicateStatus then 1 else 0)
            && (forall o :: CurrentStatus(t, o).IsSettled() ==> PendingIds(t.pending, o) == {})
            && (forall o :: IsLawfulPath(HistoryOf(t.history, o)) && |HistoryOf(t.history, o)| <= 3)
  {
    var t := PerformAll(hash, actions).db;
    var events := CommittedEvents(PerformAll(hash, actions).log);
    EveryInterleavingIsSerial(hash, actions);
    EmptyTablesInv();
    RunKeepsInv(EMPTY_TABLES, events);
    forall id
      ensures RowsFor(t, id) == if id in t.processed && t.processed[id].outcome != DuplicateStatus then 1 else 0
    {
      OneFate(t, id);
    }
    forall o
      ensures CurrentStatus(t, o).IsSettled() ==> PendingIds(t.pending, o) == {}
      ensures IsLawfulPath(HistoryOf(t.history, o)) && |HistoryOf(t.history, o)| <= 3
    {
      PendingHeadWaits(t, o);
      HistoryTellsTheOrder(t, o);
    }
  }

  /** The constraints of the schema hold in every state that concurrent transactions can commit, and
      stored payloads are JSON objects. */
  lemma CommittedStatesKeepSchema(hash: LockHash, actions: seq<Action>)
    ensures var t := PerformAll(hash, actions).db;
            SchemaHolds(t) && StoresObjects(t)
  {
    var events := CommittedEvents(PerformAll(hash, actions).log);
    EveryInterleavingIsSerial(hash, actions);
    RunKeepsSchema(events);
    RunIsFaithful(events);
    FaithfulStoresObjects(Run(EMPTY_TABLES, events), Accepted(events));
  }

  lemma {:induction false} RunKeepsSchema(events: seq<OrderEvent>)
    ensures SchemaHolds(Run(EMPTY_TABLES, events))
    decreases |events|
  {
    if events != [] {
      var n := |events| - 1;
      var t := Run(EMPTY_TABLES, events[..n]);
      RunKeepsSchema(events[..n]);
      EmptyTablesInv();
      RunKeepsInv(EMPTY_TABLES, events[..n]);
      if ValidateEvent(events[n]).Valid? {
        StepKeepsSchema(t, ValidateEvent(events[n]).event);
      }
    }
  }

  lemma StepKeepsSchema(t: Tables, e: OrderEvent)
    requires SchemaHolds(t) && Inv(t) && e.status.IsKnown()
    ensures SchemaHolds(Step(t, e).tables)
  {
    WholeProgramIsStep(t, e);
    AcceptedAllKeepSchema(t, WholeProgram(t, e).stmts);
  }

  ghost predicate StoresObjects(t: Tables) {
    && (forall id :: id in t.pending ==> t.pending[id].payload.JsonObject?)
    && (forall i :: 0 <= i < |t.deadLetters| ==> t.deadLetters[i].payload.JsonObject?)
  }

  lemma AcceptedHasObject(t: Tables, accepted: map<EventId, OrderEvent>, id: EventId)
    requires Faithful(t, accepted) && id in accepted
    ensures accepted[id].payload.JsonObject?
  {
    assert Matches(t.processed[id], id, accepted[id]);
  }

  lemma FaithfulStoresObjects(t: Tables, accepted: map<EventId, OrderEvent>)
    requires Faithful(t, accepted)
    ensures StoresObjects(t)
  {
    forall id | id in t.pending
      ensures t.pending[id].payload.JsonObject?
    {
      assert PendingEvent(t.pending, id) == accepted[id];
      AcceptedHasObject(t, accepted, id);
    }
    forall i | 0 <= i < |t.deadLetters|
      ensures t.deadLetters[i].payload.JsonObject?
    {
      assert LetterMatches(t.deadLetters[i], accepted);
      AcceptedHasObject(t, accepted, t.deadLetters[i].eventId);
    }
  }
}
