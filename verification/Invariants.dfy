/** What holds of the tables in every state the service can reach. */
module Invariants {
  import opened Domain
  import opened Schema
  import opened Processor

  // ----- the invariant -----

  /** Every processed row is final: it carries the outcome of a known status. */
  ghost predicate OutcomesFinal(t: Tables) {
    forall id :: id in t.processed ==>
      && t.processed[id].status.IsKnown()
      && t.processed[id].outcome != Received
      && t.processed[id].outcome != DuplicateEvent
  }

  ghost predicate HasOutcome(processed: map<EventId, ProcessedRow>, id: EventId, outcome: Classification) {
    id in processed && processed[id].outcome == outcome
  }

  /** The pending rows are exactly the events whose outcome is OUT_OF_ORDER, and only PAID and
      SHIPPED events ever wait. */
  ghost predicate PendingRowsMatch(processed: map<EventId, ProcessedRow>, pending: map<EventId, PendingRow>) {
    && (forall id :: id in pending <==> HasOutcome(processed, id, OutOfOrder))
    && (forall id :: id in pending ==>
          var p, row := processed[id], pending[id];
          && row.orderId == p.orderId && row.status == p.status && row.timestamp == p.timestamp
          && (row.status.Paid? || row.status.Shipped?))
  }

  /** The dead letters are exactly the events whose outcome is INVALID_TRANSITION, once each. */
  ghost predicate DeadLettersMatch(processed: map<EventId, ProcessedRow>, deadLetters: seq<DeadLetterRow>) {
    && (forall i :: 0 <= i < |deadLetters| ==> DeadLetterFits(processed, deadLetters[i]))
    && (forall i, j :: 0 <= i < j < |deadLetters| ==> deadLetters[i].eventId != deadLetters[j].eventId)
    && (forall id :: HasOutcome(processed, id, InvalidTransition) ==> InDeadLetters(deadLetters, id))
  }

  ghost predicate DeadLetterFits(processed: map<EventId, ProcessedRow>, row: DeadLetterRow) {
    && HasOutcome(processed, row.eventId, InvalidTransition)
    && row.orderId == processed[row.eventId].orderId
    && row.status == processed[row.eventId].status
    && row.reason == TransitionNotAllowed
  }

  ghost predicate InDeadLetters(deadLetters: seq<DeadLetterRow>, id: EventId) {
    exists i :: 0 <= i < |deadLetters| && deadLetters[i].eventId == id
  }

  /** The history rows are exactly the events whose outcome is APPLIED, once each. */
  ghost predicate HistoryMatches(processed: map<EventId, ProcessedRow>, history: seq<HistoryRow>) {
    && (forall i :: 0 <= i < |history| ==> HistoryFits(processed, history[i]))
    && (forall i, j :: 0 <= i < j < |history| ==> history[i].eventId != history[j].eventId)
    && (forall id :: HasOutcome(processed, id, Applied) ==> InHistory(history, id))
  }

  ghost predicate HistoryFits(processed: map<EventId, ProcessedRow>, row: HistoryRow) {
    && HasOutcome(processed, row.eventId, Applied)
    && row.orderId == processed[row.eventId].orderId
    && row.toStatus == processed[row.eventId].status
    && row.timestamp == processed[row.eventId].timestamp
  }

  /** The history rows of one order, oldest first. */
  function HistoryOf(history: seq<HistoryRow>, o: OrderId): seq<HistoryRow>
    decreases |history|
  {
    if history == [] then []
    else
      var n := |history| - 1;
      HistoryOf(history[..n], o) + (if history[n].orderId == o then [history[n]] else [])
  }

  function StatusBefore(row: HistoryRow): Status {
    if row.fromStatus.Some? then row.fromStatus.value else NoStatus
  }

  /** A chain of allowed transitions from nothing. */
  ghost predicate IsLawfulPath(path: seq<HistoryRow>) {
    && (forall i :: 0 <= i < |path| ==> Classify(StatusBefore(path[i]), path[i].toStatus) == Applied)
    && (forall i :: 0 < i < |path| ==> path[i].fromStatus == Some(path[i - 1].toStatus))
    && (|path| > 0 ==> path[0].fromStatus == None)
  }

  /** The orders row sums up the path: it exists once the path has a step, and shows the last. */
  ghost predicate OrderSumsUp(t: Tables, o: OrderId) {
    var path := HistoryOf(t.history, o);
    && IsLawfulPath(path)
    && (o in t.orders <==> path != [])
    && (o in t.orders ==>
          && t.orders[o].status == path[|path| - 1].toStatus
          && t.orders[o].lastEventTimestamp == path[|path| - 1].timestamp)
  }

  ghost predicate HistoryIsLawful(t: Tables) {
    forall o :: OrderSumsUp(t, o)
  }

  /** How a processed event bounds the status of its order from below. */
  predicate Explains(current: Status, status: Status, outcome: Classification) {
    match status
    case Created => current != NoStatus
    case Paid => outcome == OutOfOrder || current.IsSettled()
    case Shipped => outcome == OutOfOrder || current.IsTerminal()
    case Cancelled => outcome == Applied || outcome == DuplicateStatus ==> current == Cancelled
    case _ => true
  }

  ghost predicate StatusesExplained(t: Tables) {
    forall id :: id in t.processed ==>
      var row := t.processed[id];
      Explains(CurrentStatus(t, row.orderId), row.status, row.outcome)
  }

  /** Why an order still has pending rows: it does not exist, or it is CREATED and its least
      pending row is a SHIPPED one, so every pending PAID row has a SHIPPED row before it. */
  ghost predicate OrderWaits(t: Tables, o: OrderId) {
    match CurrentStatus(t, o)
    case NoStatus => true
    case Created =>
      forall p :: IsPendingFor(t.pending, o, p) && t.pending[p].status == Paid ==>
        exists s :: IsPendingFor(t.pending, o, s) && t.pending[s].status == Shipped
                    && KeyLess(PendingKey(t.pending, s), PendingKey(t.pending, p))
    case _ => forall p :: !IsPendingFor(t.pending, o, p)
  }

  ghost predicate NoNeedlessWait(t: Tables) {
    forall o :: OrderWaits(t, o)
  }

  /** Everything but the waiting rule, which is broken between an apply and its replay. */
  ghost predicate Consistent(t: Tables) {
    && OutcomesFinal(t)
    && PendingRowsMatch(t.processed, t.pending)
    && DeadLettersMatch(t.processed, t.deadLetters)
    && HistoryMatches(t.processed, t.history)
    && HistoryIsLawful(t)
    && StatusesExplained(t)
  }

  ghost predicate Inv(t: Tables) {
    Consistent(t) && NoNeedlessWait(t)
  }

  // ----- one routed event keeps the tables consistent -----

  /** `e` is new, or it is one of the deferred events, at a point where it can be settled. */
  ghost predicate Routable(t: Tables, e: OrderEvent) {
    && e.status.IsKnown()
    && (e.eventId in t.processed ==>
          && e.eventId in t.pending
          && e == PendingEvent(t.pending, e.eventId)
          && Classify(CurrentStatus(t, e.orderId), e.status) != OutOfOrder)
  }

  lemma HistoryOfSnoc(history: seq<HistoryRow>, row: HistoryRow, o: OrderId)
    ensures HistoryOf(history + [row], o) == HistoryOf(history, o) + (if row.orderId == o then [row] else [])
  {
    assert (history + [row])[..|history|] == history;
  }

  lemma StatusIsKnown(t: Tables, o: OrderId)
    requires HistoryIsLawful(t)
    ensures CurrentStatus(t, o) == NoStatus || CurrentStatus(t, o).IsKnown()
    ensures o in t.orders <==> CurrentStatus(t, o) != NoStatus
  {
    assert OrderSumsUp(t, o);
  }

  lemma RouteKeepsOutcomes(t: Tables, e: OrderEvent, current: Status)
    requires OutcomesFinal(t) && e.status.IsKnown()
    ensures OutcomesFinal(Route(t, e, current))
  {
  }

  lemma RouteKeepsPending(t: Tables, e: OrderEvent, current: Status)
    requires PendingRowsMatch(t.processed, t.pending)
    requires current == NoStatus || current.IsKnown()
    requires e.status.IsKnown()
    ensures var t' := Route(t, e, current); PendingRowsMatch(t'.processed, t'.pending)
  {
    var t' := Route(t, e, current);
    forall id
      ensures id in t'.pending <==> HasOutcome(t'.processed, id, OutOfOrder)
    {
      assert id in t.pending <==> HasOutcome(t.processed, id, OutOfOrder);
    }
  }

  lemma DeadLettersUpdate(
      processed: map<EventId, ProcessedRow>, deadLetters: seq<DeadLetterRow>, id: EventId, row: ProcessedRow)
    requires DeadLettersMatch(processed, deadLetters)
    requires !HasOutcome(processed, id, InvalidTransition) && row.outcome != InvalidTransition
    ensures DeadLettersMatch(processed[id := row], deadLetters)
  {
    forall other | HasOutcome(processed[id := row], other, InvalidTransition)
      ensures InDeadLetters(deadLetters, other)
    {
      assert HasOutcome(processed, other, InvalidTransition);
    }
    forall i | 0 <= i < |deadLetters|
      ensures DeadLetterFits(processed[id := row], deadLetters[i])
    {
      assert DeadLetterFits(processed, deadLetters[i]);
    }
  }

  lemma DeadLettersAdd(
      processed: map<EventId, ProcessedRow>, deadLetters: seq<DeadLetterRow>, row: ProcessedRow, letter: DeadLetterRow)
    requires DeadLettersMatch(processed, deadLetters)
    requires !HasOutcome(processed, letter.eventId, InvalidTransition)
    requires DeadLetterFits(processed[letter.eventId := row], letter)
    ensures DeadLettersMatch(processed[letter.eventId := row], deadLetters + [letter])
  {
    var processed', deadLetters' := processed[letter.eventId := row], deadLetters + [letter];
    forall i | 0 <= i < |deadLetters|
      ensures deadLetters[i].eventId != letter.eventId && DeadLetterFits(processed', deadLetters'[i])
    {
      assert DeadLetterFits(processed, deadLetters[i]);
    }
    forall id | HasOutcome(processed', id, InvalidTransition)
      ensures InDeadLetters(deadLetters', id)
    {
      if id == letter.eventId {
        assert deadLetters'[|deadLetters|].eventId == id;
      } else {
        assert HasOutcome(processed, id, InvalidTransition);
        var i :| 0 <= i < |deadLetters| && deadLetters[i].eventId == id;
        assert deadLetters'[i].eventId == id;
      }
    }
  }

  lemma HistoryUpdate(processed: map<EventId, ProcessedRow>, history: seq<HistoryRow>, id: EventId, row: ProcessedRow)
    requires HistoryMatches(processed, history)
    requires !HasOutcome(processed, id, Applied) && row.outcome != Applied
    ensures HistoryMatches(processed[id := row], history)
  {
    forall other | HasOutcome(processed[id := row], other, Applied)
      ensures InHistory(history, other)
    {
      assert HasOutcome(processed, other, Applied);
    }
    forall i | 0 <= i < |history|
      ensures HistoryFits(processed[id := row], history[i])
    {
      assert HistoryFits(processed, history[i]);
    }
  }

  lemma HistoryAdd(processed: map<EventId, ProcessedRow>, history: seq<HistoryRow>, row: ProcessedRow, step: HistoryRow)
    requires HistoryMatches(processed, history)
    requires !HasOutcome(processed, step.eventId, Applied)
    requires HistoryFits(processed[step.eventId := row], step)
    ensures HistoryMatches(processed[step.eventId := row], history + [step])
  {
    var processed', history' := processed[step.eventId := row], history + [step];
    forall i | 0 <= i < |history|
      ensures history[i].eventId != step.eventId && HistoryFits(processed', history'[i])
    {
      assert HistoryFits(processed, history[i]);
    }
    forall id | HasOutcome(processed', id, Applied)
      ensures InHistory(history', id)
    {
      if id == step.eventId {
        assert history'[|history|].eventId == id;
      } else {
        assert HasOutcome(processed, id, Applied);
        var i :| 0 <= i < |history| && history[i].eventId == id;
        assert history'[i].eventId == id;
      }
    }
  }

  lemma RouteKeepsArchives(t: Tables, e: OrderEvent, current: Status)
    requires DeadLettersMatch(t.processed, t.deadLetters) && HistoryMatches(t.processed, t.history)
    requires e.eventId in t.processed ==> HasOutcome(t.processed, e.eventId, OutOfOrder)
    requires current == NoStatus || current.IsKnown()
    requires e.status.IsKnown()
    ensures var t' := Route(t, e, current);
            DeadLettersMatch(t'.processed, t'.deadLetters) && HistoryMatches(t'.processed, t'.history)
  {
    var t' := Route(t, e, current);
    var row := t'.processed[e.eventId];
    if Classify(current, e.status) == Applied {
      HistoryAdd(t.processed, t.history, row, t'.history[|t.history|]);
      DeadLettersUpdate(t.processed, t.deadLetters, e.eventId, row);
    } else {
      HistoryUpdate(t.processed, t.history, e.eventId, row);
      if Classify(current, e.status) == InvalidTransition {
        DeadLettersAdd(t.processed, t.deadLetters, row, t'.deadLetters[|t.deadLetters|]);
      } else {
        DeadLettersUpdate(t.processed, t.deadLetters, e.eventId, row);
      }
    }
  }

  lemma PathExtends(path: seq<HistoryRow>, row: HistoryRow)
    requires IsLawfulPath(path)
    requires row.fromStatus == if path == [] then None else Some(path[|path| - 1].toStatus)
    requires Classify(StatusBefore(row), row.toStatus) == Applied
    ensures IsLawfulPath(path + [row])
  {
  }

  lemma AppliedStepSumsUp(t: Tables, o: OrderId, id: EventId, next: Status, timestamp: int)
    requires OrderSumsUp(t, o)
    requires Classify(CurrentStatus(t, o), next) == Applied
    ensures var from := if CurrentStatus(t, o) == NoStatus then None else Some(CurrentStatus(t, o));
            OrderSumsUp(t.(orders := t.orders[o := OrderRow(next, timestamp)],
                           history := t.history + [HistoryRow(id, o, from, next, timestamp)]), o)
  {
    var from := if CurrentStatus(t, o) == NoStatus then None else Some(CurrentStatus(t, o));
    var row := HistoryRow(id, o, from, next, timestamp);
    var path := HistoryOf(t.history, o);
    HistoryOfSnoc(t.history, row, o);
    if path != [] {
      assert Classify(StatusBefore(path[|path| - 1]), path[|path| - 1].toStatus) == Applied;
    }
    PathExtends(path, row);
  }

  lemma OtherStepSumsUp(t: Tables, o: OrderId, t': Tables, row: HistoryRow)
    requires OrderSumsUp(t, o) && row.orderId != o
    requires t'.history == t.history || t'.history == t.history + [row]
    requires o in t'.orders <==> o in t.orders
    requires o in t.orders ==> t'.orders[o] == t.orders[o]
    ensures OrderSumsUp(t', o)
  {
    HistoryOfSnoc(t.history, row, o);
  }

  lemma RouteKeepsPaths(t: Tables, e: OrderEvent)
    requires HistoryIsLawful(t)
    ensures HistoryIsLawful(Route(t, e, CurrentStatus(t, e.orderId)))
  {
    var current := CurrentStatus(t, e.orderId);
    var t' := Route(t, e, current);
    forall o
      ensures OrderSumsUp(t', o)
    {
      assert OrderSumsUp(t, o);
      if Classify(current, e.status) != Applied {
        assert t'.orders == t.orders && t'.history == t.history;
      } else if o == e.orderId {
        AppliedStepSumsUp(t, o, e.eventId, e.status, e.timestamp);
      } else {
        OtherStepSumsUp(t, o, t', t'.history[|t.history|]);
      }
    }
  }

  lemma RouteKeepsExplanations(t: Tables, e: OrderEvent)
    requires StatusesExplained(t) && HistoryIsLawful(t)
    requires e.status.IsKnown()
    ensures StatusesExplained(Route(t, e, CurrentStatus(t, e.orderId)))
  {
    var current := CurrentStatus(t, e.orderId);
    StatusIsKnown(t, e.orderId);
    var t' := Route(t, e, current);
    forall id | id in t'.processed
      ensures Explains(CurrentStatus(t', t'.processed[id].orderId), t'.processed[id].status, t'.processed[id].outcome)
    {
      if id != e.eventId {
        assert t'.processed[id] == t.processed[id];
      }
    }
  }

  lemma RouteKeepsConsistent(t: Tables, e: OrderEvent)
    requires Consistent(t) && Routable(t, e)
    ensures Consistent(Route(t, e, CurrentStatus(t, e.orderId)))
  {
    var current := CurrentStatus(t, e.orderId);
    StatusIsKnown(t, e.orderId);
    assert e.eventId in t.pending <==> HasOutcome(t.processed, e.eventId, OutOfOrder);
    RouteKeepsOutcomes(t, e, current);
    RouteKeepsPending(t, e, current);
    RouteKeepsArchives(t, e, current);
    RouteKeepsPaths(t, e);
    RouteKeepsExplanations(t, e);
  }
}
