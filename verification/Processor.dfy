/** What processing one event does to the tables, as functions on whole tables. */
module Processor {
  import opened Domain
  import opened Schema

  datatype ProcessResult = ProcessResult(
    eventId: EventId,
    orderId: OrderId,
    classification: Classification,
    applied: bool,
    duplicate: bool,
    pending: bool,
    deadLetter: bool,
    replayedPending: nat,
    reason: Reason)

  /** The tables after `e` was classified against `current`: its processed row carries the
      classification, and the event sits in history, pending or dead letters accordingly. */
  function Route(t: Tables, e: OrderEvent, current: Status): Tables {
    var tr := EvaluateTransition(current, e.status);
    var c := tr.classification;
    var from := if current == NoStatus then None else Some(current);
    Tables(
      orders := if c == Applied then t.orders[e.orderId := OrderRow(e.status, e.timestamp)] else t.orders,
      processed := t.processed[e.eventId := ProcessedRow(e.orderId, e.status, e.timestamp, c)],
      history :=
        if c == Applied then t.history + [HistoryRow(e.eventId, e.orderId, from, e.status, e.timestamp)]
        else t.history,
      pending :=
        if c == OutOfOrder then
          t.pending[e.eventId := PendingRow(e.orderId, e.status, e.timestamp, tr.reason, e.payload)]
        else t.pending - {e.eventId},
      deadLetters :=
        if c == InvalidTransition then
          t.deadLetters + [DeadLetterRow(e.eventId, e.orderId, e.status, tr.reason, e.payload)]
        else t.deadLetters)
  }

  // ----- the pending rows of one order as a queue -----

  function EventKey(e: OrderEvent): Key {
    Key(e.timestamp, e.eventId)
  }

  ghost predicate IsLeast(pending: map<EventId, PendingRow>, ids: set<EventId>, id: EventId) {
    && id in ids
    && ids <= pending.Keys
    && forall other :: other in ids && other != id ==> KeyLess(PendingKey(pending, id), PendingKey(pending, other))
  }

  lemma {:induction false} LeastExists(pending: map<EventId, PendingRow>, ids: set<EventId>)
    requires ids != {} && ids <= pending.Keys
    ensures exists id :: IsLeast(pending, ids, id)
    decreases |ids|
  {
    var id :| id in ids;
    var rest := ids - {id};
    if rest == {} {
      assert ids == {id};
      assert IsLeast(pending, ids, id);
      return;
    }
    LeastExists(pending, rest);
    var best :| IsLeast(pending, rest, best);
    KeyOrder(PendingKey(pending, id), PendingKey(pending, best));
    if KeyLess(PendingKey(pending, best), PendingKey(pending, id)) {
      assert IsLeast(pending, ids, best);
    } else {
      forall other | other in ids && other != id
        ensures KeyLess(PendingKey(pending, id), PendingKey(pending, other))
      {
        if other != best {
          KeyLessIsTransitive(PendingKey(pending, id), PendingKey(pending, best), PendingKey(pending, other));
        }
      }
      assert IsLeast(pending, ids, id);
    }
  }

  lemma LeastIsUnique(pending: map<EventId, PendingRow>, ids: set<EventId>, a: EventId, b: EventId)
    requires IsLeast(pending, ids, a) && IsLeast(pending, ids, b)
    ensures a == b
  {
    if a != b {
      KeyOrder(PendingKey(pending, a), PendingKey(pending, b));
    }
  }

  ghost function Least(pending: map<EventId, PendingRow>, ids: set<EventId>): (least: EventId)
    requires ids != {} && ids <= pending.Keys
    ensures IsLeast(pending, ids, least)
  {
    LeastExists(pending, ids);
    var id :| IsLeast(pending, ids, id);
    id
  }

  /** Strictly ascending by (timestamp, event id). */
  ghost predicate IsAscending(events: seq<OrderEvent>) {
    forall i, j :: 0 <= i < j < |events| ==>
      KeyLess(EventKey(events[i]), EventKey(events[j]))
  }

  /** `events` lists exactly the rows `ids` of the pending table. */
  ghost predicate Lists(events: seq<OrderEvent>, pending: map<EventId, PendingRow>, ids: set<EventId>) {
    && ids <= pending.Keys
    && (forall i :: 0 <= i < |events| ==> events[i].eventId in ids && events[i] == PendingEvent(pending, events[i].eventId))
    && (forall id :: id in ids ==> exists i :: 0 <= i < |events| && events[i].eventId == id)
  }

  /** The chosen rows of the pending table in replay order. */
  ghost function Queue(pending: map<EventId, PendingRow>, ids: set<EventId>): (events: seq<OrderEvent>)
    requires ids <= pending.Keys
    ensures |events| == |ids|
    decreases |ids|
  {
    if ids == {} then []
    else
      var least := Least(pending, ids);
      [PendingEvent(pending, least)] + Queue(pending, ids - {least})
  }

  lemma {:induction false} QueueListsRows(pending: map<EventId, PendingRow>, ids: set<EventId>)
    requires ids <= pending.Keys
    ensures Lists(Queue(pending, ids), pending, ids)
    decreases |ids|
  {
    if ids != {} {
      var least := Least(pending, ids);
      var rest := Queue(pending, ids - {least});
      QueueListsRows(pending, ids - {least});
      var events := Queue(pending, ids);
      assert events == [PendingEvent(pending, least)] + rest;
      forall i | 0 <= i < |events|
        ensures events[i].eventId in ids && events[i] == PendingEvent(pending, events[i].eventId)
      {
        if i > 0 {
          assert events[i] == rest[i - 1];
        }
      }
      forall id | id in ids
        ensures exists i :: 0 <= i < |events| && events[i].eventId == id
      {
        if id == least {
          assert events[0].eventId == id;
        } else {
          assert id in ids - {least};
          var i :| 0 <= i < |rest| && rest[i].eventId == id;
          assert events[i + 1].eventId == id;
        }
      }
    }
  }

  lemma {:induction false} QueueAscends(pending: map<EventId, PendingRow>, ids: set<EventId>)
    requires ids <= pending.Keys
    ensures IsAscending(Queue(pending, ids))
    decreases |ids|
  {
    if ids != {} {
      var least := Least(pending, ids);
      var rest := Queue(pending, ids - {least});
      QueueAscends(pending, ids - {least});
      QueueListsRows(pending, ids - {least});
      var events := Queue(pending, ids);
      assert events == [PendingEvent(pending, least)] + rest;
      forall i, j | 0 <= i < j < |events|
        ensures KeyLess(EventKey(events[i]), EventKey(events[j]))
      {
        assert events[j] == rest[j - 1];
        if i == 0 {
          assert rest[j - 1].eventId in ids - {least};
        } else {
          assert events[i] == rest[i - 1];
        }
      }
    }
  }

  /** Being ascending and listing the rows determines the queue: it is the sorted list. */
  lemma {:induction false} QueueIsTheSortedList(pending: map<EventId, PendingRow>, ids: set<EventId>, events: seq<OrderEvent>)
    requires ids <= pending.Keys
    requires IsAscending(events) && Lists(events, pending, ids)
    ensures events == Queue(pending, ids)
    decreases |ids|
  {
    if events == [] {
      assert ids == {};
    } else {
      SortedListUnfolds(pending, ids, events);
      QueueIsTheSortedList(pending, ids - {events[0].eventId}, events[1..]);
      QueueUnfolds(pending, ids);
    }
  }

  /** The least row comes first, and the rest of the queue is the queue of the rest. */
  lemma QueueUnfolds(pending: map<EventId, PendingRow>, ids: set<EventId>)
    requires ids != {} && ids <= pending.Keys
    ensures var least, queue := Least(pending, ids), Queue(pending, ids);
            && queue[0] == PendingEvent(pending, least) && queue[1..] == Queue(pending, ids - {least})
            && queue == [queue[0]] + queue[1..]
  {
  }

  lemma SortedListUnfolds(pending: map<EventId, PendingRow>, ids: set<EventId>, events: seq<OrderEvent>)
    requires ids <= pending.Keys && events != []
    requires IsAscending(events) && Lists(events, pending, ids)
    ensures ids != {} && events[0].eventId == Least(pending, ids) && events[0] == PendingEvent(pending, Least(pending, ids))
    ensures IsAscending(events[1..]) && Lists(events[1..], pending, ids - {events[0].eventId})
    ensures events == [events[0]] + events[1..]
  {
    assert events[0].eventId in ids;
    FirstIsLeast(pending, ids, events);
    LeastIsUnique(pending, ids, events[0].eventId, Least(pending, ids));
    TailListsRest(pending, ids, events);
  }

  lemma FirstIsLeast(pending: map<EventId, PendingRow>, ids: set<EventId>, events: seq<OrderEvent>)
    requires ids <= pending.Keys && events != []
    requires IsAscending(events) && Lists(events, pending, ids)
    ensures IsLeast(pending, ids, events[0].eventId)
  {
    forall other | other in ids && other != events[0].eventId
      ensures KeyLess(PendingKey(pending, events[0].eventId), PendingKey(pending, other))
    {
      var j :| 0 <= j < |events| && events[j].eventId == other;
      assert KeyLess(EventKey(events[0]), EventKey(events[j]));
    }
  }

  lemma TailListsRest(pending: map<EventId, PendingRow>, ids: set<EventId>, events: seq<OrderEvent>)
    requires ids <= pending.Keys && events != []
    requires IsAscending(events) && Lists(events, pending, ids)
    ensures IsAscending(events[1..]) && Lists(events[1..], pending, ids - {events[0].eventId})
  {
    var tail := events[1..];
    forall i, j | 0 <= i < j < |tail|
      ensures KeyLess(EventKey(tail[i]), EventKey(tail[j]))
    {
      assert tail[i] == events[i + 1] && tail[j] == events[j + 1];
    }
    forall j | 0 <= j < |tail|
      ensures tail[j].eventId in ids - {events[0].eventId} && tail[j] == PendingEvent(pending, tail[j].eventId)
    {
      assert tail[j] == events[j + 1];
      assert KeyLess(EventKey(events[0]), EventKey(events[j + 1]));
      KeyOrder(EventKey(events[0]), EventKey(events[0]));
    }
    forall id | id in ids - {events[0].eventId}
      ensures exists j :: 0 <= j < |tail| && tail[j].eventId == id
    {
      var j :| 0 <= j < |events| && events[j].eventId == id;
      assert tail[j - 1].eventId == id;
    }
  }

  /** The queue only looks at the rows it lists. */
  lemma {:induction false} QueueDependsOnRows(p: map<EventId, PendingRow>, q: map<EventId, PendingRow>, ids: set<EventId>)
    requires ids <= p.Keys && ids <= q.Keys
    requires forall id :: id in ids ==> p[id] == q[id]
    ensures Queue(p, ids) == Queue(q, ids)
  {
    QueueListsRows(p, ids);
    QueueAscends(p, ids);
    QueueIsTheSortedList(q, ids, Queue(p, ids));
  }

  // ----- one event, and runs of events -----

  function NextStatus(current: Status, e: OrderEvent): Status {
    if Classify(current, e.status) == Applied then e.status else current
  }

  datatype Replayed = Replayed(tables: Tables, status: Status, applied: nat, deadLettered: nat, dropped: nat)

  /** One left-to-right pass over a queue of deferred events, stopped at the first that has to
      keep waiting. Counts the events it applied, dead-lettered and dropped as duplicates. */
  function Replay(t: Tables, queue: seq<OrderEvent>, current: Status): Replayed
    decreases |queue|
  {
    if queue == [] || Classify(current, queue[0].status) == OutOfOrder then Replayed(t, current, 0, 0, 0)
    else
      var e := queue[0];
      var t' := Route(t, e, current);
      var c := Classify(current, e.status);
      var r := Replay(t', queue[1..], NextStatus(current, e));
      if c == Applied then r.(applied := r.applied + 1)
      else if c == InvalidTransition then r.(deadLettered := r.deadLettered + 1)
      else r.(dropped := r.dropped + 1)
  }

  /** Replays every deferred event of one order. */
  ghost function ReplayOrder(t: Tables, o: OrderId, current: Status): Replayed {
    Replay(t, Queue(t.pending, PendingIds(t.pending, o)), current)
  }

  function DuplicateResult(e: OrderEvent): ProcessResult {
    ProcessResult(e.eventId, e.orderId, DuplicateEvent, false, true, false, false, 0, EventAlreadyProcessed)
  }

  function RoutedResult(e: OrderEvent, tr: TransitionResult, replayed: nat): ProcessResult {
    ProcessResult(
      e.eventId, e.orderId, tr.classification,
      tr.classification == Applied,
      tr.classification == DuplicateStatus,
      tr.classification == OutOfOrder,
      tr.classification == InvalidTransition,
      if tr.classification == Applied then replayed else 0,
      tr.reason)
  }

  datatype Outcome = Outcome(tables: Tables, result: ProcessResult)

  /** The replay that follows an event; nothing is replayed unless the event was applied. */
  ghost function ReplayAfter(t: Tables, e: OrderEvent): Replayed {
    var current := CurrentStatus(t, e.orderId);
    var routed := Route(t, e, current);
    if Classify(current, e.status) == Applied then ReplayOrder(routed, e.orderId, e.status)
    else Replayed(routed, current, 0, 0, 0)
  }

  /** One committed transaction for a valid event. */
  ghost function Step(t: Tables, e: OrderEvent): Outcome {
    if e.eventId in t.processed then Outcome(t, DuplicateResult(e))
    else
      var tr := EvaluateTransition(CurrentStatus(t, e.orderId), e.status);
      var r := ReplayAfter(t, e);
      Outcome(r.tables, RoutedResult(e, tr, r.applied))
  }

  /** Processing any event at all: a rejected event leaves no trace. */
  ghost function Process(t: Tables, e: OrderEvent): Tables {
    match ValidateEvent(e)
    case Valid(v) => Step(t, v).tables
    case Rejected(_) => t
  }

  /** Serial processing of a sequence of events, the last one last. */
  ghost function Run(t: Tables, events: seq<OrderEvent>): Tables
    decreases |events|
  {
    if events == [] then t
    else Process(Run(t, events[..|events| - 1]), events[|events| - 1])
  }

  lemma RunSnoc(t: Tables, events: seq<OrderEvent>, e: OrderEvent)
    ensures Run(t, events + [e]) == Process(Run(t, events), e)
  {
    assert (events + [e])[..|events + [e]| - 1] == events;
  }

  lemma {:induction false} RunConcat(t: Tables, a: seq<OrderEvent>, b: seq<OrderEvent>)
    ensures Run(t, a + b) == Run(Run(t, a), b)
    decreases |b|
  {
    if b == [] {
      assert a + b == a;
    } else {
      var n := |b| - 1;
      assert (a + b)[..|a + b| - 1] == a + b[..n];
      RunConcat(t, a, b[..n]);
    }
  }
}
