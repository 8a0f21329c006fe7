/** The five tables of the ingestion database and the SQL statements that change them. */
module Schema {
  import opened Domain

  datatype OrderRow = OrderRow(status: Status, lastEventTimestamp: int)

  datatype ProcessedRow = ProcessedRow(orderId: OrderId, status: Status, timestamp: int, outcome: Classification)

  datatype HistoryRow = HistoryRow(
    eventId: EventId, orderId: OrderId, fromStatus: Option<Status>, toStatus: Status, timestamp: int)

  datatype PendingRow = PendingRow(
    orderId: OrderId, status: Status, timestamp: int, reason: Reason, payload: Payload)

  datatype DeadLetterRow = DeadLetterRow(
    eventId: EventId, orderId: OrderId, status: Status, reason: Reason, payload: Payload)

  /** Tables with a unique key are maps; append-only tables with a serial id are sequences. */
  datatype Tables = Tables(
    orders: map<OrderId, OrderRow>,
    processed: map<EventId, ProcessedRow>,
    history: seq<HistoryRow>,
    pending: map<EventId, PendingRow>,
    deadLetters: seq<DeadLetterRow>)

  const EMPTY_TABLES := Tables(map[], map[], [], map[], [])

  function CurrentStatus(t: Tables, o: OrderId): Status {
    if o in t.orders then t.orders[o].status else NoStatus
  }

  predicate IsPendingFor(pending: map<EventId, PendingRow>, o: OrderId, id: EventId) {
    id in pending && pending[id].orderId == o
  }

  function PendingIds(pending: map<EventId, PendingRow>, o: OrderId): set<EventId> {
    set id | id in pending && pending[id].orderId == o
  }

  function PendingKey(pending: map<EventId, PendingRow>, id: EventId): Key
    requires id in pending
  {
    Key(pending[id].timestamp, id)
  }

  function PendingEvent(pending: map<EventId, PendingRow>, id: EventId): OrderEvent
    requires id in pending
  {
    OrderEvent(id, pending[id].orderId, pending[id].status, pending[id].timestamp, pending[id].payload)
  }

  datatype Stmt =
    | InsertProcessed(id: EventId, processedRow: ProcessedRow)
    | UpdateOutcome(id: EventId, outcome: Classification)
    | InsertOrder(orderId: OrderId, orderRow: OrderRow)
    | UpdateOrder(orderId: OrderId, orderRow: OrderRow)
    | InsertHistory(historyRow: HistoryRow)
    | InsertPending(id: EventId, pendingRow: PendingRow)
    | DeletePending(id: EventId)
    | InsertDeadLetter(deadLetterRow: DeadLetterRow)

  /** The tables after one statement. An update or delete that finds no row changes nothing. */
  function Exec(t: Tables, s: Stmt): Tables {
    match s
    case InsertProcessed(id, row) => t.(processed := t.processed[id := row])
    case UpdateOutcome(id, outcome) =>
      if id in t.processed then t.(processed := t.processed[id := t.processed[id].(outcome := outcome)]) else t
    case InsertOrder(o, row) => t.(orders := t.orders[o := row])
    case UpdateOrder(o, row) => if o in t.orders then t.(orders := t.orders[o := row]) else t
    case InsertHistory(row) => t.(history := t.history + [row])
    case InsertPending(id, row) => t.(pending := t.pending[id := row])
    case DeletePending(id) => t.(pending := t.pending - {id})
    case InsertDeadLetter(row) => t.(deadLetters := t.deadLetters + [row])
  }

  predicate InHistory(history: seq<HistoryRow>, id: EventId) {
    exists i :: 0 <= i < |history| && history[i].eventId == id
  }

  /** What the schema asks of a statement: primary keys and the unique event id of the history
      are fresh, the history row's order exists, every status passes its check; besides, an
      update or delete addresses a row that is there. */
  predicate Accepts(t: Tables, s: Stmt) {
    match s
    case InsertProcessed(id, row) => id !in t.processed && row.status.IsKnown()
    case UpdateOutcome(id, _) => id in t.processed
    case InsertOrder(o, row) => o !in t.orders && row.status.IsKnown()
    case UpdateOrder(o, row) => o in t.orders && row.status.IsKnown()
    case InsertHistory(row) =>
      && !InHistory(t.history, row.eventId)
      && row.orderId in t.orders
      && row.toStatus.IsKnown()
      && (row.fromStatus.Some? ==> row.fromStatus.value.IsKnown())
    case InsertPending(id, row) => id !in t.pending && row.status.IsKnown()
    case DeletePending(id) => id in t.pending
    case InsertDeadLetter(row) => row.status.IsKnown()
  }

  function ExecAll(t: Tables, stmts: seq<Stmt>): Tables
    decreases |stmts|
  {
    if stmts == [] then t else ExecAll(Exec(t, stmts[0]), stmts[1..])
  }

  predicate AcceptsAll(t: Tables, stmts: seq<Stmt>)
    decreases |stmts|
  {
    stmts == [] || (Accepts(t, stmts[0]) && AcceptsAll(Exec(t, stmts[0]), stmts[1..]))
  }

  lemma {:induction false} ExecAllConcat(t: Tables, a: seq<Stmt>, b: seq<Stmt>)
    ensures ExecAll(t, a + b) == ExecAll(ExecAll(t, a), b)
    ensures AcceptsAll(t, a + b) <==> AcceptsAll(t, a) && AcceptsAll(ExecAll(t, a), b)
    decreases |a|
  {
    if a == [] {
      assert a + b == b;
    } else {
      assert (a + b)[1..] == a[1..] + b;
      ExecAllConcat(Exec(t, a[0]), a[1..], b);
    }
  }

  // ----- what the constraints are for -----

  /** The constraints hold in the tables: every status passes its check, and every history row
      refers to an order and has its event id for itself. */
  ghost predicate SchemaHolds(t: Tables) {
    && (forall o :: o in t.orders ==> t.orders[o].status.IsKnown())
    && (forall id :: id in t.processed ==> t.processed[id].status.IsKnown())
    && (forall id :: id in t.pending ==> t.pending[id].status.IsKnown())
    && (forall i :: 0 <= i < |t.deadLetters| ==> t.deadLetters[i].status.IsKnown())
    && (forall i :: 0 <= i < |t.history| ==> HistoryRowHolds(t.orders, t.history[i]))
    && (forall i, j :: 0 <= i < j < |t.history| ==> t.history[i].eventId != t.history[j].eventId)
  }

  predicate HistoryRowHolds(orders: map<OrderId, OrderRow>, row: HistoryRow) {
    && row.orderId in orders && row.toStatus.IsKnown()
    && (row.fromStatus.None? || row.fromStatus.value.IsKnown())
  }

  /** Accepted statements keep the constraints. */
  lemma AcceptedKeepsSchema(t: Tables, s: Stmt)
    requires SchemaHolds(t) && Accepts(t, s)
    ensures SchemaHolds(Exec(t, s))
  {
    if s.InsertHistory? {
      assert forall i :: 0 <= i < |t.history| ==> t.history[i].eventId != s.historyRow.eventId;
    }
  }

  lemma MapSizes<K, V>(m: map<K, V>, k: K, v: V)
    ensures |m[k := v]| == if k in m then |m| else |m| + 1
    ensures |m - {k}| == if k in m then |m| - 1 else |m|
  {
    assert m[k := v].Keys == m.Keys + {k};
    assert (m - {k}).Keys == m.Keys - {k};
    assert |m[k := v]| == |m[k := v].Keys| && |m - {k}| == |(m - {k}).Keys| && |m| == |m.Keys|;
  }

  function RowCount(t: Tables): nat {
    |t.orders| + |t.processed| + |t.history| + |t.pending| + |t.deadLetters|
  }

  /** An accepted insert adds a row, so it overwrites none; an accepted update finds its row, and an
      accepted delete takes one away. */
  lemma AcceptedHitsOneRow(t: Tables, s: Stmt)
    requires Accepts(t, s)
    ensures RowCount(Exec(t, s)) ==
            RowCount(t) + (if s.UpdateOutcome? || s.UpdateOrder? then 0 else if s.DeletePending? then -1 else 1)
    ensures s.UpdateOutcome? ==> s.id in t.processed && Exec(t, s).processed[s.id].outcome == s.outcome
    ensures s.UpdateOrder? ==> s.orderId in t.orders && Exec(t, s).orders[s.orderId] == s.orderRow
  {
    match s
    case InsertProcessed(id, row) => MapSizes(t.processed, id, row);
    case UpdateOutcome(id, outcome) => MapSizes(t.processed, id, t.processed[id].(outcome := outcome));
    case InsertOrder(o, row) => MapSizes(t.orders, o, row);
    case UpdateOrder(o, row) => MapSizes(t.orders, o, row);
    case InsertPending(id, row) => MapSizes(t.pending, id, row);
    case DeletePending(id) => MapSizes(t.pending, id, t.pending[id]);
    case _ =>
  }

  lemma {:induction false} AcceptedAllKeepSchema(t: Tables, stmts: seq<Stmt>)
    requires SchemaHolds(t) && AcceptsAll(t, stmts)
    ensures SchemaHolds(ExecAll(t, stmts))
    decreases |stmts|
  {
    if stmts != [] {
      AcceptedKeepsSchema(t, stmts[0]);
      AcceptedAllKeepSchema(Exec(t, stmts[0]), stmts[1..]);
    }
  }
}
