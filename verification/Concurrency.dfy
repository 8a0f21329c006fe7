/** Interleaved transactions under advisory locks and READ COMMITTED visibility. */
module Concurrency {
  import opened Domain
  import opened Schema
  import opened Processor
  import opened Invariants
  import opened Steps
  import opened Repository
  import opened Transactions

  type TxId = nat

  /** A transaction in progress; `writes` are the statements it has executed, seen only by itself. */
  datatype Tx = Tx(event: OrderEvent, phase: Phase, writes: seq<Stmt>)

  datatype Entry = Entry(event: OrderEvent, result: ProcessResult)

  /** Committed tables, transactions in progress, and the commits so far in order. */
  datatype Cluster = Cluster(db: Tables, txs: map<TxId, Tx>, log: seq<Entry>)

  const IDLE_CLUSTER := Cluster(EMPTY_TABLES, map[], [])

  /** What a statement of the transaction sees now: the latest committed tables and its own writes. */
  function View(db: Tables, tx: Tx): Tables {
    ExecAll(db, tx.writes)
  }

  predicate HoldsLock(tx: Tx) {
    tx.phase != Waiting
  }

  /** The uncommitted row with its event id belongs to this transaction. */
  predicate HoldsEvent(tx: Tx) {
    tx.writes != []
  }

  type LockHash = OrderId -> int

  predicate LockIsFree(hash: LockHash, s: Cluster, id: TxId)
    requires id in s.txs
  {
    forall other :: other in s.txs && other != id && HoldsLock(s.txs[other]) ==>
      hash(s.txs[other].event.orderId) != hash(s.txs[id].event.orderId)
  }

  predicate EventIsFree(s: Cluster, id: TxId)
    requires id in s.txs
  {
    forall other :: other in s.txs && other != id && HoldsEvent(s.txs[other]) ==>
      s.txs[other].event.eventId != s.txs[id].event.eventId
  }

  predicate IsDone(tx: Tx) {
    tx.phase.Running? && tx.phase.todo == [] && tx.phase.after.ThenCommit?
  }

  datatype Action =
    | Begin(id: TxId, event: OrderEvent)
    | AcquireLock(id: TxId)
    | InsertEvent(id: TxId)
    | Advance(id: TxId)
    | Commit(id: TxId)
    | Abort(id: TxId)

  predicate IsEnabled(hash: LockHash, s: Cluster, a: Action) {
    match a
    case Begin(id, e) => id !in s.txs && IsNormal(e)
    case AcquireLock(id) => id in s.txs && s.txs[id].phase == Waiting && LockIsFree(hash, s, id)
    case InsertEvent(id) => id in s.txs && s.txs[id].phase == Locked && EventIsFree(s, id)
    case Advance(id) =>
      id in s.txs && (s.txs[id].phase.Loading? || s.txs[id].phase.Running?) && !IsDone(s.txs[id])
    case Commit(id) => id in s.txs && IsDone(s.txs[id])
    case Abort(id) => id in s.txs
  }

  /** One statement, or one read and the decision it leads to. */
  ghost function AdvanceTx(db: Tables, tx: Tx): Tx
    requires tx.phase.Loading? || tx.phase.Running?
    requires !IsDone(tx)
  {
    if tx.phase.Loading? then tx.(phase := Decide(View(db, tx), tx.event))
    else if tx.phase.todo != [] then
      tx.(phase := Running(tx.phase.todo[1..], tx.phase.after), writes := tx.writes + [tx.phase.todo[0]])
    else tx.(phase := DecideReplay(View(db, tx), tx.event, tx.phase.after))
  }

  ghost function InsertTx(db: Tables, tx: Tx): Tx {
    if tx.event.eventId in db.processed then tx.(phase := Running([], ThenCommit(DuplicateResult(tx.event))))
    else tx.(phase := Loading, writes := [Insertion(tx.event)])
  }

  /** Steps that are not enabled leave everything as it is. */
  ghost function Perform(hash: LockHash, s: Cluster, a: Action): Cluster {
    if !IsEnabled(hash, s, a) then s
    else
      match a
      case Begin(id, e) => s.(txs := s.txs[id := Tx(e, Waiting, [])])
      case AcquireLock(id) => s.(txs := s.txs[id := s.txs[id].(phase := Locked)])
      case InsertEvent(id) => s.(txs := s.txs[id := InsertTx(s.db, s.txs[id])])
      case Advance(id) => s.(txs := s.txs[id := AdvanceTx(s.db, s.txs[id])])
      case Commit(id) =>
        Cluster(View(s.db, s.txs[id]), s.txs - {id}, s.log + [Entry(s.txs[id].event, s.txs[id].phase.after.result)])
      case Abort(id) => s.(txs := s.txs - {id})
  }

  ghost function PerformAll(hash: LockHash, actions: seq<Action>): Cluster
    decreases |actions|
  {
    if actions == [] then IDLE_CLUSTER
    else Perform(hash, PerformAll(hash, actions[..|actions| - 1]), actions[|actions| - 1])
  }

  // ----- the invariant of every interleaving -----

  function CommittedEvents(log: seq<Entry>): seq<OrderEvent> {
    seq(|log|, i requires 0 <= i < |log| => log[i].event)
  }

  /** The committed tables are those of a serial run, and every answer is the serial answer. */
  ghost predicate IsSerial(db: Tables, log: seq<Entry>) {
    && db == Run(EMPTY_TABLES, CommittedEvents(log))
    && (forall k :: 0 <= k < |log| ==>
          log[k].result == Step(Run(EMPTY_TABLES, CommittedEvents(log[..k])), log[k].event).result)
    && (forall k :: 0 <= k < |log| ==> IsNormal(log[k].event))
  }

  /** What a transaction has done and will do is what it would do alone, from the tables as they
      are committed now. */
  ghost predicate IsOnTrack(db: Tables, tx: Tx) {
    && IsNormal(tx.event)
    && match tx.phase
       case Waiting => tx.writes == []
       case Locked => tx.writes == []
       case Loading => tx.writes != [] && Follows(db, tx)
       case Running(todo, after) =>
         if tx.writes == [] then
           todo == [] && after == ThenCommit(DuplicateResult(tx.event)) && tx.event.eventId in db.processed
         else Follows(db, tx)
  }

  ghost predicate Follows(db: Tables, tx: Tx)
    requires tx.phase.Loading? || tx.phase.Running?
  {
    var rest := Remaining(View(db, tx), tx.event, tx.phase);
    && tx.event.eventId !in db.processed
    && WholeProgram(db, tx.event) == Program(tx.writes + rest.stmts, rest.result)
  }

  ghost predicate AreOnTrack(db: Tables, txs: map<TxId, Tx>) {
    forall id :: id in txs ==> IsOnTrack(db, txs[id])
  }

  ghost predicate LocksAreExclusive(hash: LockHash, txs: map<TxId, Tx>) {
    forall i, j :: i in txs && j in txs && i != j && HoldsLock(txs[i]) && HoldsLock(txs[j]) ==>
      hash(txs[i].event.orderId) != hash(txs[j].event.orderId)
  }

  ghost predicate EventsAreExclusive(txs: map<TxId, Tx>) {
    forall i, j :: i in txs && j in txs && i != j && HoldsEvent(txs[i]) && HoldsEvent(txs[j]) ==>
      txs[i].event.eventId != txs[j].event.eventId
  }

  ghost predicate TxsInv(hash: LockHash, db: Tables, txs: map<TxId, Tx>) {
    AreOnTrack(db, txs) && LocksAreExclusive(hash, txs) && EventsAreExclusive(txs)
  }

  ghost predicate ClusterInv(hash: LockHash, s: Cluster) {
    && Inv(s.db)
    && IsSerial(s.db, s.log)
    && TxsInv(hash, s.db, s.txs)
  }

  // ----- own steps stay on track -----

  lemma InsertStaysOnTrack(db: Tables, tx: Tx)
    requires IsOnTrack(db, tx) && tx.phase == Locked
    ensures IsOnTrack(db, InsertTx(db, tx))
  {
    if tx.event.eventId !in db.processed {
      OneStmt(db, Insertion(tx.event));
    }
  }

  lemma ViewAfterWrite(db: Tables, writes: seq<Stmt>, stmt: Stmt)
    ensures ExecAll(db, writes + [stmt]) == Exec(ExecAll(db, writes), stmt)
  {
    ExecAllConcat(db, writes, [stmt]);
    OneStmt(ExecAll(db, writes), stmt);
  }

  lemma StatementStaysOnTrack(db: Tables, tx: Tx)
    requires tx.phase.Running? && tx.phase.todo != [] && Follows(db, tx)
    ensures Follows(db, AdvanceTx(db, tx))
  {
    var todo, after := tx.phase.todo, tx.phase.after;
    ViewAfterWrite(db, tx.writes, todo[0]);
    StatementFollowsProgram(View(db, tx), tx.event, todo, after);
    SplitProgram(tx.writes, todo[0], Remaining(Exec(View(db, tx), todo[0]), tx.event, Running(todo[1..], after)).stmts);
  }

  lemma SplitProgram(writes: seq<Stmt>, stmt: Stmt, rest: seq<Stmt>)
    ensures writes + ([stmt] + rest) == (writes + [stmt]) + rest
  {
  }

  lemma AdvanceStaysOnTrack(db: Tables, tx: Tx)
    requires IsOnTrack(db, tx) && (tx.phase.Loading? || tx.phase.Running?) && !IsDone(tx)
    ensures IsOnTrack(db, AdvanceTx(db, tx))
    ensures HoldsEvent(tx)
  {
    if tx.phase.Running? {
      if tx.phase.todo != [] {
        StatementStaysOnTrack(db, tx);
      } else {
        ReplayFollowsProgram(View(db, tx), tx.event, tx.phase.after);
      }
    }
  }

  // ----- commits -----

  lemma CommitIsStep(db: Tables, tx: Tx)
    requires Inv(db) && IsOnTrack(db, tx) && IsDone(tx)
    ensures View(db, tx) == Step(db, tx.event).tables
    ensures tx.phase.after.result == Step(db, tx.event).result
  {
    if tx.writes != [] {
      WholeProgramIsStep(db, tx.event);
      assert tx.writes + [] == tx.writes;
    }
  }

  /** Another transaction's commit is invisible to a transaction of a different order. */
  lemma OthersStayOnTrack(db: Tables, e: OrderEvent, tx: Tx)
    requires Inv(db) && IsOnTrack(db, tx)
    requires HoldsLock(tx) ==> tx.event.orderId != e.orderId
    requires HoldsEvent(tx) ==> tx.event.eventId != e.eventId
    ensures IsOnTrack(Step(db, e).tables, tx)
  {
    var db' := Step(db, e).tables;
    StepAddsKey(db, e);
    if HoldsEvent(tx) {
      var o := tx.event.orderId;
      StepFrame(db, e, o);
      WholeProgramIsLocal(db, db', tx.event);
      SameOrderExecAll(db, db', tx.writes, o);
      RemainingIsLocal(View(db, tx), View(db', tx), tx.event, tx.phase);
    }
  }

  // ----- every action keeps the invariant -----

  lemma EventsSnoc(log: seq<Entry>, entry: Entry)
    ensures CommittedEvents(log + [entry]) == CommittedEvents(log) + [entry.event]
  {
  }

  lemma CommitStaysSerial(db: Tables, log: seq<Entry>, e: OrderEvent)
    requires IsSerial(db, log) && IsNormal(e)
    ensures IsSerial(Step(db, e).tables, log + [Entry(e, Step(db, e).result)])
  {
    var log' := log + [Entry(e, Step(db, e).result)];
    EventsSnoc(log, log'[|log|]);
    RunSnoc(EMPTY_TABLES, CommittedEvents(log), e);
    forall k | 0 <= k < |log'|
      ensures log'[k].result == Step(Run(EMPTY_TABLES, CommittedEvents(log'[..k])), log'[k].event).result
      ensures IsNormal(log'[k].event)
    {
      if k < |log| {
        assert log'[..k] == log[..k];
      } else {
        assert log'[..k] == log;
      }
    }
  }

  lemma CommitKeepsOthers(hash: LockHash, db: Tables, txs: map<TxId, Tx>, id: TxId)
    requires Inv(db) && TxsInv(hash, db, txs) && id in txs && IsDone(txs[id])
    ensures TxsInv(hash, Step(db, txs[id].event).tables, txs - {id})
  {
    var e := txs[id].event;
    assert IsOnTrack(db, txs[id]);
    forall other | other in txs && other != id
      ensures IsOnTrack(Step(db, e).tables, txs[other])
    {
      assert IsOnTrack(db, txs[other]);
      if HoldsEvent(txs[id]) {
        assert HoldsLock(txs[other]) ==> hash(txs[other].event.orderId) != hash(e.orderId);
        OthersStayOnTrack(db, e, txs[other]);
      }
    }
  }

  /** A commit turns the committed tables into what Step makes of them, and answers as Step does. */
  lemma CommitPerformsStep(hash: LockHash, s: Cluster, id: TxId)
    requires Inv(s.db) && id in s.txs && IsOnTrack(s.db, s.txs[id]) && IsDone(s.txs[id])
    ensures var e := s.txs[id].event;
            Perform(hash, s, Commit(id)) ==
            Cluster(Step(s.db, e).tables, s.txs - {id}, s.log + [Entry(e, Step(s.db, e).result)])
  {
    CommitIsStep(s.db, s.txs[id]);
  }

  lemma DoneIsOnTrack(db: Tables, txs: map<TxId, Tx>, id: TxId)
    requires AreOnTrack(db, txs) && id in txs
    ensures IsOnTrack(db, txs[id]) && IsNormal(txs[id].event)
  {
  }

  lemma CommitKeepsTables(hash: LockHash, s: Cluster, id: TxId)
    requires Inv(s.db) && AreOnTrack(s.db, s.txs) && id in s.txs && IsDone(s.txs[id])
    ensures Inv(Perform(hash, s, Commit(id)).db)
  {
    DoneIsOnTrack(s.db, s.txs, id);
    CommitPerformsStep(hash, s, id);
    StepKeepsInv(s.db, s.txs[id].event);
  }

  lemma CommitKeepsSerial(hash: LockHash, s: Cluster, id: TxId)
    requires Inv(s.db) && IsSerial(s.db, s.log) && AreOnTrack(s.db, s.txs) && id in s.txs && IsDone(s.txs[id])
    ensures IsSerial(Perform(hash, s, Commit(id)).db, Perform(hash, s, Commit(id)).log)
  {
    DoneIsOnTrack(s.db, s.txs, id);
    CommitPerformsStep(hash, s, id);
    CommitStaysSerial(s.db, s.log, s.txs[id].event);
  }

  lemma CommitKeepsTxs(hash: LockHash, s: Cluster, id: TxId)
    requires Inv(s.db) && TxsInv(hash, s.db, s.txs) && id in s.txs && IsDone(s.txs[id])
    ensures TxsInv(hash, Perform(hash, s, Commit(id)).db, Perform(hash, s, Commit(id)).txs)
  {
    DoneIsOnTrack(s.db, s.txs, id);
    CommitPerformsStep(hash, s, id);
    CommitKeepsOthers(hash, s.db, s.txs, id);
  }

  lemma CommitKeepsInv(hash: LockHash, s: Cluster, id: TxId)
    requires ClusterInv(hash, s) && id in s.txs && IsDone(s.txs[id])
    ensures ClusterInv(hash, Perform(hash, s, Commit(id)))
  {
    CommitKeepsTables(hash, s, id);
    CommitKeepsSerial(hash, s, id);
    CommitKeepsTxs(hash, s, id);
  }

  /** One transaction moves on without colliding with the others. */
  lemma TxMoves(hash: LockHash, db: Tables, txs: map<TxId, Tx>, id: TxId, tx: Tx)
    requires TxsInv(hash, db, txs) && IsOnTrack(db, tx)
    requires HoldsLock(tx) ==> forall other :: other in txs && other != id && HoldsLock(txs[other]) ==>
               hash(txs[other].event.orderId) != hash(tx.event.orderId)
    requires HoldsEvent(tx) ==> forall other :: other in txs && other != id && HoldsEvent(txs[other]) ==>
               txs[other].event.eventId != tx.event.eventId
    ensures TxsInv(hash, db, txs[id := tx])
  {
  }

  lemma TxEnds(hash: LockHash, db: Tables, txs: map<TxId, Tx>, id: TxId)
    requires TxsInv(hash, db, txs)
    ensures TxsInv(hash, db, txs - {id})
  {
  }

  lemma ActiveTxMoves(hash: LockHash, s: Cluster, a: Action)
    requires TxsInv(hash, s.db, s.txs) && IsEnabled(hash, s, a)
    requires a.AcquireLock? || a.InsertEvent? || a.Advance?
    ensures TxsInv(hash, s.db, Perform(hash, s, a).txs)
  {
    var tx := s.txs[a.id];
    assert IsOnTrack(s.db, tx);
    if a.AcquireLock? {
      TxMoves(hash, s.db, s.txs, a.id, tx.(phase := Locked));
    } else if a.InsertEvent? {
      InsertStaysOnTrack(s.db, tx);
      TxMoves(hash, s.db, s.txs, a.id, InsertTx(s.db, tx));
    } else {
      AdvanceStaysOnTrack(s.db, tx);
      TxMoves(hash, s.db, s.txs, a.id, AdvanceTx(s.db, tx));
    }
  }

  lemma PerformKeepsInv(hash: LockHash, s: Cluster, a: Action)
    requires ClusterInv(hash, s)
    ensures ClusterInv(hash, Perform(hash, s, a))
  {
    if IsEnabled(hash, s, a) {
      match a
      case Begin(id, e) => TxMoves(hash, s.db, s.txs, id, Tx(e, Waiting, []));
      case Commit(id) => CommitKeepsInv(hash, s, id);
      case Abort(id) => TxEnds(hash, s.db, s.txs, id);
      case _ => ActiveTxMoves(hash, s, a);
    }
  }

  /** Serialisability: after every interleaving of locking, inserting, reading, writing,
      committing and aborting, with any hash and any collisions, the committed tables equal the
      serial run of the committed events in commit order, and every answer is the serial one. */
  lemma {:induction false} EveryInterleavingIsSerial(hash: LockHash, actions: seq<Action>)
    ensures ClusterInv(hash, PerformAll(hash, actions))
    ensures var s := PerformAll(hash, actions);
            && s.db == Run(EMPTY_TABLES, CommittedEvents(s.log))
            && (forall k :: 0 <= k < |s.log| ==>
                  s.log[k].result == Step(Run(EMPTY_TABLES, CommittedEvents(s.log[..k])), s.log[k].event).result)
    decreases |actions|
  {
    if actions == [] {
      EmptyTablesInv();
      assert CommittedEvents([]) == [];
    } else {
      var n := |actions| - 1;
      EveryInterleavingIsSerial(hash, actions[..n]);
      PerformKeepsInv(hash, PerformAll(hash, actions[..n]), actions[n]);
    }
  }

  // ----- progress and conflicts -----

  ghost predicate CanProceed(hash: LockHash, s: Cluster, id: TxId) {
    || IsEnabled(hash, s, AcquireLock(id))
    || IsEnabled(hash, s, InsertEvent(id))
    || IsEnabled(hash, s, Advance(id))
    || IsEnabled(hash, s, Commit(id))
  }

  /** Deadlock freedom: while a transaction is in progress, some transaction can take a step
      other than giving up. Waiters for the lock hold nothing, waiters for an event id hold only
      a lock, and holders of both wait for nobody. */
  lemma SomeTransactionCanProceed(hash: LockHash, actions: seq<Action>)
    requires PerformAll(hash, actions).txs != map[]
    ensures exists id :: id in PerformAll(hash, actions).txs && CanProceed(hash, PerformAll(hash, actions), id)
  {
    var s := PerformAll(hash, actions);
    EveryInterleavingIsSerial(hash, actions);
    SomeTxProceeds(hash, s);
  }

  lemma HolderProceeds(hash: LockHash, s: Cluster, id: TxId)
    requires id in s.txs && IsOnTrack(s.db, s.txs[id]) && HoldsEvent(s.txs[id])
    ensures CanProceed(hash, s, id)
  {
  }

  lemma LockerProceeds(hash: LockHash, s: Cluster, id: TxId)
    requires id in s.txs && HoldsLock(s.txs[id])
    requires forall other :: other in s.txs ==> !HoldsEvent(s.txs[other])
    ensures CanProceed(hash, s, id)
  {
    if s.txs[id].phase == Locked {
      assert IsEnabled(hash, s, InsertEvent(id));
    } else if IsDone(s.txs[id]) {
      assert IsEnabled(hash, s, Commit(id));
    } else {
      assert IsEnabled(hash, s, Advance(id));
    }
  }

  lemma SomeTxProceeds(hash: LockHash, s: Cluster)
    requires s.txs != map[] && AreOnTrack(s.db, s.txs)
    ensures exists id :: id in s.txs && CanProceed(hash, s, id)
  {
    var any :| any in s.txs;
    if id :| id in s.txs && HoldsEvent(s.txs[id]) {
      assert IsOnTrack(s.db, s.txs[id]);
      HolderProceeds(hash, s, id);
    } else if id :| id in s.txs && HoldsLock(s.txs[id]) {
      LockerProceeds(hash, s, id);
    } else {
      assert IsEnabled(hash, s, AcquireLock(any));
      assert CanProceed(hash, s, any);
    }
  }

  /** The statement that a transaction executes in its next step, if that step executes one; the
      insert of an event id that is already committed does nothing. */
  function NextStatement(db: Tables, tx: Tx): Option<Stmt> {
    if tx.phase == Locked && tx.event.eventId !in db.processed then Some(Insertion(tx.event))
    else if tx.phase.Running? && tx.phase.todo != [] then Some(tx.phase.todo[0])
    else None
  }

  /** Constraint safety: in every reachable state the statement a transaction is about to execute
      violates no constraint on what it sees then. */
  lemma NextStatementIsAccepted(hash: LockHash, actions: seq<Action>, id: TxId)
    requires id in PerformAll(hash, actions).txs
    ensures var s := PerformAll(hash, actions);
            var next := NextStatement(s.db, s.txs[id]);
            next.Some? ==> Accepts(View(s.db, s.txs[id]), next.value)
  {
    var s := PerformAll(hash, actions);
    EveryInterleavingIsSerial(hash, actions);
    assert IsOnTrack(s.db, s.txs[id]);
    if s.txs[id].phase.Running? && s.txs[id].phase.todo != [] {
      OnTrackIsAccepted(s.db, s.txs[id]);
    }
  }

  lemma OnTrackIsAccepted(db: Tables, tx: Tx)
    requires Consistent(db) && IsNormal(tx.event)
    requires tx.phase.Running? && tx.phase.todo != [] && Follows(db, tx)
    ensures Accepts(View(db, tx), tx.phase.todo[0])
  {
    var todo, after := tx.phase.todo, tx.phase.after;
    var rest := Remaining(View(db, tx), tx.event, tx.phase).stmts;
    WholeProgramIsStep(db, tx.event);
    ExecAllConcat(db, tx.writes, rest);
    StatementFollowsProgram(View(db, tx), tx.event, todo, after);
  }

  // ----- no two transactions write the same row -----

  datatype RowKey = OrderKey(o: OrderId) | ProcessedKey(id: EventId) | PendingRowKey(id: EventId) | HistoryKey(id: EventId)

  /** The uniquely keyed row a statement writes; a dead letter gets a fresh serial id. */
  function RowOf(stmt: Stmt): Option<RowKey> {
    match stmt
    case InsertProcessed(id, _) => Some(ProcessedKey(id))
    case UpdateOutcome(id, _) => Some(ProcessedKey(id))
    case InsertOrder(o, _) => Some(OrderKey(o))
    case UpdateOrder(o, _) => Some(OrderKey(o))
    case InsertHistory(row) => Some(HistoryKey(row.eventId))
    case InsertPending(id, _) => Some(PendingRowKey(id))
    case DeletePending(id) => Some(PendingRowKey(id))
    case InsertDeadLetter(_) => None
  }

  /** The event is the transaction's own, or it is deferred for its order. */
  predicate OwnsEvent(t: Tables, e: OrderEvent, id: EventId) {
    id == e.eventId || IsPendingFor(t.pending, e.orderId, id)
  }

  predicate OwnsRow(t: Tables, e: OrderEvent, stmt: Stmt) {
    match RowOf(stmt)
    case None => true
    case Some(OrderKey(o)) => o == e.orderId
    case Some(key) => OwnsEvent(t, e, key.id)
  }

  ghost predicate OwnsAll(t: Tables, e: OrderEvent, stmts: seq<Stmt>) {
    forall k :: 0 <= k < |stmts| ==> OwnsRow(t, e, stmts[k])
  }

  lemma RouteStmtsOwned(t: Tables, e: OrderEvent, other: OrderEvent, current: Status, orderExists: bool)
    requires OwnsEvent(t, e, other.eventId) && other.orderId == e.orderId
    ensures OwnsAll(t, e, RouteStmts(other, current, orderExists))
  {
  }

  lemma {:induction false} ReplayProgramOwned(t: Tables, e: OrderEvent, queue: seq<OrderEvent>, current: Status)
    requires forall i :: 0 <= i < |queue| ==> OwnsEvent(t, e, queue[i].eventId) && queue[i].orderId == e.orderId
    ensures OwnsAll(t, e, ReplayProgram(queue, current))
    decreases |queue|
  {
    if queue != [] && Classify(current, queue[0].status) != OutOfOrder {
      RouteStmtsOwned(t, e, queue[0], current, true);
      ReplayProgramOwned(t, e, queue[1..], NextStatus(current, queue[0]));
      assert OwnsRow(t, e, DeletePending(queue[0].eventId));
    }
  }

  lemma ReplayedEventsOwned(t: Tables, e: OrderEvent, current: Status, queue: seq<OrderEvent>)
    requires Classify(current, e.status) == Applied
    requires queue == OrderQueue(Route(t, e, current), e.orderId)
    ensures OwnsAll(t, e, ReplayProgram(queue, e.status))
  {
    var t1 := Route(t, e, current);
    QueueIsDeferred(t1, e.orderId);
    forall i | 0 <= i < |queue|
      ensures OwnsEvent(t, e, queue[i].eventId) && queue[i].orderId == e.orderId
    {
      assert IsPendingFor(t1.pending, e.orderId, queue[i].eventId);
    }
    ReplayProgramOwned(t, e, queue, e.status);
  }

  lemma HeadOwned(t: Tables, e: OrderEvent)
    ensures OwnsAll(t, e, [Insertion(e)] + Decide(Exec(t, Insertion(e)), e).todo)
  {
    var view := Exec(t, Insertion(e));
    RouteStmtsOwned(t, e, e, CurrentStatus(view, e.orderId), e.orderId in view.orders);
  }

  lemma WholeProgramOwned(t: Tables, e: OrderEvent)
    requires Consistent(t) && e.status.IsKnown() && e.eventId !in t.processed
    ensures OwnsAll(t, e, WholeProgram(t, e).stmts)
  {
    var current := CurrentStatus(t, e.orderId);
    HeadOwned(t, e);
    if Classify(current, e.status) == Applied {
      AppliedProgramShape(t, e);
      ReplayedEventsOwned(t, e, current, OrderQueue(Route(t, e, current), e.orderId));
    } else {
      assert WholeProgram(t, e).stmts == [Insertion(e)] + Decide(Exec(t, Insertion(e)), e).todo;
    }
  }

  lemma OwnersAreDisjoint(t: Tables, a: OrderEvent, b: OrderEvent, s: Stmt, u: Stmt)
    requires PendingRowsMatch(t.processed, t.pending)
    requires a.eventId !in t.processed && b.eventId !in t.processed
    requires a.orderId != b.orderId && a.eventId != b.eventId
    requires OwnsRow(t, a, s) && OwnsRow(t, b, u)
    ensures RowOf(s).Some? ==> RowOf(s) != RowOf(u)
  {
    assert a.eventId in t.pending <==> HasOutcome(t.processed, a.eventId, OutOfOrder);
    assert b.eventId in t.pending <==> HasOutcome(t.processed, b.eventId, OutOfOrder);
  }

  /** Once a transaction has inserted its event id it never waits for another one: the rows it
      has written or is about to write are written by no other transaction in progress. */
  lemma NoRowHasTwoWriters(hash: LockHash, actions: seq<Action>, i: TxId, j: TxId, s: Stmt, u: Stmt)
    requires var txs := PerformAll(hash, actions).txs;
             && i in txs && j in txs && i != j && HoldsEvent(txs[i]) && HoldsEvent(txs[j])
             && WrittenOrNext(txs[i], s) && WrittenOrNext(txs[j], u)
    ensures RowOf(s).Some? ==> RowOf(s) != RowOf(u)
  {
    var c := PerformAll(hash, actions);
    EveryInterleavingIsSerial(hash, actions);
    assert IsOnTrack(c.db, c.txs[i]) && IsOnTrack(c.db, c.txs[j]);
    TxOwnsItsRows(c.db, c.txs[i], s);
    TxOwnsItsRows(c.db, c.txs[j], u);
    OwnersAreDisjoint(c.db, c.txs[i].event, c.txs[j].event, s, u);
  }

  predicate WrittenOrNext(tx: Tx, s: Stmt) {
    s in tx.writes || (tx.phase.Running? && s in tx.phase.todo)
  }

  lemma TxOwnsItsRows(db: Tables, tx: Tx, s: Stmt)
    requires Consistent(db) && IsOnTrack(db, tx) && HoldsEvent(tx) && WrittenOrNext(tx, s)
    ensures OwnsRow(db, tx.event, s) && tx.event.eventId !in db.processed
  {
    var program := WholeProgram(db, tx.event).stmts;
    WholeProgramOwned(db, tx.event);
    if s in tx.writes {
      var k :| 0 <= k < |tx.writes| && tx.writes[k] == s;
      assert program[k] == s;
    } else {
      var k :| 0 <= k < |tx.phase.todo| && tx.phase.todo[k] == s;
      assert program[|tx.writes| + k] == s;
    }
  }
}
