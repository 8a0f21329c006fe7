/** Stream, consumer group, workers and reclaimer around the transactions. */
module Delivery {
  import opened Domain
  import opened Schema
  import opened Processor
  import opened Invariants
  import opened Steps
  import opened Runs
  import opened Transactions
  import opened Concurrency
  import opened Convergence

  /** Held: delivered, not started. Processing: its transaction is in progress. Succeeded: the
      commit was reported, the acknowledgement is still to come. */
  datatype Stage = Held | Processing | Succeeded

  /** One consumer handling one stream entry; several may handle the same entry at once. */
  datatype Task = Task(entry: nat, stage: Stage)

  /** Entries below `cursor` were delivered to the group; `pel` is its pending-entries list. */
  datatype System = System(
    cluster: Cluster,
    stream: seq<OrderEvent>,
    cursor: nat,
    pel: set<nat>,
    acked: set<nat>,
    tasks: map<TxId, Task>)

  const IDLE_SYSTEM := System(IDLE_CLUSTER, [], 0, {}, {}, map[])

  /** `keeper` is the consumer that gets the entry, or None when the reply ends in an error. */
  datatype Move =
    | Publish(event: OrderEvent)
    | Deliver(keeper: Option<TxId>)
    | Claim(entry: nat, keeper: Option<TxId>)
    | StartTx(id: TxId)
    | RunTx(id: TxId)
    | CommitAnswered(id: TxId)
    | CommitUnanswered(id: TxId)
    | Ack(id: TxId)
    | Drop(id: TxId)

  predicate IsFresh(s: System, keeper: Option<TxId>) {
    keeper.Some? ==> keeper.value !in s.tasks
  }

  predicate IsAt(s: System, id: TxId, stage: Stage) {
    id in s.tasks && s.tasks[id].stage == stage
  }

  function Keep(tasks: map<TxId, Task>, keeper: Option<TxId>, entry: nat): map<TxId, Task> {
    if keeper.Some? then tasks[keeper.value := Task(entry, Held)] else tasks
  }

  predicate CanMove(hash: LockHash, s: System, m: Move) {
    match m
    case Publish(_) => true
    case Deliver(keeper) => s.cursor < |s.stream| && IsFresh(s, keeper)
    case Claim(entry, keeper) => entry in s.pel && IsFresh(s, keeper)
    case StartTx(id) => IsAt(s, id, Held) && s.tasks[id].entry < |s.stream|
                        && ValidateEvent(s.stream[s.tasks[id].entry]).Valid?
    case RunTx(id) => IsAt(s, id, Processing)
    case CommitAnswered(id) => IsAt(s, id, Processing) && IsEnabled(hash, s.cluster, Commit(id))
    case CommitUnanswered(id) => IsAt(s, id, Processing) && IsEnabled(hash, s.cluster, Commit(id))
    case Ack(id) => IsAt(s, id, Succeeded)
    case Drop(id) => id in s.tasks
  }

  /** The one internal step that the phase of the transaction allows; it may have to wait. */
  function NextAction(c: Cluster, id: TxId): Action
    requires id in c.txs
  {
    match c.txs[id].phase
    case Waiting => AcquireLock(id)
    case Locked => InsertEvent(id)
    case _ => Advance(id)
  }

  ghost function RunOnce(hash: LockHash, c: Cluster, id: TxId): Cluster {
    if id in c.txs then Perform(hash, c, NextAction(c, id)) else c
  }

  /** Every adversarial event is a move: `Deliver` and `Claim` without a keeper lose the reply,
      `Drop` is a rejected event, a rollback, a crash or a missing acknowledgement, and
      `CommitUnanswered` is a commit whose report is lost. */
  ghost function MoveOn(hash: LockHash, s: System, m: Move): System {
    if !CanMove(hash, s, m) then s
    else
      match m
      case Publish(e) => s.(stream := s.stream + [e])
      case Deliver(keeper) =>
        s.(cursor := s.cursor + 1, pel := s.pel + {s.cursor}, tasks := Keep(s.tasks, keeper, s.cursor))
      case Claim(entry, keeper) => s.(tasks := Keep(s.tasks, keeper, entry))
      case StartTx(id) =>
        s.(cluster := Perform(hash, s.cluster, Begin(id, ValidateEvent(s.stream[s.tasks[id].entry]).event)),
           tasks := s.tasks[id := s.tasks[id].(stage := Processing)])
      case RunTx(id) => s.(cluster := RunOnce(hash, s.cluster, id))
      case CommitAnswered(id) =>
        s.(cluster := Perform(hash, s.cluster, Commit(id)), tasks := s.tasks[id := s.tasks[id].(stage := Succeeded)])
      case CommitUnanswered(id) =>
        s.(cluster := Perform(hash, s.cluster, Commit(id)), tasks := s.tasks - {id})
      case Ack(id) =>
        var entry := s.tasks[id].entry;
        s.(pel := s.pel - {entry}, acked := s.acked + ({entry} * s.pel), tasks := s.tasks - {id})
      case Drop(id) =>
        s.(cluster := Perform(hash, s.cluster, Abort(id)), tasks := s.tasks - {id})
  }

  ghost function MoveAll(hash: LockHash, moves: seq<Move>): System
    decreases |moves|
  {
    if moves == [] then IDLE_SYSTEM
    else MoveOn(hash, MoveAll(hash, moves[..|moves| - 1]), moves[|moves| - 1])
  }

  // ----- what the moves do -----

  /** `keeper` gets a task for the entry, not started, and all other tasks stay as they are. */
  ghost predicate HandsOut(tasks: map<TxId, Task>, tasks': map<TxId, Task>, keeper: Option<TxId>, entry: nat) {
    && (keeper.Some? ==> keeper.value in tasks' && tasks'[keeper.value] == Task(entry, Held))
    && (forall id :: keeper != Some(id) ==> (id in tasks' <==> id in tasks))
    && (forall id :: keeper != Some(id) && id in tasks ==> tasks'[id] == tasks[id])
  }

  /** The next unread entry, or any pending one, is handed to the consumer that asks for it, if the
      reply arrives. Either way a delivered entry is pending, and a claimed one still is. */
  lemma EntriesAreHandedOut(hash: LockHash, s: System, keeper: Option<TxId>, entry: nat)
    requires keeper.Some? ==> keeper.value !in s.tasks
    ensures s.cursor < |s.stream| ==>
              var s' := MoveOn(hash, s, Deliver(keeper));
              && HandsOut(s.tasks, s'.tasks, keeper, s.cursor)
              && s'.cursor == s.cursor + 1 && (forall k :: k in s'.pel <==> k in s.pel || k == s.cursor)
              && s'.stream == s.stream && s'.acked == s.acked && s'.cluster == s.cluster
    ensures entry in s.pel ==>
              var s' := MoveOn(hash, s, Claim(entry, keeper));
              HandsOut(s.tasks, s'.tasks, keeper, entry) && s' == s.(tasks := s'.tasks)
  {
  }

  /** The task is over, all other tasks and their transactions stay as they are. */
  ghost predicate Ends(s: System, s': System, id: TxId) {
    && id !in s'.tasks && id !in s'.cluster.txs && s'.stream == s.stream && s'.cursor == s.cursor
    && (forall other :: other != id ==> (other in s'.tasks <==> other in s.tasks))
    && (forall other :: other != id && other in s.tasks ==> s'.tasks[other] == s.tasks[other])
    && (forall other :: other != id ==> (other in s'.cluster.txs <==> other in s.cluster.txs))
    && (forall other :: other != id && other in s.cluster.txs ==> s'.cluster.txs[other] == s.cluster.txs[other])
  }

  /** A task that is dropped at any point leaves nothing behind: what its transaction did is gone,
      and its entry stays pending. */
  lemma DropForgets(hash: LockHash, s: System, id: TxId)
    requires id in s.tasks
    ensures var s' := MoveOn(hash, s, Drop(id));
            && Ends(s, s', id) && s'.pel == s.pel && s'.acked == s.acked
            && s'.cluster.db == s.cluster.db && s'.cluster.log == s.cluster.log
  {
  }

  /** A valid event whose task is not started yet can be started at any time, whatever else is in
      progress, also for the same entry; its transaction then waits for its lock. */
  lemma ValidEventsCanStart(hash: LockHash, s: System, id: TxId)
    requires IsAt(s, id, Held) && id !in s.cluster.txs && s.tasks[id].entry < |s.stream|
    requires ValidateEvent(s.stream[s.tasks[id].entry]).Valid?
    ensures var s', e := MoveOn(hash, s, StartTx(id)), ValidateEvent(s.stream[s.tasks[id].entry]).event;
            && s' == s.(cluster := s'.cluster, tasks := s.tasks[id := Task(s.tasks[id].entry, Processing)])
            && s'.cluster == s.cluster.(txs := s.cluster.txs[id := Tx(e, Waiting, [])])
  {
    ValidationNormalizes(s.stream[s.tasks[id].entry]);
  }

  /** A transaction in progress takes whatever step it can take in the cluster. */
  lemma TransactionsMoveOn(hash: LockHash, s: System, id: TxId, a: Action)
    requires IsAt(s, id, Processing) && IsEnabled(hash, s.cluster, a)
    requires a in {AcquireLock(id), InsertEvent(id), Advance(id)}
    ensures MoveOn(hash, s, RunTx(id)) == s.(cluster := Perform(hash, s.cluster, a))
  {
  }

  lemma CommitsMove(hash: LockHash, s: System, id: TxId)
    requires IsAt(s, id, Processing) && id in s.cluster.txs && IsDone(s.cluster.txs[id])
    ensures var lost, answered := MoveOn(hash, s, CommitUnanswered(id)), MoveOn(hash, s, CommitAnswered(id));
            && lost == s.(cluster := Perform(hash, s.cluster, Commit(id)), tasks := s.tasks - {id})
            && answered == lost.(tasks := s.tasks[id := Task(s.tasks[id].entry, Succeeded)])
  {
  }

  /** A finished transaction commits what `Step` does. When its report is lost, the task ends with
      the entry still pending; otherwise the acknowledgement is due. */
  lemma CommitsLeaveTheEntryPending(hash: LockHash, s: System, id: TxId)
    requires ClusterInv(hash, s.cluster)
    requires IsAt(s, id, Processing) && id in s.cluster.txs && IsDone(s.cluster.txs[id])
    ensures var e := s.cluster.txs[id].event;
            var lost, answered := MoveOn(hash, s, CommitUnanswered(id)), MoveOn(hash, s, CommitAnswered(id));
            && Ends(s, lost, id) && lost.pel == s.pel && lost.acked == s.acked
            && lost.cluster.db == Step(s.cluster.db, e).tables
            && lost.cluster.log == s.cluster.log + [Entry(e, Step(s.cluster.db, e).result)]
            && answered == lost.(tasks := s.tasks[id := Task(s.tasks[id].entry, Succeeded)])
  {
    CommitsMove(hash, s, id);
    DoneIsOnTrack(s.cluster.db, s.cluster.txs, id);
    CommitPerformsStep(hash, s.cluster, id);
  }

  /** An acknowledgement moves the entry from the pending list to the acknowledged ones, unless
      another consumer was faster. */
  lemma AckSettlesTheEntry(hash: LockHash, s: System, id: TxId)
    requires EntriesAccounted(s) && TasksAreSound(s) && IsAt(s, id, Succeeded)
    ensures var s', entry := MoveOn(hash, s, Ack(id)), s.tasks[id].entry;
            && Ends(s, s', id) && s'.cluster == s.cluster && entry !in s'.pel && entry in s'.acked
            && s'.pel + {entry} == s.pel + {entry} && s'.acked - {entry} == s.acked - {entry}
  {
    assert TaskIsSound(s, id);
  }

  // ----- the invariant -----

  /** The entry holds a valid event whose id is committed. */
  ghost predicate IsCommitted(s: System, entry: nat) {
    && entry < |s.stream|
    && ValidateEvent(s.stream[entry]).Valid?
    && s.stream[entry].eventId in s.cluster.db.processed
  }

  /** Each entry is in exactly one of unread, pending-entries list and acknowledged. */
  ghost predicate EntriesAccounted(s: System) {
    && s.cursor <= |s.stream|
    && s.pel !! s.acked
    && (forall k: nat :: k < s.cursor <==> k in s.pel || k in s.acked)
  }

  ghost predicate TaskIsSound(s: System, id: TxId)
    requires id in s.tasks
  {
    var entry := s.tasks[id].entry;
    && entry < s.cursor
    && (s.tasks[id].stage == Processing <==> id in s.cluster.txs)
    && (s.tasks[id].stage == Processing ==>
          entry < |s.stream| && ValidateEvent(s.stream[entry]) == Valid(s.cluster.txs[id].event))
    && (s.tasks[id].stage == Succeeded ==> IsCommitted(s, entry))
  }

  ghost predicate IsPublished(stream: seq<OrderEvent>, e: OrderEvent) {
    exists k :: 0 <= k < |stream| && ValidateEvent(stream[k]) == Valid(e)
  }

  ghost predicate TasksAreSound(s: System) {
    && (forall id :: id in s.tasks ==> TaskIsSound(s, id))
    && (forall id :: id in s.cluster.txs ==> id in s.tasks)
  }

  ghost predicate AcksAreSound(s: System) {
    forall k :: k in s.acked ==> IsCommitted(s, k)
  }

  ghost predicate LogIsPublished(s: System) {
    forall k :: 0 <= k < |s.cluster.log| ==> IsPublished(s.stream, s.cluster.log[k].event)
  }

  ghost predicate DeliveryInv(s: System) {
    EntriesAccounted(s) && TasksAreSound(s) && AcksAreSound(s) && LogIsPublished(s)
  }

  ghost predicate SystemInv(hash: LockHash, s: System) {
    ClusterInv(hash, s.cluster) && DeliveryInv(s)
  }

  // ----- what the database side of a move changes -----

  lemma CommitEffect(hash: LockHash, c: Cluster, id: TxId)
    requires ClusterInv(hash, c) && IsEnabled(hash, c, Commit(id))
    ensures var c' := Perform(hash, c, Commit(id));
            && c'.txs == c.txs - {id}
            && c'.db.processed.Keys == c.db.processed.Keys + {c.txs[id].event.eventId}
            && |c'.log| == |c.log| + 1 && c'.log[..|c.log|] == c.log && c'.log[|c.log|].event == c.txs[id].event
  {
    assert IsOnTrack(c.db, c.txs[id]);
    CommitPerformsStep(hash, c, id);
    StepAddsKey(c.db, c.txs[id].event);
  }

  lemma RunEffect(hash: LockHash, c: Cluster, id: TxId)
    ensures var c' := RunOnce(hash, c, id);
            && c'.db == c.db && c'.log == c.log && c'.txs.Keys == c.txs.Keys
            && forall other :: other in c.txs ==> c'.txs[other].event == c.txs[other].event
  {
  }

  lemma ClusterMoves(hash: LockHash, s: System, m: Move)
    requires ClusterInv(hash, s.cluster)
    ensures ClusterInv(hash, MoveOn(hash, s, m).cluster)
  {
    if CanMove(hash, s, m) {
      match m
      case StartTx(id) => PerformKeepsInv(hash, s.cluster, Begin(id, ValidateEvent(s.stream[s.tasks[id].entry]).event));
      case RunTx(id) =>
        if id in s.cluster.txs {
          PerformKeepsInv(hash, s.cluster, NextAction(s.cluster, id));
        }
      case CommitAnswered(id) => PerformKeepsInv(hash, s.cluster, Commit(id));
      case CommitUnanswered(id) => PerformKeepsInv(hash, s.cluster, Commit(id));
      case Drop(id) => PerformKeepsInv(hash, s.cluster, Abort(id));
      case _ =>
    }
  }

  // ----- each move keeps the delivery side sound -----

  lemma PublishIsSound(s: System, e: OrderEvent)
    requires DeliveryInv(s)
    ensures DeliveryInv(s.(stream := s.stream + [e]))
  {
    var s' := s.(stream := s.stream + [e]);
    forall k | 0 <= k < |s.cluster.log|
      ensures IsPublished(s'.stream, s.cluster.log[k].event)
    {
      var i :| 0 <= i < |s.stream| && ValidateEvent(s.stream[i]) == Valid(s.cluster.log[k].event);
      assert s'.stream[i] == s.stream[i];
    }
    forall id | id in s'.tasks
      ensures TaskIsSound(s', id)
    {
      assert TaskIsSound(s, id);
    }
    forall k | k in s'.acked
      ensures IsCommitted(s', k)
    {
      assert IsCommitted(s, k);
    }
  }

  lemma HandOutIsSound(s: System, m: Move, hash: LockHash)
    requires DeliveryInv(s) && CanMove(hash, s, m) && (m.Deliver? || m.Claim?)
    ensures DeliveryInv(MoveOn(hash, s, m))
  {
    var s' := MoveOn(hash, s, m);
    forall id | id in s'.tasks
      ensures TaskIsSound(s', id)
    {
      assert id in s.tasks ==> TaskIsSound(s, id);
      assert id !in s.tasks ==> id !in s.cluster.txs;
    }
    forall k | k in s'.acked
      ensures IsCommitted(s', k)
    {
      assert IsCommitted(s, k);
    }
  }

  /** The database side changed: more events committed, one transaction begun, ended or moved. */
  lemma DatabaseMoveIsSound(s: System, s': System, id: TxId)
    requires DeliveryInv(s) && id in s.tasks
    requires s'.stream == s.stream && s'.cursor == s.cursor && s'.pel == s.pel && s'.acked == s.acked
    requires s.cluster.db.processed.Keys <= s'.cluster.db.processed.Keys
    requires s'.tasks.Keys <= s.tasks.Keys && s'.cluster.txs.Keys <= s'.tasks.Keys
    requires forall other :: other in s'.tasks && other != id ==>
               && s'.tasks[other] == s.tasks[other]
               && (other in s'.cluster.txs <==> other in s.cluster.txs)
               && (other in s.cluster.txs ==> s'.cluster.txs[other].event == s.cluster.txs[other].event)
    requires id in s'.tasks ==> TaskIsSound(s', id)
    requires LogIsPublished(s')
    ensures DeliveryInv(s')
  {
    forall other | other in s'.tasks
      ensures TaskIsSound(s', other)
    {
      assert TaskIsSound(s, other);
    }
    forall k | k in s'.acked
      ensures IsCommitted(s', k)
    {
      assert IsCommitted(s, k);
    }
  }

  lemma LogStaysPublished(stream: seq<OrderEvent>, log: seq<Entry>, log': seq<Entry>, entry: nat)
    requires forall k :: 0 <= k < |log| ==> IsPublished(stream, log[k].event)
    requires |log'| == |log| + 1 && log'[..|log|] == log
    requires entry < |stream| && ValidateEvent(stream[entry]) == Valid(log'[|log|].event)
    ensures forall k :: 0 <= k < |log'| ==> IsPublished(stream, log'[k].event)
  {
    forall k | 0 <= k < |log'|
      ensures IsPublished(stream, log'[k].event)
    {
      if k < |log| {
        assert log'[k] == log'[..|log|][k];
      }
    }
  }

  /** A transaction is over and its event is committed; its task is over or awaits the acknowledgement. */
  lemma CommittedTaskIsSound(s: System, s': System, id: TxId)
    requires DeliveryInv(s) && IsAt(s, id, Processing)
    requires s'.stream == s.stream && s'.cursor == s.cursor && s'.pel == s.pel && s'.acked == s.acked
    requires s'.tasks == s.tasks - {id} || s'.tasks == s.tasks[id := Task(s.tasks[id].entry, Succeeded)]
    requires id in s.cluster.txs && s'.cluster.txs == s.cluster.txs - {id}
    requires s'.cluster.db.processed.Keys == s.cluster.db.processed.Keys + {s.cluster.txs[id].event.eventId}
    requires |s'.cluster.log| == |s.cluster.log| + 1 && s'.cluster.log[..|s.cluster.log|] == s.cluster.log
    requires s'.cluster.log[|s.cluster.log|].event == s.cluster.txs[id].event
    ensures DeliveryInv(s')
  {
    assert TaskIsSound(s, id);
    LogStaysPublished(s.stream, s.cluster.log, s'.cluster.log, s.tasks[id].entry);
    ValidationNormalizes(s.stream[s.tasks[id].entry]);
    DatabaseMoveIsSound(s, s', id);
  }

  lemma CommitIsSound(hash: LockHash, s: System, s': System, id: TxId)
    requires ClusterInv(hash, s.cluster) && DeliveryInv(s)
    requires IsAt(s, id, Processing) && IsEnabled(hash, s.cluster, Commit(id))
    requires s' == s.(cluster := Perform(hash, s.cluster, Commit(id)), tasks := s'.tasks)
    requires s'.tasks == s.tasks - {id} || s'.tasks == s.tasks[id := Task(s.tasks[id].entry, Succeeded)]
    ensures DeliveryInv(s')
  {
    CommitEffect(hash, s.cluster, id);
    CommittedTaskIsSound(s, s', id);
  }

  lemma AckIsSound(hash: LockHash, s: System, id: TxId)
    requires DeliveryInv(s) && IsAt(s, id, Succeeded)
    ensures DeliveryInv(MoveOn(hash, s, Ack(id)))
  {
    var s' := MoveOn(hash, s, Ack(id));
    assert TaskIsSound(s, id);
    forall other | other in s'.tasks
      ensures TaskIsSound(s', other)
    {
      assert TaskIsSound(s, other);
    }
    forall k | k in s'.acked
      ensures IsCommitted(s', k)
    {
      assert k in s.acked ==> IsCommitted(s, k);
    }
  }

  lemma StartIsSound(hash: LockHash, s: System, id: TxId)
    requires DeliveryInv(s) && CanMove(hash, s, StartTx(id))
    ensures DeliveryInv(MoveOn(hash, s, StartTx(id)))
  {
    assert TaskIsSound(s, id);
    ValidationNormalizes(s.stream[s.tasks[id].entry]);
    DatabaseMoveIsSound(s, MoveOn(hash, s, StartTx(id)), id);
  }

  lemma RunIsSound(hash: LockHash, s: System, id: TxId)
    requires DeliveryInv(s) && CanMove(hash, s, RunTx(id))
    ensures DeliveryInv(MoveOn(hash, s, RunTx(id)))
  {
    assert TaskIsSound(s, id);
    RunEffect(hash, s.cluster, id);
    DatabaseMoveIsSound(s, MoveOn(hash, s, RunTx(id)), id);
  }

  lemma DropIsSound(hash: LockHash, s: System, id: TxId)
    requires DeliveryInv(s) && id in s.tasks
    ensures DeliveryInv(MoveOn(hash, s, Drop(id)))
  {
    DatabaseMoveIsSound(s, MoveOn(hash, s, Drop(id)), id);
  }

  lemma MoveIsSound(hash: LockHash, s: System, m: Move)
    requires SystemInv(hash, s)
    ensures DeliveryInv(MoveOn(hash, s, m))
  {
    if CanMove(hash, s, m) {
      match m
      case Publish(e) => PublishIsSound(s, e);
      case Deliver(_) => HandOutIsSound(s, m, hash);
      case Claim(_, _) => HandOutIsSound(s, m, hash);
      case StartTx(id) => StartIsSound(hash, s, id);
      case RunTx(id) => RunIsSound(hash, s, id);
      case CommitAnswered(id) => CommitIsSound(hash, s, MoveOn(hash, s, m), id);
      case CommitUnanswered(id) => CommitIsSound(hash, s, MoveOn(hash, s, m), id);
      case Ack(id) => AckIsSound(hash, s, id);
      case Drop(id) => DropIsSound(hash, s, id);
    }
  }

  lemma MoveKeepsInv(hash: LockHash, s: System, m: Move)
    requires SystemInv(hash, s)
    ensures SystemInv(hash, MoveOn(hash, s, m))
  {
    ClusterMoves(hash, s, m);
    MoveIsSound(hash, s, m);
  }

  /** No loss: in every reachable state each entry is unread, pending or acknowledged, exactly
      one of them, and an acknowledged entry's event id is committed. */
  lemma {:induction false} NothingIsLost(hash: LockHash, moves: seq<Move>)
    ensures var s := MoveAll(hash, moves);
            && SystemInv(hash, s)
            && (forall k: nat :: k < |s.stream| ==>
                  && (k >= s.cursor || k in s.pel || k in s.acked)
                  && (k >= s.cursor ==> k !in s.pel && k !in s.acked)
                  && !(k in s.pel && k in s.acked)
                  && (k in s.acked ==> s.stream[k].eventId in s.cluster.db.processed))
    decreases |moves|
  {
    if moves == [] {
      EmptyTablesInv();
      assert CommittedEvents([]) == [];
    } else {
      var n := |moves| - 1;
      NothingIsLost(hash, moves[..n]);
      MoveKeepsInv(hash, MoveAll(hash, moves[..n]), moves[n]);
    }
    var s := MoveAll(hash, moves);
    forall k: nat | k in s.acked
      ensures s.stream[k].eventId in s.cluster.db.processed
    {
      assert IsCommitted(s, k);
    }
  }

  // ----- the drained system -----

  predicate IsDrained(s: System) {
    s.cursor == |s.stream| && s.pel == {}
  }

  lemma {:induction false} AcceptedWereLogged(log: seq<Entry>)
    ensures forall id :: id in Accepted(CommittedEvents(log)) ==>
              exists k :: 0 <= k < |log| && ValidateEvent(log[k].event) == Valid(Accepted(CommittedEvents(log))[id])
    decreases |log|
  {
    if log != [] {
      var n := |log| - 1;
      AcceptedWereLogged(log[..n]);
      assert CommittedEvents(log)[..n] == CommittedEvents(log[..n]);
      var before, accepted := Accepted(CommittedEvents(log[..n])), Accepted(CommittedEvents(log));
      forall id | id in accepted
        ensures exists k :: 0 <= k < |log| && ValidateEvent(log[k].event) == Valid(accepted[id])
      {
        if id in before {
          var k :| 0 <= k < |log[..n]| && ValidateEvent(log[..n][k].event) == Valid(before[id]);
          assert ValidateEvent(log[k].event) == Valid(accepted[id]);
        } else {
          assert ValidateEvent(log[n].event) == Valid(accepted[id]);
        }
      }
    }
  }

  /** Every accepted event was published, in any state. */
  lemma AcceptedWerePublished(s: System)
    requires LogIsPublished(s)
    ensures var accepted := Accepted(CommittedEvents(s.cluster.log));
            forall id :: id in accepted ==> IsPublished(s.stream, accepted[id])
  {
    var log := s.cluster.log;
    var accepted := Accepted(CommittedEvents(log));
    AcceptedWereLogged(log);
    forall id | id in accepted
      ensures IsPublished(s.stream, accepted[id])
    {
      var k :| 0 <= k < |log| && ValidateEvent(log[k].event) == Valid(accepted[id]);
      var i :| 0 <= i < |s.stream| && ValidateEvent(s.stream[i]) == Valid(log[k].event);
      assert IsNormal(log[k].event) by {
        ValidationNormalizes(s.stream[i]);
      }
      assert ValidateEvent(s.stream[i]) == Valid(accepted[id]);
    }
  }

  lemma DrainedEntryIsCommitted(s: System, k: nat)
    requires EntriesAccounted(s) && AcksAreSound(s) && IsDrained(s) && k < |s.stream|
    ensures IsCommitted(s, k)
  {
    assert k in s.acked;
  }

  /** Exactly once, end to end: whenever nothing is unread or pending, the tables are those of a
      serial run that processes every published event id exactly once, in commit order. */
  lemma DrainedIsExactlyOnce(hash: LockHash, moves: seq<Move>)
    requires IsDrained(MoveAll(hash, moves))
    ensures var s := MoveAll(hash, moves);
            var once := FirstDeliveries(CommittedEvents(s.cluster.log));
            && s.cluster.db == Run(EMPTY_TABLES, once)
            && (forall i, j :: 0 <= i < j < |once| ==> once[i].eventId != once[j].eventId)
            && (forall i :: 0 <= i < |once| ==> IsPublished(s.stream, once[i]))
            && (forall k :: 0 <= k < |s.stream| ==> IsProcessedOnce(once, s.stream[k]))
  {
    NothingIsLost(hash, moves);
    SerialOnce(MoveAll(hash, moves));
    DrainedIsComplete(MoveAll(hash, moves));
  }

  ghost predicate IsProcessedOnce(once: seq<OrderEvent>, e: OrderEvent) {
    && ValidateEvent(e).Valid?
    && exists i :: 0 <= i < |once| && once[i].eventId == e.eventId
  }

  lemma FirstDeliveryIsAccepted(events: seq<OrderEvent>, i: nat)
    requires i < |FirstDeliveries(events)|
    ensures var e := FirstDeliveries(events)[i];
            e.eventId in Accepted(events) && Accepted(events)[e.eventId] == e
  {
    FirstDeliveriesAreAccepted(events);
  }

  lemma OnceIsPublished(s: System, i: nat)
    requires LogIsPublished(s)
    requires i < |FirstDeliveries(CommittedEvents(s.cluster.log))|
    ensures IsPublished(s.stream, FirstDeliveries(CommittedEvents(s.cluster.log))[i])
  {
    FirstDeliveryIsAccepted(CommittedEvents(s.cluster.log), i);
    AcceptedWerePublished(s);
  }

  lemma SerialOnce(s: System)
    requires LogIsPublished(s) && IsSerial(s.cluster.db, s.cluster.log)
    ensures var once := FirstDeliveries(CommittedEvents(s.cluster.log));
            && s.cluster.db == Run(EMPTY_TABLES, once)
            && (forall i, j :: 0 <= i < j < |once| ==> once[i].eventId != once[j].eventId)
            && (forall i :: 0 <= i < |once| ==> IsPublished(s.stream, once[i]))
  {
    var events := CommittedEvents(s.cluster.log);
    RedeliveryIsHarmless(events);
    FirstDeliveriesAreDistinct(events);
    forall i | 0 <= i < |FirstDeliveries(events)|
      ensures IsPublished(s.stream, FirstDeliveries(events)[i])
    {
      OnceIsPublished(s, i);
    }
  }

  lemma FirstDeliveriesAreDistinct(events: seq<OrderEvent>)
    ensures var once := FirstDeliveries(events);
            forall i, j :: 0 <= i < j < |once| ==> once[i].eventId != once[j].eventId
  {
    FirstDeliveriesAreAccepted(events);
  }

  lemma DrainedIsComplete(s: System)
    requires EntriesAccounted(s) && AcksAreSound(s) && IsDrained(s) && IsSerial(s.cluster.db, s.cluster.log)
    ensures var once := FirstDeliveries(CommittedEvents(s.cluster.log));
            forall k :: 0 <= k < |s.stream| ==> IsProcessedOnce(once, s.stream[k])
  {
    var events := CommittedEvents(s.cluster.log);
    RunIsFaithful(events);
    forall k | 0 <= k < |s.stream|
      ensures IsProcessedOnce(FirstDeliveries(events), s.stream[k])
    {
      DrainedEntryIsCommitted(s, k);
      var i := AcceptedIsFirstDelivery(events, s.stream[k].eventId);
    }
  }

  // ----- the drained system converges -----

  /** Publications under one event id agree. */
  ghost predicate IdsAreConsistent(stream: seq<OrderEvent>) {
    forall i, j :: 0 <= i < |stream| && 0 <= j < |stream| && stream[i].eventId == stream[j].eventId ==>
      ValidateEvent(stream[i]) == ValidateEvent(stream[j])
  }

  lemma {:induction false} AcceptedOfConsistent(stream: seq<OrderEvent>, k: nat)
    requires IdsAreConsistent(stream) && k < |stream| && ValidateEvent(stream[k]).Valid?
    ensures var accepted := Accepted(stream); var id := stream[k].eventId;
            id in accepted && ValidateEvent(stream[k]) == Valid(accepted[id])
    decreases |stream|
  {
    var n := |stream| - 1;
    ValidationNormalizes(stream[k]);
    if k < n {
      AcceptedOfConsistent(stream[..n], k);
    } else if stream[k].eventId in Accepted(stream[..n]) {
      AcceptedComesFromStream(stream[..n], stream[k].eventId);
      var j :| 0 <= j < n && stream[..n][j].eventId == stream[k].eventId
               && ValidateEvent(stream[..n][j]) == Valid(Accepted(stream[..n])[stream[k].eventId]);
      assert stream[j].eventId == stream[k].eventId;
    }
  }

  lemma {:induction false} AcceptedComesFromStream(stream: seq<OrderEvent>, id: EventId)
    requires id in Accepted(stream)
    ensures exists k :: 0 <= k < |stream| && stream[k].eventId == id && ValidateEvent(stream[k]) == Valid(Accepted(stream)[id])
    decreases |stream|
  {
    var n := |stream| - 1;
    if id in Accepted(stream[..n]) {
      AcceptedComesFromStream(stream[..n], id);
      var k :| 0 <= k < n && stream[..n][k].eventId == id && ValidateEvent(stream[..n][k]) == Valid(Accepted(stream)[id]);
      assert stream[k].eventId == id;
    } else {
      ValidationNormalizes(stream[n]);
      assert stream[n].eventId == id;
    }
  }

  lemma LoggedIsPublished(s: System, id: EventId)
    requires LogIsPublished(s) && IsSerial(s.cluster.db, s.cluster.log) && IdsAreConsistent(s.stream)
    requires id in Accepted(CommittedEvents(s.cluster.log))
    ensures id in Accepted(s.stream) && Accepted(s.stream)[id] == Accepted(CommittedEvents(s.cluster.log))[id]
  {
    var logged := Accepted(CommittedEvents(s.cluster.log));
    RunIsFaithful(CommittedEvents(s.cluster.log));
    AcceptedWerePublished(s);
    var k :| 0 <= k < |s.stream| && ValidateEvent(s.stream[k]) == Valid(logged[id]);
    ValidationNormalizes(s.stream[k]);
    assert Matches(s.cluster.db.processed[id], id, logged[id]);
    AcceptedOfConsistent(s.stream, k);
  }

  lemma PublishedIsLogged(s: System, id: EventId)
    requires EntriesAccounted(s) && AcksAreSound(s) && IsDrained(s) && IsSerial(s.cluster.db, s.cluster.log)
    requires id in Accepted(s.stream)
    ensures id in Accepted(CommittedEvents(s.cluster.log))
  {
    RunIsFaithful(CommittedEvents(s.cluster.log));
    AcceptedComesFromStream(s.stream, id);
    var k :| 0 <= k < |s.stream| && s.stream[k].eventId == id;
    DrainedEntryIsCommitted(s, k);
  }

  lemma DrainedAcceptsTheStream(s: System)
    requires DeliveryInv(s) && IsDrained(s) && IsSerial(s.cluster.db, s.cluster.log)
    requires IdsAreConsistent(s.stream)
    ensures Accepted(CommittedEvents(s.cluster.log)) == Accepted(s.stream)
  {
    var logged, published := Accepted(CommittedEvents(s.cluster.log)), Accepted(s.stream);
    forall id | id in logged
      ensures id in published && published[id] == logged[id]
    {
      LoggedIsPublished(s, id);
    }
    forall id | id in published
      ensures id in logged
    {
      PublishedIsLogged(s, id);
    }
  }

  /** Whatever was lost, repeated, reordered or interleaved on the way, a drained system shows
      the status that the published events of a convergent order determine. */
  lemma DrainedConverges(hash: LockHash, moves: seq<Move>, o: OrderId)
    requires var s := MoveAll(hash, moves);
             IsDrained(s) && IdsAreConsistent(s.stream) && IsConvergent(Accepted(s.stream), o)
    ensures var s := MoveAll(hash, moves);
            CurrentStatus(s.cluster.db, o) == FinalStatus(Accepted(s.stream), o)
  {
    var s := MoveAll(hash, moves);
    NothingIsLost(hash, moves);
    DrainedAcceptsTheStream(s);
    RunConverges(CommittedEvents(s.cluster.log), o);
  }
}
