/** A batch as the workers handle it is a sequence of protocol moves. */
module Refinement {
  import opened Domain
  import opened Schema
  import opened Processor
  import opened Invariants
  import opened Repository
  import opened Transactions
  import opened Concurrency
  import opened Delivery
  import opened Worker

  // ----- a transaction that is alone completes -----

  /** Twice the statements that are left, plus the reads before the next of them. */
  ghost function Rank(db: Tables, tx: Tx): nat
    requires tx.phase.Loading? || tx.phase.Running?
  {
    var left := |Remaining(View(db, tx), tx.event, tx.phase).stmts|;
    2 * left + if tx.phase.Loading? then 2 else if tx.phase.todo == [] && tx.phase.after.ThenReplay? then 1 else 0
  }

  lemma WriteReducesRank(db: Tables, tx: Tx)
    requires tx.phase.Running? && tx.phase.todo != []
    ensures Rank(db, AdvanceTx(db, tx)) < Rank(db, tx)
  {
    var todo, after := tx.phase.todo, tx.phase.after;
    ViewAfterWrite(db, tx.writes, todo[0]);
    StatementFollowsProgram(View(db, tx), tx.event, todo, after);
  }

  lemma LoadReducesRank(db: Tables, tx: Tx)
    requires tx.phase.Loading?
    ensures Rank(db, AdvanceTx(db, tx)) < Rank(db, tx)
  {
  }

  lemma ReplayReadReducesRank(db: Tables, tx: Tx)
    requires tx.phase.Running? && tx.phase.todo == [] && tx.phase.after.ThenReplay?
    ensures Rank(db, AdvanceTx(db, tx)) < Rank(db, tx)
  {
    ReplayFollowsProgram(View(db, tx), tx.event, tx.phase.after);
  }

  lemma AdvanceReducesRank(db: Tables, tx: Tx)
    requires (tx.phase.Loading? || tx.phase.Running?) && !IsDone(tx)
    ensures Rank(db, AdvanceTx(db, tx)) < Rank(db, tx)
  {
    if tx.phase.Loading? {
      LoadReducesRank(db, tx);
    } else if tx.phase.todo != [] {
      WriteReducesRank(db, tx);
    } else {
      ReplayReadReducesRank(db, tx);
    }
  }

  ghost predicate IsAlone(c: Cluster, id: TxId) {
    c.txs.Keys == {id}
  }

  ghost function RunTimes(hash: LockHash, c: Cluster, id: TxId, n: nat): Cluster
    decreases n
  {
    if n == 0 then c else RunTimes(hash, RunOnce(hash, c, id), id, n - 1)
  }

  /** How a cluster looks whose only transaction is ready to commit. */
  ghost predicate IsReady(c: Cluster, c': Cluster, id: TxId)
    requires id in c.txs
  {
    && c'.db == c.db && c'.log == c.log && IsAlone(c', id) && IsDone(c'.txs[id])
    && c'.txs[id].event == c.txs[id].event
  }

  lemma AloneAdvances(hash: LockHash, c: Cluster, id: TxId)
    requires IsAlone(c, id) && (c.txs[id].phase.Loading? || c.txs[id].phase.Running?) && !IsDone(c.txs[id])
    ensures RunOnce(hash, c, id) == c.(txs := c.txs[id := AdvanceTx(c.db, c.txs[id])])
    ensures IsAlone(RunOnce(hash, c, id), id)
  {
  }

  lemma AdvanceKeepsEvent(db: Tables, tx: Tx)
    requires (tx.phase.Loading? || tx.phase.Running?) && !IsDone(tx)
    ensures AdvanceTx(db, tx).event == tx.event
    ensures AdvanceTx(db, tx).phase.Loading? || AdvanceTx(db, tx).phase.Running?
  {
  }

  lemma ReadyAfterOneMore(c: Cluster, c1: Cluster, c2: Cluster, id: TxId)
    requires id in c.txs && id in c1.txs && c1.db == c.db && c1.log == c.log && c1.txs[id].event == c.txs[id].event
    requires IsReady(c1, c2, id)
    ensures IsReady(c, c2, id)
  {
  }

  lemma {:induction false} AdvancesToDone(hash: LockHash, c: Cluster, id: TxId) returns (n: nat)
    requires IsAlone(c, id) && (c.txs[id].phase.Loading? || c.txs[id].phase.Running?)
    ensures IsReady(c, RunTimes(hash, c, id, n), id)
    decreases Rank(c.db, c.txs[id])
  {
    if IsDone(c.txs[id]) {
      n := 0;
    } else {
      AdvanceReducesRank(c.db, c.txs[id]);
      AloneAdvances(hash, c, id);
      AdvanceKeepsEvent(c.db, c.txs[id]);
      var rest := AdvancesToDone(hash, RunOnce(hash, c, id), id);
      ReadyAfterOneMore(c, RunOnce(hash, c, id), RunTimes(hash, RunOnce(hash, c, id), id, rest), id);
      n := rest + 1;
    }
  }

  lemma AloneLocksAndInserts(hash: LockHash, c: Cluster, id: TxId)
    requires IsAlone(c, id) && c.txs[id].phase == Waiting
    ensures var c' := RunOnce(hash, RunOnce(hash, c, id), id);
            && c'.db == c.db && c'.log == c.log && IsAlone(c', id)
            && (c'.txs[id].phase.Loading? || c'.txs[id].phase.Running?) && c'.txs[id].event == c.txs[id].event
  {
    var c1 := RunOnce(hash, c, id);
    assert IsEnabled(hash, c, AcquireLock(id));
    assert c1 == c.(txs := c.txs[id := c.txs[id].(phase := Locked)]);
    assert IsEnabled(hash, c1, InsertEvent(id));
  }

  /** A transaction without competitors gets both locks, executes all statements, and is ready to commit. */
  lemma LoneTransactionCompletes(hash: LockHash, c: Cluster, id: TxId) returns (n: nat)
    requires IsAlone(c, id) && c.txs[id].phase == Waiting
    ensures IsReady(c, RunTimes(hash, c, id, n), id)
  {
    AloneLocksAndInserts(hash, c, id);
    n := AdvancesToDone(hash, RunOnce(hash, RunOnce(hash, c, id), id), id);
    n := n + 2;
  }

  // ----- moves from a state -----

  ghost function MoveFrom(hash: LockHash, s: System, moves: seq<Move>): System
    decreases |moves|
  {
    if moves == [] then s else MoveOn(hash, MoveFrom(hash, s, moves[..|moves| - 1]), moves[|moves| - 1])
  }

  lemma MoveFromSnoc(hash: LockHash, s: System, moves: seq<Move>, m: Move)
    ensures MoveFrom(hash, s, moves + [m]) == MoveOn(hash, MoveFrom(hash, s, moves), m)
  {
    assert (moves + [m])[..|moves|] == moves;
  }

  lemma {:induction false} MoveFromConcat(hash: LockHash, s: System, a: seq<Move>, b: seq<Move>)
    ensures MoveFrom(hash, s, a + b) == MoveFrom(hash, MoveFrom(hash, s, a), b)
    decreases |b|
  {
    if b == [] {
      assert a + b == a;
    } else {
      var n := |b| - 1;
      assert (a + b)[..|a + b| - 1] == a + b[..n];
      MoveFromConcat(hash, s, a, b[..n]);
    }
  }

  lemma {:induction false} MoveAllIsMoveFrom(hash: LockHash, moves: seq<Move>)
    ensures MoveAll(hash, moves) == MoveFrom(hash, IDLE_SYSTEM, moves)
    decreases |moves|
  {
    if moves != [] {
      MoveAllIsMoveFrom(hash, moves[..|moves| - 1]);
    }
  }

  lemma OneMove(hash: LockHash, s: System, m: Move)
    ensures MoveFrom(hash, s, [m]) == MoveOn(hash, s, m)
  {
    assert [m][..0] == [];
  }

  lemma {:induction false} MoveFromKeepsClusterInv(hash: LockHash, s: System, moves: seq<Move>)
    requires ClusterInv(hash, s.cluster)
    ensures ClusterInv(hash, MoveFrom(hash, s, moves).cluster)
    decreases |moves|
  {
    if moves != [] {
      MoveFromKeepsClusterInv(hash, s, moves[..|moves| - 1]);
      ClusterMoves(hash, MoveFrom(hash, s, moves[..|moves| - 1]), moves[|moves| - 1]);
    }
  }

  function Repeat(m: Move, n: nat): seq<Move> {
    seq(n, _ => m)
  }

  /** Running a transaction n times changes nothing but the cluster. */
  lemma {:induction false} RunMoves(hash: LockHash, s: System, id: TxId, n: nat)
    requires IsAt(s, id, Processing)
    ensures MoveFrom(hash, s, Repeat(RunTx(id), n)) == s.(cluster := RunTimes(hash, s.cluster, id, n))
    decreases n
  {
    if n > 0 {
      var next := s.(cluster := RunOnce(hash, s.cluster, id));
      assert Repeat(RunTx(id), n) == [RunTx(id)] + Repeat(RunTx(id), n - 1);
      OneMove(hash, s, RunTx(id));
      MoveFromConcat(hash, s, [RunTx(id)], Repeat(RunTx(id), n - 1));
      RunMoves(hash, next, id, n - 1);
    }
  }

  // ----- one message -----

  /** What the workers change is what the protocol has. */
  ghost predicate Agrees(w: State, s: System) {
    w.tables == s.cluster.db && w.pel == s.pel && w.acked == s.acked
  }

  /** No transaction is in progress, and the task is about this message, not started. */
  ghost predicate IsHanded(hash: LockHash, s: System, m: Message, id: TxId) {
    && ClusterInv(hash, s.cluster) && s.cluster.txs == map[]
    && id in s.tasks && s.tasks[id] == Task(m.redisId, Held)
    && m.redisId < |s.stream| && m.event == s.stream[m.redisId]
  }

  /** What stays: the stream, the cursor, and every other task. */
  ghost predicate OnlyEnds(hash: LockHash, s: System, s': System, id: TxId) {
    && ClusterInv(hash, s'.cluster) && s'.cluster.txs == map[]
    && s'.stream == s.stream && s'.cursor == s.cursor && s'.tasks == s.tasks - {id}
  }

  lemma FailureIsADrop(hash: LockHash, role: Role, w: State, s: System, m: Message, fate: Fate, id: TxId)
    requires Agrees(w, s) && IsHanded(hash, s, m, id) && !Succeeds(m, fate)
    ensures var s' := MoveOn(hash, s, Drop(id)); Agrees(Handled(role, w, m, fate), s') && OnlyEnds(hash, s, s', id)
  {
    DropBeforeStart(hash, s, id);
    assert Handled(role, w, m, fate) == FailedState(w);
  }

  lemma DropBeforeStart(hash: LockHash, s: System, id: TxId)
    requires id in s.tasks && id !in s.cluster.txs
    ensures MoveOn(hash, s, Drop(id)) == s.(tasks := s.tasks - {id})
  {
  }

  lemma StartsAlone(hash: LockHash, s: System, m: Message, id: TxId)
    requires IsHanded(hash, s, m, id) && ValidateEvent(m.event).Valid?
    ensures var s' := MoveOn(hash, s, StartTx(id));
            && s' == s.(cluster := s'.cluster, tasks := s.tasks[id := Task(m.redisId, Processing)])
            && s'.cluster.db == s.cluster.db && IsAlone(s'.cluster, id)
            && s'.cluster.txs[id] == Tx(ValidateEvent(m.event).event, Waiting, [])
  {
    ValidEventsCanStart(hash, s, id);
  }

  /** Starting and running the transaction of a message until it is ready to commit. */
  lemma StartedAndRun(hash: LockHash, s: System, m: Message, id: TxId) returns (moves: seq<Move>)
    requires IsHanded(hash, s, m, id) && ValidateEvent(m.event).Valid?
    ensures var s' := MoveFrom(hash, s, moves);
            && s' == s.(cluster := s'.cluster, tasks := s.tasks[id := Task(m.redisId, Processing)])
            && s'.cluster.db == s.cluster.db && IsAlone(s'.cluster, id) && IsDone(s'.cluster.txs[id])
            && s'.cluster.txs[id].event == ValidateEvent(m.event).event
  {
    StartsAlone(hash, s, m, id);
    var started := MoveOn(hash, s, StartTx(id));
    var n := LoneTransactionCompletes(hash, started.cluster, id);
    moves := [StartTx(id)] + Repeat(RunTx(id), n);
    OneMove(hash, s, StartTx(id));
    MoveFromConcat(hash, s, [StartTx(id)], Repeat(RunTx(id), n));
    RunMoves(hash, started, id, n);
  }

  lemma LoneCommit(hash: LockHash, c: Cluster, id: TxId)
    requires ClusterInv(hash, c) && IsAlone(c, id) && IsDone(c.txs[id])
    ensures var c' := Perform(hash, c, Commit(id));
            IsEnabled(hash, c, Commit(id)) && c'.db == Step(c.db, c.txs[id].event).tables && c'.txs == map[]
  {
    DoneIsOnTrack(c.db, c.txs, id);
    CommitPerformsStep(hash, c, id);
  }

  lemma CommitMove(hash: LockHash, s: System, id: TxId)
    requires IsAt(s, id, Processing) && IsEnabled(hash, s.cluster, Commit(id))
    ensures MoveOn(hash, s, CommitAnswered(id))
            == s.(cluster := Perform(hash, s.cluster, Commit(id)), tasks := s.tasks[id := s.tasks[id].(stage := Succeeded)])
  {
  }

  lemma CommitIsProcessing(hash: LockHash, s: System, id: TxId)
    requires ClusterInv(hash, s.cluster) && IsAt(s, id, Processing)
    requires IsAlone(s.cluster, id) && IsDone(s.cluster.txs[id])
    ensures var s', e := MoveOn(hash, s, CommitAnswered(id)), s.cluster.txs[id].event;
            && s'.cluster.db == Step(s.cluster.db, e).tables && s'.cluster.txs == map[]
            && s' == s.(cluster := s'.cluster, tasks := s.tasks[id := s.tasks[id].(stage := Succeeded)])
  {
    LoneCommit(hash, s.cluster, id);
    CommitMove(hash, s, id);
  }

  /** Whether the acknowledgement reaches the group. */
  predicate AckArrives(role: Role, w: State, ack: AckFate) {
    && ack != NotDelivered
    && !(role.PoolWorker? && role.simulation.Some? && SkipsAck(role.simulation.value, w.successes + 1))
  }

  function LastMove(role: Role, w: State, ack: AckFate, id: TxId): Move {
    if AckArrives(role, w, ack) then Ack(id) else Drop(id)
  }

  lemma ConfirmationIsAMove(hash: LockHash, role: Role, w: State, s: System, redisId: nat, ack: AckFate, id: TxId)
    requires Agrees(w, s) && s.cluster.txs == map[] && id in s.tasks && s.tasks[id] == Task(redisId, Succeeded)
    ensures var s' := MoveOn(hash, s, LastMove(role, w, ack, id));
            && Agrees(ConfirmedState(role, w, redisId, ack), s')
            && s'.cluster == s.cluster && s'.stream == s.stream && s'.cursor == s.cursor && s'.tasks == s.tasks - {id}
  {
  }

  lemma SuccessIsMoves(hash: LockHash, role: Role, w: State, s: System, m: Message, fate: Fate, id: TxId)
    returns (moves: seq<Move>)
    requires Agrees(w, s) && IsHanded(hash, s, m, id) && Succeeds(m, fate)
    ensures var s' := MoveFrom(hash, s, moves); Agrees(Handled(role, w, m, fate), s') && OnlyEnds(hash, s, s', id)
  {
    var e := ValidateEvent(m.event).event;
    var run := StartedAndRun(hash, s, m, id);
    var ready := MoveFrom(hash, s, run);
    MoveFromKeepsClusterInv(hash, s, run);
    CommitIsProcessing(hash, ready, id);
    var committed := MoveOn(hash, ready, CommitAnswered(id));
    var p := ProcessedState(w, e);
    var last := LastMove(role, p, fate.ack, id);
    ConfirmationIsAMove(hash, role, p, committed, m.redisId, fate.ack, id);
    moves := run + [CommitAnswered(id)] + [last];
    MoveFromSnoc(hash, s, run, CommitAnswered(id));
    MoveFromSnoc(hash, s, run + [CommitAnswered(id)], last);
    MoveFromKeepsClusterInv(hash, s, moves);
  }

  lemma MessageIsMoves(hash: LockHash, role: Role, w: State, s: System, m: Message, fate: Fate, id: TxId)
    returns (moves: seq<Move>)
    requires Agrees(w, s) && IsHanded(hash, s, m, id)
    ensures var s' := MoveFrom(hash, s, moves); Agrees(Handled(role, w, m, fate), s') && OnlyEnds(hash, s, s', id)
  {
    if Succeeds(m, fate) {
      moves := SuccessIsMoves(hash, role, w, s, m, fate, id);
    } else {
      FailureIsADrop(hash, role, w, s, m, fate, id);
      moves := [Drop(id)];
      OneMove(hash, s, Drop(id));
    }
  }

  // ----- a batch -----

  /** Each message of the batch has its own task, not started; no transaction is in progress. */
  ghost predicate IsBatch(hash: LockHash, s: System, messages: seq<Message>, ids: seq<TxId>) {
    && |ids| == |messages|
    && ClusterInv(hash, s.cluster) && s.cluster.txs == map[]
    && (forall i :: 0 <= i < |messages| ==> IsHanded(hash, s, messages[i], ids[i]))
    && (forall i, j :: 0 <= i < j < |ids| ==> ids[i] != ids[j])
  }

  /** After the first `n` messages of the batch, the others are still handed out. */
  ghost predicate BatchGoesOn(hash: LockHash, s: System, s': System, messages: seq<Message>, ids: seq<TxId>, n: nat)
    requires n <= |messages| == |ids|
  {
    && ClusterInv(hash, s'.cluster) && s'.cluster.txs == map[]
    && s'.stream == s.stream && s'.cursor == s.cursor
    && (forall i :: n <= i < |ids| ==> ids[i] in s'.tasks && s'.tasks[ids[i]] == Task(messages[i].redisId, Held))
  }

  lemma NextOfBatch(hash: LockHash, s: System, s1: System, s2: System, messages: seq<Message>, ids: seq<TxId>, n: nat)
    requires IsBatch(hash, s, messages, ids) && n < |messages|
    requires BatchGoesOn(hash, s, s1, messages, ids, n) && OnlyEnds(hash, s1, s2, ids[n])
    ensures BatchGoesOn(hash, s, s2, messages, ids, n + 1)
  {
  }

  lemma NextIsHanded(hash: LockHash, s: System, s1: System, messages: seq<Message>, ids: seq<TxId>, n: nat)
    requires IsBatch(hash, s, messages, ids) && n < |messages| && BatchGoesOn(hash, s, s1, messages, ids, n)
    ensures IsHanded(hash, s1, messages[n], ids[n])
  {
    assert IsHanded(hash, s, messages[n], ids[n]);
  }

  lemma {:induction false} PartOfBatchIsMoves(hash: LockHash, role: Role, w: State, s: System,
                                              messages: seq<Message>, fates: seq<Fate>, ids: seq<TxId>, n: nat)
    returns (moves: seq<Move>)
    requires |fates| == |messages| && n <= |messages|
    requires Agrees(w, s) && IsBatch(hash, s, messages, ids)
    ensures Agrees(HandledAll(role, w, messages[..n], fates[..n]), MoveFrom(hash, s, moves))
    ensures BatchGoesOn(hash, s, MoveFrom(hash, s, moves), messages, ids, n)
    decreases n
  {
    if n == 0 {
      moves := [];
      BatchBegins(hash, s, messages, ids);
    } else {
      var before := PartOfBatchIsMoves(hash, role, w, s, messages, fates, ids, n - 1);
      var s1 := MoveFrom(hash, s, before);
      NextIsHanded(hash, s, s1, messages, ids, n - 1);
      var w1 := HandledAll(role, w, messages[..n - 1], fates[..n - 1]);
      var next := MessageIsMoves(hash, role, w1, s1, messages[n - 1], fates[n - 1], ids[n - 1]);
      moves := before + next;
      MoveFromConcat(hash, s, before, next);
      HandledOneMore(role, w, messages, fates, n - 1);
      NextOfBatch(hash, s, s1, MoveFrom(hash, s, moves), messages, ids, n - 1);
    }
  }

  lemma BatchBegins(hash: LockHash, s: System, messages: seq<Message>, ids: seq<TxId>)
    requires IsBatch(hash, s, messages, ids)
    ensures BatchGoesOn(hash, s, s, messages, ids, 0)
  {
    forall i | 0 <= i < |ids|
      ensures ids[i] in s.tasks && s.tasks[ids[i]] == Task(messages[i].redisId, Held)
    {
      assert IsHanded(hash, s, messages[i], ids[i]);
    }
  }

  /** A worker or reclaimer that handles a batch in a reachable state, with no other transaction in
      progress, makes protocol moves: the state it leaves behind is reachable, too. */
  lemma BatchIsMoves(hash: LockHash, earlier: seq<Move>, role: Role, w: State,
                     messages: seq<Message>, fates: seq<Fate>, ids: seq<TxId>) returns (moves: seq<Move>)
    requires |fates| == |messages|
    requires Agrees(w, MoveAll(hash, earlier)) && IsBatch(hash, MoveAll(hash, earlier), messages, ids)
    ensures Agrees(HandledAll(role, w, messages, fates), MoveAll(hash, earlier + moves))
  {
    moves := PartOfBatchIsMoves(hash, role, w, MoveAll(hash, earlier), messages, fates, ids, |messages|);
    assert messages[..|messages|] == messages && fates[..|fates|] == fates;
    MoveAllIsMoveFrom(hash, earlier);
    MoveAllIsMoveFrom(hash, earlier + moves);
    MoveFromConcat(hash, IDLE_SYSTEM, earlier, moves);
  }
}
