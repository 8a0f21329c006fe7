/** How much transactions of different orders really overlap. */
module Interleaving {
  import opened Domain
  import opened Schema
  import opened Processor
  import opened Invariants
  import opened Steps
  import opened Transactions
  import opened Concurrency

  // ----- who waits for whom -----

  /** A transaction waits for the lock exactly while another one holds a lock with the same hash. */
  lemma LockWaitsForSameHash(hash: LockHash, s: Cluster, id: TxId)
    requires id in s.txs && s.txs[id].phase == Waiting
    ensures var s', e := Perform(hash, s, AcquireLock(id)), s.txs[id].event;
            if exists other :: other in s.txs && s.txs[other].phase != Waiting
                               && hash(s.txs[other].event.orderId) == hash(e.orderId)
            then s' == s
            else s' == s.(txs := s.txs[id := Tx(e, Locked, s.txs[id].writes)])
  {
  }

  /** Its insert waits exactly while another one has inserted the same event id and is not over. */
  lemma InsertWaitsForSameEvent(hash: LockHash, s: Cluster, id: TxId)
    requires id in s.txs && s.txs[id].phase == Locked && s.txs[id].writes == []
    ensures var s', e := Perform(hash, s, InsertEvent(id)), s.txs[id].event;
            if exists other :: other in s.txs && s.txs[other].writes != [] && s.txs[other].event.eventId == e.eventId
            then s' == s
            else if e.eventId in s.db.processed
            then s' == s.(txs := s.txs[id := Tx(e, Running([], ThenCommit(DuplicateResult(e))), [])])
            else s' == s.(txs := s.txs[id := Tx(e, Loading, [Insertion(e)])])
  {
  }

  /** In no reachable state two transactions hold locks of one hash, or have both inserted one id. */
  lemma HoldersDiffer(hash: LockHash, actions: seq<Action>, i: TxId, j: TxId)
    requires var txs := PerformAll(hash, actions).txs; i in txs && j in txs && i != j
    ensures var txs := PerformAll(hash, actions).txs;
            && (txs[i].phase != Waiting && txs[j].phase != Waiting ==>
                  hash(txs[i].event.orderId) != hash(txs[j].event.orderId))
            && (txs[i].writes != [] && txs[j].writes != [] ==> txs[i].event.eventId != txs[j].event.eventId)
  {
    EveryInterleavingIsSerial(hash, actions);
  }

  // ----- transactions of different orders overlap -----

  /** No other transaction in progress has the order's hash or the event id. */
  ghost predicate IsUnrivalled(hash: LockHash, txs: map<TxId, Tx>, e: OrderEvent) {
    forall other :: other in txs ==>
      hash(txs[other].event.orderId) != hash(e.orderId) && txs[other].event.eventId != e.eventId
  }

  lemma StartsAndInserts(hash: LockHash, s: Cluster, id: TxId, e: OrderEvent)
    requires id !in s.txs && IsNormal(e) && e.eventId !in s.db.processed && IsUnrivalled(hash, s.txs, e)
    ensures var s1 := Perform(hash, s, Begin(id, e));
            var s2 := Perform(hash, s1, AcquireLock(id));
            Perform(hash, s2, InsertEvent(id)) == s.(txs := s.txs[id := Tx(e, Loading, [Insertion(e)])])
  {
    var s1 := Perform(hash, s, Begin(id, e));
    assert s1.txs == s.txs[id := Tx(e, Waiting, [])];
    var s2 := Perform(hash, s1, AcquireLock(id));
    assert s2.txs == s.txs[id := Tx(e, Locked, [])];
    var s3 := Perform(hash, s2, InsertEvent(id));
    assert s3.txs == s.txs[id := Tx(e, Loading, [Insertion(e)])];
  }

  /** Orders and events by which no transaction waits for another one. */
  ghost predicate AreIndependent(hash: LockHash, events: seq<OrderEvent>) {
    && (forall i :: 0 <= i < |events| ==> IsNormal(events[i]))
    && (forall i, j :: 0 <= i < j < |events| ==>
          hash(events[i].orderId) != hash(events[j].orderId) && events[i].eventId != events[j].eventId)
  }

  /** Transaction `i` is about event `i` and past its insert, for all of the events at once. */
  ghost predicate AllInserted(s: Cluster, events: seq<OrderEvent>) {
    && s.db == EMPTY_TABLES
    && (forall id: TxId :: id in s.txs <==> id < |events|)
    && (forall i :: 0 <= i < |events| ==> s.txs[i] == Tx(events[i], Loading, [Insertion(events[i])]))
  }

  /** Any number of transactions whose orders have different hashes, and whose event ids differ, can
      be in progress past their insert at the same time: none waits for another one's commit. */
  lemma {:induction false} IndependentTransactionsOverlap(hash: LockHash, events: seq<OrderEvent>)
    returns (actions: seq<Action>)
    requires AreIndependent(hash, events)
    ensures AllInserted(PerformAll(hash, actions), events)
    decreases |events|
  {
    if events == [] {
      actions := [];
      assert PerformAll(hash, []) == IDLE_CLUSTER;
    } else {
      var n := |events| - 1;
      var before := IndependentTransactionsOverlap(hash, events[..n]);
      LastIsUnrivalled(hash, PerformAll(hash, before), events);
      actions := OneMoreStarts(hash, before, n, events[n]);
      OneMoreInserted(PerformAll(hash, before), events);
    }
  }

  lemma LastIsUnrivalled(hash: LockHash, s: Cluster, events: seq<OrderEvent>)
    requires AreIndependent(hash, events) && events != [] && AllInserted(s, events[..|events| - 1])
    ensures IsUnrivalled(hash, s.txs, events[|events| - 1])
  {
  }

  lemma OneMoreStarts(hash: LockHash, before: seq<Action>, id: TxId, e: OrderEvent) returns (actions: seq<Action>)
    requires var s := PerformAll(hash, before);
             id !in s.txs && IsNormal(e) && e.eventId !in s.db.processed && IsUnrivalled(hash, s.txs, e)
    ensures var s := PerformAll(hash, before);
            PerformAll(hash, actions) == s.(txs := s.txs[id := Tx(e, Loading, [Insertion(e)])])
  {
    StartsAndInserts(hash, PerformAll(hash, before), id, e);
    PerformMore(hash, before, Begin(id, e));
    PerformMore(hash, before + [Begin(id, e)], AcquireLock(id));
    PerformMore(hash, before + [Begin(id, e)] + [AcquireLock(id)], InsertEvent(id));
    actions := before + [Begin(id, e)] + [AcquireLock(id)] + [InsertEvent(id)];
  }

  lemma OneMoreInserted(s: Cluster, events: seq<OrderEvent>)
    requires events != [] && AllInserted(s, events[..|events| - 1])
    ensures var n := |events| - 1;
            AllInserted(s.(txs := s.txs[n := Tx(events[n], Loading, [Insertion(events[n])])]), events)
  {
    var n := |events| - 1;
    var txs := s.txs[n := Tx(events[n], Loading, [Insertion(events[n])])];
    forall id: TxId
      ensures id in txs <==> id < |events|
    {
      assert id in s.txs <==> id < n;
    }
    forall i | 0 <= i < n
      ensures txs[i] == Tx(events[i], Loading, [Insertion(events[i])])
    {
      assert events[..n][i] == events[i];
    }
  }

  lemma PerformMore(hash: LockHash, actions: seq<Action>, a: Action)
    ensures PerformAll(hash, actions + [a]) == Perform(hash, PerformAll(hash, actions), a)
  {
    assert (actions + [a])[..|actions|] == actions;
  }
}
