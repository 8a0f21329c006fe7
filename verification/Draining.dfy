/** From every reachable state the system can be drained, unless an invalid event blocks it. */
module Draining {
  import opened Domain
  import opened Schema
  import opened Processor
  import opened Invariants
  import opened Repository
  import opened Concurrency
  import opened Delivery
  import opened Worker
  import opened Refinement

  ghost predicate AllValid(stream: seq<OrderEvent>) {
    forall k :: 0 <= k < |stream| ==> ValidateEvent(stream[k]).Valid?
  }

  lemma {:induction false} MovesKeepInv(hash: LockHash, s: System, moves: seq<Move>)
    requires SystemInv(hash, s)
    ensures SystemInv(hash, MoveFrom(hash, s, moves))
    decreases |moves|
  {
    if moves != [] {
      MovesKeepInv(hash, s, moves[..|moves| - 1]);
      MoveKeepsInv(hash, MoveFrom(hash, s, moves[..|moves| - 1]), moves[|moves| - 1]);
    }
  }

  lemma MoveThenMore(hash: LockHash, s: System, m: Move, rest: seq<Move>)
    ensures MoveFrom(hash, s, [m] + rest) == MoveFrom(hash, MoveOn(hash, s, m), rest)
  {
    OneMove(hash, s, m);
    MoveFromConcat(hash, s, [m], rest);
  }

  // ----- every consumer gives up -----

  /** No consumer is at work; nothing else has changed. */
  ghost predicate IsQuiet(s: System, s': System) {
    && s'.tasks == map[] && s'.stream == s.stream && s'.cursor == s.cursor
    && s'.pel == s.pel && s'.acked == s.acked
  }

  lemma {:induction false} TasksCanEnd(hash: LockHash, s: System) returns (moves: seq<Move>)
    ensures IsQuiet(s, MoveFrom(hash, s, moves))
    decreases |s.tasks.Keys|
  {
    moves := [];
    if s.tasks != map[] {
      var id :| id in s.tasks;
      var s1 := MoveOn(hash, s, Drop(id));
      DropForgets(hash, s, id);
      assert s1.tasks.Keys == s.tasks.Keys - {id};
      var rest := TasksCanEnd(hash, s1);
      MoveThenMore(hash, s, Drop(id), rest);
      moves := [Drop(id)] + rest;
    }
  }

  // ----- every entry is delivered -----

  lemma {:induction false} EntriesCanBeDelivered(hash: LockHash, s: System) returns (moves: seq<Move>)
    requires s.cursor <= |s.stream| && s.tasks == map[]
    ensures var s' := MoveFrom(hash, s, moves); s'.cursor == |s'.stream| && s'.stream == s.stream && s'.tasks == map[]
    decreases |s.stream| - s.cursor
  {
    moves := [];
    if s.cursor < |s.stream| {
      var s1 := MoveOn(hash, s, Deliver(None));
      EntriesAreHandedOut(hash, s, None, 0);
      assert s1.tasks == map[];
      var rest := EntriesCanBeDelivered(hash, s1);
      MoveThenMore(hash, s, Deliver(None), rest);
      moves := [Deliver(None)] + rest;
    }
  }

  // ----- every pending entry is claimed, processed and acknowledged -----

  lemma ClaimHands(hash: LockHash, s: System, k: nat)
    requires SystemInv(hash, s) && s.tasks == map[] && k in s.pel
    ensures var s1 := MoveOn(hash, s, Claim(k, Some(0)));
            && s1 == s.(tasks := map[0 := Task(k, Held)]) && k < |s.stream|
            && IsHanded(hash, s1, Message(k, s.stream[k]), 0)
  {
    EntriesAreHandedOut(hash, s, Some(0), k);
    assert MoveOn(hash, s, Claim(k, Some(0))).tasks == map[0 := Task(k, Held)];
    assert s.cluster.txs == map[];
  }

  /** A recovery that meets no failure takes one entry off the pending list. */
  lemma EntryCanBeSettled(hash: LockHash, s: System, k: nat) returns (moves: seq<Move>)
    requires SystemInv(hash, s) && s.tasks == map[] && k in s.pel && AllValid(s.stream)
    ensures var s' := MoveFrom(hash, s, moves);
            && s'.pel == s.pel - {k} && s'.stream == s.stream && s'.cursor == s.cursor && s'.tasks == map[]
  {
    ClaimHands(hash, s, k);
    var s1 := MoveOn(hash, s, Claim(k, Some(0)));
    var w := State(s.cluster.db, None, 0, s.pel, s.acked);
    var m, fate := Message(k, s.stream[k]), Fate(Commits, Acknowledged);
    MessageAcknowledges(Recovery, w, m, fate);
    var rest := MessageIsMoves(hash, Recovery, w, s1, m, fate, 0);
    MoveThenMore(hash, s, Claim(k, Some(0)), rest);
    moves := [Claim(k, Some(0))] + rest;
  }

  lemma {:induction false} PendingCanBeSettled(hash: LockHash, s: System) returns (moves: seq<Move>)
    requires SystemInv(hash, s) && s.tasks == map[] && AllValid(s.stream)
    ensures var s' := MoveFrom(hash, s, moves); s'.pel == {} && s'.stream == s.stream && s'.cursor == s.cursor
    decreases |s.pel|
  {
    moves := [];
    if s.pel != {} {
      var k :| k in s.pel;
      var first := EntryCanBeSettled(hash, s, k);
      var s1 := MoveFrom(hash, s, first);
      MovesKeepInv(hash, s, first);
      var rest := PendingCanBeSettled(hash, s1);
      MoveFromConcat(hash, s, first, rest);
      moves := first + rest;
    }
  }

  // ----- draining -----

  /** Whatever was lost, crashed or left pending: as long as the stream holds only valid events,
      some moves without another publication lead to a drained state. */
  lemma EveryStateCanDrain(hash: LockHash, s: System) returns (moves: seq<Move>)
    requires SystemInv(hash, s) && AllValid(s.stream)
    ensures IsDrained(MoveFrom(hash, s, moves)) && MoveFrom(hash, s, moves).stream == s.stream
  {
    var a := TasksCanEnd(hash, s);
    var s1 := MoveFrom(hash, s, a);
    MovesKeepInv(hash, s, a);
    var b := EntriesCanBeDelivered(hash, s1);
    var s2 := MoveFrom(hash, s1, b);
    MovesKeepInv(hash, s1, b);
    var c := PendingCanBeSettled(hash, s2);
    MoveFromConcat(hash, s, a, b);
    MoveFromConcat(hash, s, a + b, c);
    moves := a + b + c;
  }

  lemma MoveGrowsStream(hash: LockHash, s: System, m: Move)
    ensures s.stream <= MoveOn(hash, s, m).stream
  {
  }

  lemma {:induction false} StreamGrows(hash: LockHash, s: System, moves: seq<Move>)
    ensures s.stream <= MoveFrom(hash, s, moves).stream
    decreases |moves|
  {
    if moves != [] {
      StreamGrows(hash, s, moves[..|moves| - 1]);
      MoveGrowsStream(hash, MoveFrom(hash, s, moves[..|moves| - 1]), moves[|moves| - 1]);
    }
  }

  lemma MovesContinue(hash: LockHash, earlier: seq<Move>, moves: seq<Move>)
    ensures MoveAll(hash, earlier + moves) == MoveFrom(hash, MoveAll(hash, earlier), moves)
  {
    MoveAllIsMoveFrom(hash, earlier);
    MoveAllIsMoveFrom(hash, earlier + moves);
    MoveFromConcat(hash, IDLE_SYSTEM, earlier, moves);
  }

  ghost predicate CanDrain(hash: LockHash, earlier: seq<Move>) {
    exists moves :: IsDrained(MoveAll(hash, earlier + moves))
  }

  /** A reachable state can be drained if and only if its stream holds only valid events. */
  lemma DrainsExactlyWhenValid(hash: LockHash, earlier: seq<Move>)
    ensures CanDrain(hash, earlier) <==> AllValid(MoveAll(hash, earlier).stream)
  {
    var s := MoveAll(hash, earlier);
    if moves :| IsDrained(MoveAll(hash, earlier + moves)) {
      MovesContinue(hash, earlier, moves);
      StreamGrows(hash, s, moves);
      DrainedIsExactlyOnce(hash, earlier + moves);
      forall k | 0 <= k < |s.stream|
        ensures ValidateEvent(s.stream[k]).Valid?
      {
        assert s.stream[k] == MoveAll(hash, earlier + moves).stream[k];
      }
    }
    if AllValid(s.stream) {
      NothingIsLost(hash, earlier);
      var moves := EveryStateCanDrain(hash, s);
      MovesContinue(hash, earlier, moves);
    }
  }

  // ----- every stream can be processed -----

  lemma {:induction false} StreamCanBePublished(hash: LockHash, events: seq<OrderEvent>) returns (moves: seq<Move>)
    ensures MoveAll(hash, moves).stream == events
    decreases |events|
  {
    moves := [];
    if events != [] {
      var n := |events| - 1;
      var before := StreamCanBePublished(hash, events[..n]);
      moves := before + [Publish(events[n])];
      assert moves[..|before|] == before;
    }
  }

  /** Any valid events can be published and drained, and then each of them is processed. */
  lemma StreamCanBeProcessed(hash: LockHash, events: seq<OrderEvent>) returns (moves: seq<Move>)
    requires AllValid(events)
    ensures var s := MoveAll(hash, moves);
            && s.stream == events && IsDrained(s)
            && forall k :: 0 <= k < |events| ==> events[k].eventId in s.cluster.db.processed
  {
    var published := StreamCanBePublished(hash, events);
    NothingIsLost(hash, published);
    var rest := EveryStateCanDrain(hash, MoveAll(hash, published));
    MovesContinue(hash, published, rest);
    moves := published + rest;
    NothingIsLost(hash, moves);
    forall k | 0 <= k < |events|
      ensures events[k].eventId in MoveAll(hash, moves).cluster.db.processed
    {
      DrainedEntryIsCommitted(MoveAll(hash, moves), k);
    }
  }
}
