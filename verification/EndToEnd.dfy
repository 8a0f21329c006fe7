/** The producer's load through the whole pipeline. */
module EndToEnd {
  import opened Domain
  import opened Schema
  import opened Runs
  import opened Convergence
  import opened Concurrency
  import opened Delivery
  import opened Workload
  import opened Producer
  import opened LoadRun
  import opened Numbering
  import opened GeneratedOrders
  import opened Draining

  lemma LoadIdsAreConsistent(c: Config, random: nat -> nat)
    requires Validate(c) == None
    ensures IdsAreConsistent(EventsOf(Load(c, random)))
  {
    var stream := EventsOf(Load(c, random));
    NamesAreSound(c.seed);
    LoadIsTold(c, random);
    forall i, j | 0 <= i < |stream| && 0 <= j < |stream| && stream[i].eventId == stream[j].eventId
      ensures ValidateEvent(stream[i]) == ValidateEvent(stream[j])
    {
      SameIdSameEvent(NamesOf(c.seed), Plan(c, random), stream[i], stream[j]);
    }
  }

  lemma StoryEndsAtFinalStatus(s: Scenario, events: Events, o: OrderId)
    requires IsStaged(s) && Cancelled !in Statuses(s)
    requires forall status :: Has(events, o, status) <==> status in Statuses(s)
    ensures FinalStatus(events, o) == Statuses(s)[|Statuses(s)| - 1]
  {
    var statuses := Statuses(s);
    assert statuses[0] == Created;
    assert |statuses| > 1 ==> statuses[1] == Paid;
    assert |statuses| > 2 ==> statuses[2] == Shipped;
  }

  /** Once the producer's load is drained, every steady order shows the last status of its story,
      whatever was lost, repeated, reordered or interleaved on the way. */
  lemma ProducedLoadSettles(hash: LockHash, moves: seq<Move>, c: Config, random: nat -> nat, k: nat)
    requires Validate(c) == None && k < |Plan(c, random)| && IsSteady(Plan(c, random), k)
    requires MoveAll(hash, moves).stream == EventsOf(Load(c, random)) && IsDrained(MoveAll(hash, moves))
    ensures var story := Statuses(Plan(c, random)[k]);
            story != [] && CurrentStatus(MoveAll(hash, moves).cluster.db, OrderIdOf(c.seed, k + 1)) == story[|story| - 1]
  {
    var stream, o := EventsOf(Load(c, random)), OrderIdOf(c.seed, k + 1);
    LoadIdsAreConsistent(c, random);
    LoadedOrdersAreConvergent(c, random, k);
    DrainedConverges(hash, moves, o);
    LoadTellsStories(c, random, k);
    PlanIsStaged(c, random, k);
    StoryEndsAtFinalStatus(Plan(c, random)[k], Accepted(stream), o);
  }

  lemma LoadedOrdersAreConvergent(c: Config, random: nat -> nat, k: nat)
    requires Validate(c) == None && k < |Plan(c, random)| && IsSteady(Plan(c, random), k)
    ensures IsConvergent(Accepted(EventsOf(Load(c, random))), OrderIdOf(c.seed, k + 1))
  {
    var events, o := Accepted(EventsOf(Load(c, random))), OrderIdOf(c.seed, k + 1);
    LoadedOrdersConverge(c, random, k);
    AcceptedAreEvents(EventsOf(Load(c, random)), o);
    ConvergesExactlyWhen(OrderEvents(events, o), o);
    OrderEventsDecide(events, o);
  }

  lemma LoadIsValid(c: Config, random: nat -> nat)
    requires Validate(c) == None
    ensures AllValid(EventsOf(Load(c, random)))
  {
    var names, plan, stream := NamesOf(c.seed), Plan(c, random), EventsOf(Load(c, random));
    NamesAreSound(c.seed);
    PlansAreStaged(c, random);
    LoadIsTold(c, random);
    forall i | 0 <= i < |stream|
      ensures ValidateEvent(stream[i]).Valid?
    {
      assert stream[i] in stream;
      var slot: nat, k: nat, step: nat :| IsStepOf(names, plan, stream[i], slot, k, step);
      StepIsNormal(names, plan, stream[i], slot, k, step);
    }
  }

  /** Every steady order of the plan shows the last status of its story. */
  ghost predicate ShowsLoad(s: System, c: Config, random: nat -> nat)
    requires Validate(c) == None
  {
    forall k: nat :: k < |Plan(c, random)| && IsSteady(Plan(c, random), k) ==>
      var story := Statuses(Plan(c, random)[k]);
      story != [] && CurrentStatus(s.cluster.db, OrderIdOf(c.seed, k + 1)) == story[|story| - 1]
  }

  /** The load of every accepted configuration can be published and drained, and then all of its
      events are processed and all of its steady orders have arrived. */
  lemma ProducedLoadCanSettle(hash: LockHash, c: Config, random: nat -> nat) returns (moves: seq<Move>)
    requires Validate(c) == None
    ensures var s, load := MoveAll(hash, moves), EventsOf(Load(c, random));
            && s.stream == load && IsDrained(s) && ShowsLoad(s, c, random)
            && forall i :: 0 <= i < |load| ==> load[i].eventId in s.cluster.db.processed
  {
    LoadIsValid(c, random);
    moves := StreamCanBeProcessed(hash, EventsOf(Load(c, random)));
    forall k: nat | k < |Plan(c, random)| && IsSteady(Plan(c, random), k)
      ensures var story := Statuses(Plan(c, random)[k]);
              story != []
              && CurrentStatus(MoveAll(hash, moves).cluster.db, OrderIdOf(c.seed, k + 1)) == story[|story| - 1]
    {
      ProducedLoadSettles(hash, moves, c, random, k);
    }
  }
}
