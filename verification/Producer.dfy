/** The producer: a generator with counters that emits into a batching publisher. */
module Producer {
  import opened Domain
  import opened Workload

  function EventsOf(generated: seq<GeneratedEvent>): seq<OrderEvent> {
    seq(|generated|, i requires 0 <= i < |generated| => generated[i].event)
  }

  lemma EventsOfConcat(a: seq<GeneratedEvent>, b: seq<GeneratedEvent>)
    ensures EventsOf(a + b) == EventsOf(a) + EventsOf(b)
  {
  }

  lemma EventsOfPrefix(a: seq<GeneratedEvent>, b: seq<GeneratedEvent>)
    requires a <= b
    ensures EventsOf(a) <= EventsOf(b)
  {
  }

  /** What happens to a publish call: it may not reach the stream, or its reply may be lost. */
  datatype PublishFate = Stored | NotStored | ReplyLost

  /** A batch in memory in front of the stream. `fates` tells what happens to each publish call. */
  class BatchPublisher {
    const batchSize: nat
    const fates: nat -> PublishFate
    var batch: seq<GeneratedEvent>
    var published: seq<OrderEvent>
    var totalPublished: nat
    /** The events whose emission succeeded so far. */
    ghost var emitted: seq<GeneratedEvent>

    constructor (batchSize: nat, fates: nat -> PublishFate)
      ensures Valid() && emitted == [] && published == [] && this.batchSize == batchSize && this.fates == fates
    {
      this.batchSize, this.fates := batchSize, fates;
      batch, published, totalPublished, emitted := [], [], 0, [];
    }

    /** Everything emitted is published or still in the batch, in order; the batch has room. */
    ghost predicate Valid()
      reads this
    {
      && (batch == [] || |batch| < batchSize)
      && published + EventsOf(batch) == EventsOf(emitted)
      && totalPublished == |published| && Answered(|published|)
    }

    /** The first `n` publish calls are answered with success. */
    ghost predicate Answered(n: nat) {
      forall call: nat :: call < n ==> fates(call) == Stored
    }

    /** Success means that the event is stored; after a failure it may be stored or not. */
    method Publish(e: OrderEvent) returns (ok: bool)
      modifies this`published
      ensures ok <==> fates(old(|published|)) == Stored
      ensures published == if fates(old(|published|)) == NotStored then old(published) else old(published) + [e]
    {
      var fate := fates(|published|);
      if fate != NotStored {
        published := published + [e];
      }
      ok := fate == Stored;
    }

    /** Publishes the batch in order and empties it, or stops at the first call that fails. */
    method Flush() returns (ok: bool)
      requires totalPublished == |published| && Answered(|published|)
      modifies this`batch, this`published, this`totalPublished
      ensures ok ==> batch == [] && published == old(published) + EventsOf(old(batch)) && totalPublished == |published|
      ensures !ok ==> old(published) <= published <= old(published) + EventsOf(old(batch)) && batch == old(batch)
      ensures ok <==> Answered(|old(published)| + |old(batch)|)
    {
      ghost var events := EventsOf(batch);
      for i := 0 to |batch|
        invariant batch == old(batch)
        invariant published == old(published) + events[..i]
        invariant totalPublished == |published| && Answered(|published|)
      {
        assert events[..i + 1] == events[..i] + [batch[i].event];
        var sent := Publish(batch[i].event);
        if !sent {
          return false;
        }
        totalPublished := totalPublished + 1;
      }
      assert events[..|batch|] == events;
      batch := [];
      ok := true;
    }

    /** Takes one event; a full batch is published at once. */
    method Emit(g: GeneratedEvent) returns (ok: bool)
      requires Valid()
      modifies this
      ensures ok ==> Valid() && emitted == old(emitted) + [g]
      ensures !ok ==> emitted == old(emitted) && published <= EventsOf(old(emitted) + [g])
      ensures ok ==> batch == if |old(batch)| + 1 < batchSize then old(batch) + [g] else []
      ensures batchSize > 0 ==> |batch| <= batchSize
      ensures !ok ==> !Answered(|old(emitted)| + 1)
    {
      batch := batch + [g];
      EventsOfConcat(emitted, [g]);
      EventsOfConcat(old(batch), [g]);
      assert published + EventsOf(batch) == EventsOf(emitted + [g]);
      ok := true;
      if |batch| >= batchSize {
        ok := Flush();
      }
      if ok {
        emitted := emitted + [g];
      }
    }
  }

  lemma {:induction false} UniqueEventsPrefix(names: Naming, a: seq<Scenario>, b: seq<Scenario>)
    ensures UniqueEvents(names, a) <= UniqueEvents(names, a + b)
    decreases |b|
  {
    if b == [] {
      assert a + b == a;
    } else {
      var n := |b| - 1;
      assert (a + b)[..|a + b| - 1] == a + b[..n];
      UniqueEventsPrefix(names, a, b[..n]);
    }
  }

  datatype Summary = Counted(
    totalRequested: int,
    totalPublished: nat,
    uniqueEventIds: nat,
    duplicateEvents: nat,
    uniqueOrderIds: nat,
    outOfOrderEvents: nat,
    invalidTransitionEvents: nat)

  function CountOutOfOrder(events: seq<GeneratedEvent>): nat
    decreases |events|
  {
    if events == [] then 0
    else CountOutOfOrder(events[..|events| - 1]) + if events[|events| - 1].outOfOrder then 1 else 0
  }

  function CountInvalid(events: seq<GeneratedEvent>): nat
    decreases |events|
  {
    if events == [] then 0
    else CountInvalid(events[..|events| - 1]) + if events[|events| - 1].invalid then 1 else 0
  }

  function AtMost(n: nat, limit: nat): nat {
    if n < limit then n else limit
  }

  /** What comes next lies within what may be sent. */
  ghost predicate Fits(u: seq<GeneratedEvent>, sent: seq<GeneratedEvent>, goal: seq<GeneratedEvent>) {
    u + sent <= goal
  }

  /** The step after the first k of a scenario still lies within the goal. */
  lemma StepFits(u: seq<GeneratedEvent>, sent: seq<GeneratedEvent>, goal: seq<GeneratedEvent>, k: nat)
    requires Fits(u, sent, goal) && k < |sent|
    ensures (u + sent[..k]) + [sent[k]] <= goal
    ensures (u + sent[..k]) + [sent[k]] == u + sent[..k + 1]
  {
    assert (u + sent[..k]) + [sent[k]] == (u + sent)[..|u| + k + 1];
  }

  ghost predicate IsPart(plan: seq<Scenario>, from: nat, part: seq<Scenario>) {
    from + |part| <= |plan| && forall k :: 0 <= k < |part| ==> plan[from + k] == part[k]
  }

  lemma PartGoesOn(plan: seq<Scenario>, from: nat, part: seq<Scenario>)
    requires IsPart(plan, from, part) && part != []
    ensures plan[from] == part[0] && IsPart(plan, from + 1, part[1..])
  {
    forall k | 0 <= k < |part| - 1
      ensures plan[from + 1 + k] == part[1..][k]
    {
      assert part[1..][k] == part[k + 1];
    }
  }

  function Take(plan: seq<Scenario>, k: nat): seq<Scenario>
    requires k <= |plan|
  {
    plan[..k]
  }

  /** The unique events of the first k scenarios of a plan, for every k. */
  ghost predicate IsStory(names: Naming, plan: seq<Scenario>, story: nat -> seq<GeneratedEvent>) {
    forall k: nat {:trigger Take(plan, k)} :: k <= |plan| ==> story(k) == UniqueEvents(names, Take(plan, k))
  }

  ghost function StoryOf(names: Naming, plan: seq<Scenario>): (story: nat -> seq<GeneratedEvent>)
    ensures IsStory(names, plan, story)
  {
    (k: nat) => if k <= |plan| then UniqueEvents(names, Take(plan, k)) else []
  }

  lemma StoryBounds(names: Naming, plan: seq<Scenario>, story: nat -> seq<GeneratedEvent>)
    requires IsStory(names, plan, story)
    ensures story(0) == [] && story(|plan|) == UniqueEvents(names, plan)
  {
    assert Take(plan, 0) == [] && Take(plan, |plan|) == plan;
  }

  lemma StoryGrows(names: Naming, plan: seq<Scenario>, story: nat -> seq<GeneratedEvent>, k: nat)
    requires IsStory(names, plan, story) && k < |plan|
    ensures story(k + 1) == story(k) + Sent(names, plan[k], k + 1, |story(k)|)
  {
    var now, next := Take(plan, k), Take(plan, k + 1);
    assert next[..k] == now && next[k] == plan[k];
  }

  lemma StoryIsMonotonic(names: Naming, plan: seq<Scenario>, story: nat -> seq<GeneratedEvent>, k: nat)
    requires IsStory(names, plan, story) && k <= |plan|
    ensures story(k) <= story(|plan|)
  {
    assert Take(plan, |plan|) == plan == Take(plan, k) + plan[k..];
    UniqueEventsPrefix(names, Take(plan, k), plan[k..]);
  }

  /** One more scenario, which still lies within the whole story. */
  lemma NextScenario(names: Naming, plan: seq<Scenario>, story: nat -> seq<GeneratedEvent>, k: nat)
    requires IsStory(names, plan, story) && k < |plan|
    ensures story(k + 1) == story(k) + Sent(names, plan[k], k + 1, |story(k)|)
    ensures Fits(story(k), Sent(names, plan[k], k + 1, |story(k)|), story(|plan|))
  {
    StoryGrows(names, plan, story, k);
    StoryIsMonotonic(names, plan, story, k + 1);
  }

  lemma NextEmission(unique: seq<GeneratedEvent>, g: GeneratedEvent, duplicates: nat)
    ensures var sent, next := WithDuplicates(unique, duplicates), WithDuplicates(unique + [g], duplicates);
            && (|unique| < duplicates ==> sent + [g] + [Duplicate(g)] == next)
            && (|unique| >= duplicates ==> sent + [g] == next)
            && sent + [g] <= next
  {
    assert (unique + [g])[..|unique|] == unique;
  }

  /** The next event, alone or with its duplicate, still lies within what may be sent. */
  lemma NextPrefixes(unique: seq<GeneratedEvent>, g: GeneratedEvent, goal: seq<GeneratedEvent>, duplicates: nat)
    requires unique + [g] <= goal
    ensures WithDuplicates(unique, duplicates) + [g] <= WithDuplicates(goal, duplicates)
    ensures WithDuplicates(unique + [g], duplicates) <= WithDuplicates(goal, duplicates)
  {
    assert goal[..|unique + [g]|] == unique + [g];
    WithDuplicatesPrefix(goal, |unique + [g]|, duplicates);
    NextEmission(unique, g, duplicates);
  }

  /** What the summary should say about these unique events. */
  function SummaryOf(config: Config, unique: seq<GeneratedEvent>, duplicates: nat, orders: nat): Summary {
    Counted(config.total, |WithDuplicates(unique, duplicates)|, |unique|, AtMost(duplicates, |unique|), orders,
            CountOutOfOrder(unique), CountInvalid(unique))
  }

  lemma NextSummary(config: Config, unique: seq<GeneratedEvent>, g: GeneratedEvent, duplicates: nat, orders: nat)
    ensures var s := SummaryOf(config, unique, duplicates, orders);
            var more := if |unique| < duplicates then 1 else 0;
            SummaryOf(config, unique + [g], duplicates, orders)
            == Counted(s.totalRequested, s.totalPublished + 1 + more, s.uniqueEventIds + 1, s.duplicateEvents + more, orders,
                       s.outOfOrderEvents + (if g.outOfOrder then 1 else 0),
                       s.invalidTransitionEvents + (if g.invalid then 1 else 0))
  {
    assert (unique + [g])[..|unique|] == unique;
    NextEmission(unique, g, duplicates);
  }

  // The steps of the two early scenarios one by one.

  lemma SentPaidBeforeCreated(names: Naming, order: nat, before: nat, created: OrderEvent, paid: OrderEvent)
    requires created == NewEvent(names, order, Created, before + 1, before)
    requires paid == NewEvent(names, order, Paid, before + 2, before + 1)
    ensures Sent(names, PaidBeforeCreated, order, before) == [GeneratedEvent(paid, false, true, false), Plain(created)]
  {
  }

  lemma SentShippedBeforePaid(names: Naming, order: nat, before: nat, created: OrderEvent, paid: OrderEvent, shipped: OrderEvent)
    requires created == NewEvent(names, order, Created, before + 1, before)
    requires paid == NewEvent(names, order, Paid, before + 2, before + 1)
    requires shipped == NewEvent(names, order, Shipped, before + 3, before + 2)
    ensures Sent(names, ShippedBeforePaid, order, before)
            == [GeneratedEvent(shipped, false, true, false), Plain(created), Plain(paid)]
  {
  }

  lemma SentInOrder(names: Naming, s: Scenario, order: nat, before: nat, k: nat, e: OrderEvent)
    requires s.CancelledAfterShipped? || s.Lifecycle?
    requires k < |Statuses(s)| && e == NewEvent(names, order, Statuses(s)[k], before + k + 1, before + k)
    ensures Sent(names, s, order, before)[k]
            == GeneratedEvent(e, false, false, s.CancelledAfterShipped? && Statuses(s)[k] == Cancelled)
  {
  }

  lemma NextPair(names: Naming, plan: seq<Scenario>, story: nat -> seq<GeneratedEvent>, order: nat,
                 created: OrderEvent, paid: OrderEvent)
    requires IsStory(names, plan, story) && 0 < order <= |plan| && plan[order - 1] == PaidBeforeCreated
    requires var before := |story(order - 1)|;
             && created == NewEvent(names, order, Created, before + 1, before)
             && paid == NewEvent(names, order, Paid, before + 2, before + 1)
    ensures var next := [GeneratedEvent(paid, false, true, false), Plain(created)];
            Fits(story(order - 1), next, story(|plan|)) && story(order - 1) + next == story(order)
  {
    NextScenario(names, plan, story, order - 1);
    SentPaidBeforeCreated(names, order, |story(order - 1)|, created, paid);
  }

  lemma NextTriple(names: Naming, plan: seq<Scenario>, story: nat -> seq<GeneratedEvent>, order: nat,
                   created: OrderEvent, paid: OrderEvent, shipped: OrderEvent)
    requires IsStory(names, plan, story) && 0 < order <= |plan| && plan[order - 1] == ShippedBeforePaid
    requires var before := |story(order - 1)|;
             && created == NewEvent(names, order, Created, before + 1, before)
             && paid == NewEvent(names, order, Paid, before + 2, before + 1)
             && shipped == NewEvent(names, order, Shipped, before + 3, before + 2)
    ensures var next := [GeneratedEvent(shipped, false, true, false), Plain(created), Plain(paid)];
            Fits(story(order - 1), next, story(|plan|)) && story(order - 1) + next == story(order)
  {
    NextScenario(names, plan, story, order - 1);
    SentShippedBeforePaid(names, order, |story(order - 1)|, created, paid, shipped);
  }

  class EventGenerator {
    const config: Config
    const names: Naming
    const random: nat -> nat
    const sink: BatchPublisher
    const duplicates: nat
    var draws: nat
    var eventSequence: nat
    var orderSequence: nat
    var timeSequence: nat
    var duplicatesRemaining: nat
    var summary: Summary

    /** The unique events sent so far, the plan, and what was sent after each of its scenarios. */
    ghost var unique: seq<GeneratedEvent>
    ghost const plan: seq<Scenario>
    ghost const story: nat -> seq<GeneratedEvent>

    constructor (config: Config, random: nat -> nat, sink: BatchPublisher, duplicates: nat, ghost plan: seq<Scenario>)
      requires sink.Valid() && sink.emitted == []
      ensures AtRest() && orderSequence == 0 && this.plan == plan && draws == 0
      ensures this.config == config && names == NamesOf(config.seed)
      ensures this.random == random && this.sink == sink && this.duplicates == duplicates
    {
      this.config, this.names, this.random := config, NamesOf(config.seed), random;
      this.sink, this.duplicates := sink, duplicates;
      draws, eventSequence, orderSequence, timeSequence := 0, 0, 0, 0;
      duplicatesRemaining := duplicates;
      summary := Counted(config.total, 0, 0, 0, 0, 0, 0);
      unique, this.plan, story := [], plan, StoryOf(NamesOf(config.seed), plan);
      StoryBounds(NamesOf(config.seed), plan, StoryOf(NamesOf(config.seed), plan));
    }

    /** All unique events that may be sent. */
    ghost function Goal(): seq<GeneratedEvent> {
      story(|plan|)
    }

    /** What was emitted are the unique events so far, each of the first with its duplicate, and
        the summary says so. */
    ghost predicate Valid()
      reads this`unique, this`duplicatesRemaining, this`summary, sink
    {
      && sink.Valid()
      && unique <= Goal()
      && sink.emitted == WithDuplicates(unique, duplicates)
      && duplicatesRemaining == duplicates - AtMost(duplicates, |unique|)
      && summary == SummaryOf(config, unique, duplicates, summary.uniqueOrderIds)
    }

    /** No scenario is half sent: every event made was sent, and every second reserved was used. */
    ghost predicate AtRest()
      reads this`unique, this`duplicatesRemaining, this`summary, sink
      reads this`eventSequence, this`timeSequence, this`orderSequence
    {
      && Valid()
      && IsStory(names, plan, story)
      && orderSequence <= |plan| && unique == story(orderSequence)
      && eventSequence == timeSequence == |unique|
      && summary.uniqueOrderIds == orderSequence
    }

    /** The next scenarios of the plan. */
    ghost predicate ComesNext(part: seq<Scenario>)
      reads this`orderSequence
    {
      IsPart(plan, orderSequence, part)
    }

    /** What can be said after a failed emission: only a prefix of the goal got out, and one of the
        publish calls that the goal takes has failed. */
    ghost predicate StoppedEarly()
      reads sink
    {
      && sink.published <= EventsOf(WithDuplicates(Goal(), duplicates))
      && !sink.Answered(|WithDuplicates(Goal(), duplicates)|)
    }

    /** Books one more unique event in the summary. */
    method CountUnique(g: GeneratedEvent)
      modifies this`summary
      ensures var s := old(summary);
              summary == s.(totalPublished := s.totalPublished + 1, uniqueEventIds := s.uniqueEventIds + 1,
                            outOfOrderEvents := s.outOfOrderEvents + (if g.outOfOrder then 1 else 0),
                            invalidTransitionEvents := s.invalidTransitionEvents + (if g.invalid then 1 else 0))
    {
      summary := summary.(totalPublished := summary.totalPublished + 1, uniqueEventIds := summary.uniqueEventIds + 1);
      if g.outOfOrder {
        summary := summary.(outOfOrderEvents := summary.outOfOrderEvents + 1);
      }
      if g.invalid {
        summary := summary.(invalidTransitionEvents := summary.invalidTransitionEvents + 1);
      }
    }

    /** Emits what comes next on the way to the goal. */
    method EmitNext(g: GeneratedEvent) returns (ok: bool)
      requires sink.Valid() && sink.emitted + [g] <= WithDuplicates(Goal(), duplicates)
      modifies sink
      ensures ok ==> sink.Valid() && sink.emitted == old(sink.emitted) + [g]
      ensures !ok ==> StoppedEarly()
    {
      EventsOfPrefix(sink.emitted + [g], WithDuplicates(Goal(), duplicates));
      ok := sink.Emit(g);
    }

    /** Emits one unique event and, while duplicates are still wanted, its duplicate. */
    method EmitUnique(g: GeneratedEvent) returns (ok: bool)
      requires Valid() && unique + [g] <= Goal()
      modifies this`unique, this`duplicatesRemaining, this`summary, sink
      ensures summary.uniqueOrderIds == old(summary.uniqueOrderIds)
      ensures ok ==> Valid() && unique == old(unique) + [g]
      ensures !ok ==> StoppedEarly()
    {
      NextEmission(unique, g, duplicates);
      NextPrefixes(unique, g, Goal(), duplicates);
      NextSummary(config, unique, g, duplicates, summary.uniqueOrderIds);
      ok := EmitNext(g);
      if !ok { return; }
      CountUnique(g);
      unique := unique + [g];
      if duplicatesRemaining == 0 {
        return true;
      }
      ok := EmitNext(Duplicate(g));
      if !ok { return; }
      duplicatesRemaining := duplicatesRemaining - 1;
      summary := summary.(totalPublished := summary.totalPublished + 1, duplicateEvents := summary.duplicateEvents + 1);
    }

    method NextOrderId() returns (order: nat)
      modifies this`orderSequence, this`summary
      ensures order == orderSequence == old(orderSequence) + 1
      ensures summary == old(summary).(uniqueOrderIds := old(summary).uniqueOrderIds + 1)
    {
      orderSequence := orderSequence + 1;
      summary := summary.(uniqueOrderIds := summary.uniqueOrderIds + 1);
      order := orderSequence;
    }

    method MakeEvent(order: nat, status: Status, timeIndex: nat) returns (e: OrderEvent)
      modifies this`eventSequence
      ensures eventSequence == old(eventSequence) + 1
      ensures e == NewEvent(names, order, status, eventSequence, timeIndex)
    {
      eventSequence := eventSequence + 1;
      e := NewEvent(names, order, status, eventSequence, timeIndex);
    }

    /** Sets aside consecutive seconds and returns their indices. */
    method ReserveTimes(count: nat) returns (times: seq<nat>)
      modifies this`timeSequence
      ensures |times| == count && forall i :: 0 <= i < count ==> times[i] == old(timeSequence) + i
      ensures timeSequence == old(timeSequence) + count
    {
      var first := timeSequence;
      times := seq(count, i => first + i);
      timeSequence := timeSequence + count;
    }

    // ----- one scenario -----

    /** Emits step `k` of the scenario that follows the unique events `u`. */
    method EmitStep(g: GeneratedEvent, ghost u: seq<GeneratedEvent>, ghost sent: seq<GeneratedEvent>, ghost k: nat)
      returns (ok: bool)
      requires Valid() && Fits(u, sent, Goal()) && k < |sent| && g == sent[k] && unique == u + sent[..k]
      modifies this`unique, this`duplicatesRemaining, this`summary, sink
      ensures summary.uniqueOrderIds == old(summary.uniqueOrderIds)
      ensures ok ==> Valid() && unique == u + sent[..k + 1]
      ensures !ok ==> StoppedEarly()
    {
      StepFits(u, sent, Goal(), k);
      ok := EmitUnique(g);
    }

    method MakePaidBeforeCreated() returns (created: OrderEvent, paid: OrderEvent, ghost next: seq<GeneratedEvent>)
      requires AtRest() && orderSequence < |plan| && plan[orderSequence] == PaidBeforeCreated
      modifies this`orderSequence, this`summary, this`eventSequence, this`timeSequence
      ensures orderSequence == old(orderSequence) + 1 && eventSequence == timeSequence == |unique| + 2
      ensures summary == old(summary).(uniqueOrderIds := orderSequence)
      ensures Fits(unique, next, Goal()) && unique + next == story(orderSequence)
      ensures |next| == 2 && next[0] == GeneratedEvent(paid, false, true, false) && next[1] == Plain(created)
    {
      var order := NextOrderId();
      var times := ReserveTimes(2);
      created := MakeEvent(order, Created, times[0]);
      paid := MakeEvent(order, Paid, times[1]);
      NextPair(names, plan, story, order, created, paid);
      next := [GeneratedEvent(paid, false, true, false), Plain(created)];
    }

    method SendPaidBeforeCreated() returns (ok: bool)
      requires AtRest() && orderSequence < |plan| && plan[orderSequence] == PaidBeforeCreated
      modifies this, sink
      ensures draws == old(draws) && orderSequence == old(orderSequence) + 1
      ensures ok ==> AtRest()
      ensures !ok ==> StoppedEarly()
    {
      ghost var u := unique;
      var created, paid, next := MakePaidBeforeCreated();
      assert u + next[..0] == u && next[..2] == next;
      ok := EmitStep(GeneratedEvent(paid, false, true, false), u, next, 0);
      if !ok { return; }
      ok := EmitStep(Plain(created), u, next, 1);
    }

    method MakeThreeEvents(order: nat) returns (created: OrderEvent, paid: OrderEvent, shipped: OrderEvent)
      requires eventSequence == timeSequence
      modifies this`eventSequence, this`timeSequence
      ensures eventSequence == timeSequence == old(eventSequence) + 3
      ensures created == NewEvent(names, order, Created, old(eventSequence) + 1, old(eventSequence))
      ensures paid == NewEvent(names, order, Paid, old(eventSequence) + 2, old(eventSequence) + 1)
      ensures shipped == NewEvent(names, order, Shipped, old(eventSequence) + 3, old(eventSequence) + 2)
    {
      var times := ReserveTimes(3);
      created := MakeEvent(order, Created, times[0]);
      paid := MakeEvent(order, Paid, times[1]);
      shipped := MakeEvent(order, Shipped, times[2]);
    }

    method MakeShippedBeforePaid()
      returns (created: OrderEvent, paid: OrderEvent, shipped: OrderEvent, ghost next: seq<GeneratedEvent>)
      requires AtRest() && orderSequence < |plan| && plan[orderSequence] == ShippedBeforePaid
      modifies this`orderSequence, this`summary, this`eventSequence, this`timeSequence
      ensures orderSequence == old(orderSequence) + 1 && eventSequence == timeSequence == |unique| + 3
      ensures summary == old(summary).(uniqueOrderIds := orderSequence)
      ensures Fits(unique, next, Goal()) && unique + next == story(orderSequence)
      ensures |next| == 3
      ensures next[0] == GeneratedEvent(shipped, false, true, false) && next[1] == Plain(created) && next[2] == Plain(paid)
    {
      var order := NextOrderId();
      created, paid, shipped := MakeThreeEvents(order);
      NextTriple(names, plan, story, order, created, paid, shipped);
      next := [GeneratedEvent(shipped, false, true, false), Plain(created), Plain(paid)];
    }

    method SendShippedBeforePaid() returns (ok: bool)
      requires AtRest() && orderSequence < |plan| && plan[orderSequence] == ShippedBeforePaid
      modifies this, sink
      ensures draws == old(draws) && orderSequence == old(orderSequence) + 1
      ensures ok ==> AtRest()
      ensures !ok ==> StoppedEarly()
    {
      ghost var u := unique;
      var created, paid, shipped, next := MakeShippedBeforePaid();
      assert u + next[..0] == u && next[..3] == next;
      ok := EmitStep(GeneratedEvent(shipped, false, true, false), u, next, 0);
      if !ok { return; }
      ok := EmitStep(Plain(created), u, next, 1);
      if !ok { return; }
      ok := EmitStep(Plain(paid), u, next, 2);
    }

    /** Takes the next order number and sets aside the times of its steps. */
    method BeginScenario(s: Scenario) returns (order: nat, times: seq<nat>, ghost next: seq<GeneratedEvent>)
      requires AtRest() && orderSequence < |plan| && plan[orderSequence] == s
      modifies this`orderSequence, this`summary, this`timeSequence
      ensures summary == old(summary).(uniqueOrderIds := orderSequence)
      ensures order == orderSequence == old(orderSequence) + 1 && timeSequence == |unique| + |Statuses(s)|
      ensures |times| == |Statuses(s)| && forall i :: 0 <= i < |times| ==> times[i] == |unique| + i
      ensures next == Sent(names, s, order, |unique|)
      ensures Fits(unique, next, Goal()) && unique + next == story(orderSequence)
    {
      next := Sent(names, s, orderSequence + 1, |unique|);
      NextScenario(names, plan, story, orderSequence);
      order := NextOrderId();
      times := ReserveTimes(|Statuses(s)|);
    }

    /** Sends the steps of a scenario in time order, making each event just before it is sent. */
    method SendInOrder(s: Scenario) returns (ok: bool)
      requires s.CancelledAfterShipped? || s.Lifecycle?
      requires AtRest() && orderSequence < |plan| && plan[orderSequence] == s
      modifies this, sink
      ensures draws == old(draws) && orderSequence == old(orderSequence) + 1
      ensures ok ==> AtRest()
      ensures !ok ==> StoppedEarly()
    {
      var statuses := Statuses(s);
      ghost var u := unique;
      var order, times, next := BeginScenario(s);
      assert u + next[..0] == u && next[..|statuses|] == next;
      for i := 0 to |statuses|
        invariant Valid() && unique == u + next[..i]
        invariant draws == old(draws) && orderSequence == summary.uniqueOrderIds == order
        invariant eventSequence == |u| + i && timeSequence == |u| + |statuses|
      {
        ok := MakeAndEmit(s, order, i, times[i], u, next);
        if !ok { return; }
      }
      ok := true;
    }

    method MakeAndEmit(s: Scenario, order: nat, k: nat, timeIndex: nat,
                       ghost u: seq<GeneratedEvent>, ghost sent: seq<GeneratedEvent>)
      returns (ok: bool)
      requires s.CancelledAfterShipped? || s.Lifecycle?
      requires k < |Statuses(s)| && sent == Sent(names, s, order, |u|)
      requires eventSequence == timeIndex == |u| + k
      requires Valid() && Fits(u, sent, Goal()) && unique == u + sent[..k]
      modifies this`eventSequence
      modifies this`unique, this`duplicatesRemaining, this`summary, sink
      ensures summary.uniqueOrderIds == old(summary.uniqueOrderIds)
      ensures eventSequence == old(eventSequence) + 1
      ensures ok ==> Valid() && unique == u + sent[..k + 1]
      ensures !ok ==> StoppedEarly()
    {
      var status := Statuses(s)[k];
      var e := MakeEvent(order, status, timeIndex);
      var g := GeneratedEvent(e, false, false, s.CancelledAfterShipped? && status == Cancelled);
      SentInOrder(names, s, order, |u|, k, e);
      ok := EmitStep(g, u, sent, k);
    }

    // ----- the three parts of the load -----

    method GenerateOutOfOrder(count: nat) returns (ok: bool)
      requires AtRest() && ComesNext(OutOfOrderPlan(count))
      modifies this, sink
      ensures draws == old(draws)
      ensures ok ==> AtRest() && orderSequence == old(orderSequence) + count
      ensures !ok ==> StoppedEarly()
    {
      for index := 0 to count
        invariant AtRest() && orderSequence == old(orderSequence) + index && draws == old(draws)
      {
        assert plan[orderSequence] == OutOfOrderPlan(count)[index];
        if index % 2 == 0 {
          ok := SendPaidBeforeCreated();
        } else {
          ok := SendShippedBeforePaid();
        }
        if !ok { return; }
      }
      ok := true;
    }

    method GenerateInvalid(count: nat) returns (ok: bool)
      requires AtRest() && ComesNext(InvalidPlan(count))
      modifies this, sink
      ensures draws == old(draws)
      ensures ok ==> AtRest() && orderSequence == old(orderSequence) + count
      ensures !ok ==> StoppedEarly()
    {
      for index := 0 to count
        invariant AtRest() && orderSequence == old(orderSequence) + index && draws == old(draws)
      {
        assert plan[orderSequence] == InvalidPlan(count)[index];
        ok := SendInOrder(CancelledAfterShipped);
        if !ok { return; }
      }
      ok := true;
    }

    /** Picks a random lifecycle and cuts it to what is left to send. */
    method DrawLifecycle(left: nat) returns (lifecycle: seq<Status>)
      requires left > 0
      modifies this`draws
      ensures draws == old(draws) + 1 && lifecycle == Pick(random, old(draws), left)
    {
      lifecycle := LIFECYCLES[random(draws) % |LIFECYCLES|];
      if |lifecycle| > left {
        lifecycle := lifecycle[..left];
      }
      draws := draws + 1;
    }

    /** Sends one randomly picked lifecycle, the first of the normal scenarios that are left. */
    method SendLifecycle(left: nat) returns (ok: bool, sent: nat)
      requires left > 0 && AtRest() && ComesNext(NormalPlan(random, draws, left))
      modifies this, sink
      ensures 0 < sent <= left
      ensures ok ==> AtRest() && ComesNext(NormalPlan(random, draws, left - sent))
                     && orderSequence + |NormalPlan(random, draws, left - sent)|
                        == old(orderSequence + |NormalPlan(random, draws, left)|)
      ensures !ok ==> StoppedEarly()
    {
      var _, _ := NormalPlanStarts(random, draws, left);
      PartGoesOn(plan, orderSequence, NormalPlan(random, draws, left));
      var lifecycle := DrawLifecycle(left);
      sent := |lifecycle|;
      ok := SendInOrder(Lifecycle(lifecycle));
    }

    method GenerateNormal(count: nat) returns (ok: bool)
      requires AtRest() && ComesNext(NormalPlan(random, draws, count))
      modifies this, sink
      ensures ok ==> AtRest() && orderSequence == old(orderSequence + |NormalPlan(random, draws, count)|)
      ensures !ok ==> StoppedEarly()
    {
      ghost var end := orderSequence + |NormalPlan(random, draws, count)|;
      var left: nat := count;
      while left > 0
        invariant orderSequence + |NormalPlan(random, draws, left)| == end
        invariant AtRest() && ComesNext(NormalPlan(random, draws, left))
      {
        var sent;
        ok, sent := SendLifecycle(left);
        if !ok { return; }
        left := left - sent;
      }
      ok := true;
    }

    method GenerateSpecials(outOfOrder: nat, invalid: nat) returns (ok: bool)
      requires AtRest() && orderSequence == 0
      requires IsPart(plan, 0, OutOfOrderPlan(outOfOrder)) && IsPart(plan, outOfOrder, InvalidPlan(invalid))
      modifies this, sink
      ensures draws == old(draws)
      ensures ok ==> AtRest() && orderSequence == outOfOrder + invalid
      ensures !ok ==> StoppedEarly()
    {
      ok := GenerateOutOfOrder(outOfOrder);
      if !ok { return; }
      ok := GenerateInvalid(invalid);
    }

    /** The three parts one after the other; the last fills up to the wanted unique events. */
    method GenerateAll(outOfOrder: nat, invalid: nat, uniqueTarget: nat, ghost left: nat) returns (ok: bool)
      requires AtRest() && orderSequence == 0 && draws == 0
      requires IsPart(plan, 0, OutOfOrderPlan(outOfOrder)) && IsPart(plan, outOfOrder, InvalidPlan(invalid))
      requires IsPart(plan, outOfOrder + invalid, NormalPlan(random, 0, left))
      requires |plan| == outOfOrder + invalid + |NormalPlan(random, 0, left)|
      requires |story(outOfOrder + invalid)| + left == uniqueTarget
      modifies this, sink
      ensures ok ==> Valid() && unique == Goal() && summary.uniqueOrderIds == |plan|
      ensures !ok ==> StoppedEarly()
    {
      ok := GenerateSpecials(outOfOrder, invalid);
      if !ok { return; }
      assert summary.uniqueEventIds == |story(outOfOrder + invalid)|;
      assert ComesNext(NormalPlan(random, draws, left));
      ok := GenerateNormal(uniqueTarget - summary.uniqueEventIds);
    }
  }
}
