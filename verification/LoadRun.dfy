/** A whole producer run: what is generated, what is published, and exactly when it succeeds. */
module LoadRun {
  import opened Domain
  import opened Workload
  import opened Producer

  datatype ProducerError =
    | ConfigRejected(error: ConfigError)
    | PublishFailed
    | WrongTotal(generated: nat, wanted: int)

  datatype Result = Done(summary: Summary) | Failed(error: ProducerError)

  /** Everything an accepted configuration sends when no publish call fails. */
  function Load(c: Config, random: nat -> nat): seq<GeneratedEvent>
    requires Validate(c) == None
  {
    WithDuplicates(UniqueEvents(NamesOf(c.seed), Plan(c, random)), Targets(c).duplicates)
  }

  // ----- counting labels -----

  /** How many scenarios of a plan send an early event, and how many an impossible one. */
  function LabelCounts(plan: seq<Scenario>): (nat, nat)
    decreases |plan|
  {
    if plan == [] then (0, 0)
    else
      var s, before := plan[|plan| - 1], LabelCounts(plan[..|plan| - 1]);
      (before.0 + (if s.PaidBeforeCreated? || s.ShippedBeforePaid? then 1 else 0),
       before.1 + (if s.CancelledAfterShipped? then 1 else 0))
  }

  lemma {:induction false} LabelCountsConcat(a: seq<Scenario>, b: seq<Scenario>)
    ensures LabelCounts(a + b) == (LabelCounts(a).0 + LabelCounts(b).0, LabelCounts(a).1 + LabelCounts(b).1)
    decreases |b|
  {
    if b == [] {
      assert a + b == a;
    } else {
      var n := |b| - 1;
      assert (a + b)[..|a + b| - 1] == a + b[..n];
      LabelCountsConcat(a, b[..n]);
    }
  }

  lemma {:induction false} PartLabels(part: seq<Scenario>)
    ensures (forall k :: 0 <= k < |part| ==> part[k].PaidBeforeCreated? || part[k].ShippedBeforePaid?)
            ==> LabelCounts(part) == (|part|, 0)
    ensures (forall k :: 0 <= k < |part| ==> part[k].CancelledAfterShipped?) ==> LabelCounts(part) == (0, |part|)
    ensures (forall k :: 0 <= k < |part| ==> part[k].Lifecycle?) ==> LabelCounts(part) == (0, 0)
    decreases |part|
  {
    if part != [] {
      PartLabels(part[..|part| - 1]);
    }
  }

  lemma {:induction false} NormalPlanIsNormal(random: nat -> nat, draw: nat, count: nat)
    ensures forall k :: 0 <= k < |NormalPlan(random, draw, count)| ==> NormalPlan(random, draw, count)[k].Lifecycle?
    decreases count
  {
    if count > 0 {
      NormalPlanIsNormal(random, draw + 1, count - |Pick(random, draw, count)|);
    }
  }

  lemma SpecialLabels(outOfOrder: nat, invalid: nat)
    ensures LabelCounts(Specials(outOfOrder, invalid)) == (outOfOrder, invalid)
  {
    PartLabels(OutOfOrderPlan(outOfOrder));
    PartLabels(InvalidPlan(invalid));
    LabelCountsConcat(OutOfOrderPlan(outOfOrder), InvalidPlan(invalid));
  }

  lemma NormalLabels(random: nat -> nat, draw: nat, count: nat)
    ensures LabelCounts(NormalPlan(random, draw, count)) == (0, 0)
  {
    NormalPlanIsNormal(random, draw, count);
    PartLabels(NormalPlan(random, draw, count));
  }

  lemma MixedLabels(first: seq<Scenario>, random: nat -> nat, count: nat)
    ensures LabelCounts(first + NormalPlan(random, 0, count)) == LabelCounts(first)
  {
    NormalLabels(random, 0, count);
    LabelCountsConcat(first, NormalPlan(random, 0, count));
  }

  lemma PlanLabels(t: Counts, random: nat -> nat)
    requires IsFeasible(t)
    ensures LabelCounts(PlanOf(t, random)) == (t.outOfOrder, t.invalid)
  {
    var left := PlanParts(t, random);
    SpecialLabels(t.outOfOrder, t.invalid);
    MixedLabels(Specials(t.outOfOrder, t.invalid), random, left);
  }

  lemma {:induction false} CountsConcat(a: seq<GeneratedEvent>, b: seq<GeneratedEvent>)
    ensures CountOutOfOrder(a + b) == CountOutOfOrder(a) + CountOutOfOrder(b)
    ensures CountInvalid(a + b) == CountInvalid(a) + CountInvalid(b)
    decreases |b|
  {
    if b == [] {
      assert a + b == a;
    } else {
      var n := |b| - 1;
      assert (a + b)[..|a + b| - 1] == a + b[..n];
      CountsConcat(a, b[..n]);
    }
  }

  /** Only the first event can be early and only the fourth impossible. */
  lemma {:induction false} FlagsAtTheirPlace(events: seq<GeneratedEvent>)
    requires forall k :: 0 < k < |events| ==> !events[k].outOfOrder
    requires forall k :: 0 <= k < |events| && k != 3 ==> !events[k].invalid
    ensures CountOutOfOrder(events) == if |events| > 0 && events[0].outOfOrder then 1 else 0
    ensures CountInvalid(events) == if |events| > 3 && events[3].invalid then 1 else 0
    decreases |events|
  {
    if events != [] {
      FlagsAtTheirPlace(events[..|events| - 1]);
    }
  }

  lemma SentLabels(names: Naming, s: Scenario, order: nat, before: nat)
    requires Statuses(s) != []
    ensures CountOutOfOrder(Sent(names, s, order, before)) == if s.PaidBeforeCreated? || s.ShippedBeforePaid? then 1 else 0
    ensures CountInvalid(Sent(names, s, order, before)) == if s.CancelledAfterShipped? then 1 else 0
  {
    FlagsAtTheirPlace(Sent(names, s, order, before));
  }

  ghost predicate HaveEvents(plan: seq<Scenario>) {
    forall k :: 0 <= k < |plan| ==> Statuses(plan[k]) != []
  }

  lemma LastLabels(names: Naming, plan: seq<Scenario>)
    requires plan != [] && Statuses(plan[|plan| - 1]) != []
    ensures var before, s := plan[..|plan| - 1], plan[|plan| - 1];
            && CountOutOfOrder(UniqueEvents(names, plan))
               == CountOutOfOrder(UniqueEvents(names, before)) + (if s.PaidBeforeCreated? || s.ShippedBeforePaid? then 1 else 0)
            && CountInvalid(UniqueEvents(names, plan))
               == CountInvalid(UniqueEvents(names, before)) + (if s.CancelledAfterShipped? then 1 else 0)
  {
    var n := |plan| - 1;
    CountsConcat(UniqueEvents(names, plan[..n]), Sent(names, plan[n], |plan|, Size(plan[..n])));
    SentLabels(names, plan[n], |plan|, Size(plan[..n]));
  }

  /** The labels on the unique events of a plan count its special scenarios. */
  lemma {:induction false} StoryLabels(names: Naming, plan: seq<Scenario>)
    requires HaveEvents(plan)
    ensures CountOutOfOrder(UniqueEvents(names, plan)) == LabelCounts(plan).0
    ensures CountInvalid(UniqueEvents(names, plan)) == LabelCounts(plan).1
    decreases |plan|
  {
    if plan != [] {
      StoryLabels(names, plan[..|plan| - 1]);
      LastLabels(names, plan);
    }
  }

  lemma {:induction false} NormalPlanHasEvents(random: nat -> nat, draw: nat, count: nat)
    ensures HaveEvents(NormalPlan(random, draw, count))
    decreases count
  {
    if count > 0 {
      NormalPlanHasEvents(random, draw + 1, count - |Pick(random, draw, count)|);
    }
  }

  lemma PlanHasEvents(t: Counts, random: nat -> nat)
    requires IsFeasible(t)
    ensures HaveEvents(PlanOf(t, random))
  {
    var left := PlanParts(t, random);
    NormalPlanHasEvents(random, 0, left);
  }

  /** What the summary of a complete run says. */
  function FullSummary(c: Config, random: nat -> nat): Summary
    requires Validate(c) == None
  {
    var t := Targets(c);
    Counted(c.total, t.unique + AtMost(t.duplicates, t.unique), t.unique, AtMost(t.duplicates, t.unique),
            |Plan(c, random)|, t.outOfOrder, t.invalid)
  }

  lemma UniqueCounts(names: Naming, t: Counts, random: nat -> nat)
    requires IsFeasible(t)
    ensures var unique := UniqueEvents(names, PlanOf(t, random));
            && |unique| == t.unique && CountOutOfOrder(unique) == t.outOfOrder && CountInvalid(unique) == t.invalid
            && |WithDuplicates(unique, t.duplicates)| == t.unique + AtMost(t.duplicates, t.unique)
  {
    PlanOfSize(t, random);
    PlanLabels(t, random);
    PlanHasEvents(t, random);
    StoryLabels(names, PlanOf(t, random));
    WithDuplicatesSize(UniqueEvents(names, PlanOf(t, random)), t.duplicates);
  }

  /** Counting the load: the targets are met, but no unique event has more than one duplicate. */
  lemma LoadCounts(c: Config, random: nat -> nat)
    requires Validate(c) == None
    ensures var unique := UniqueEvents(NamesOf(c.seed), Plan(c, random));
            SummaryOf(c, unique, Targets(c).duplicates, |Plan(c, random)|) == FullSummary(c, random)
    ensures |Load(c, random)| == c.total <==> Targets(c).duplicates <= Targets(c).unique
  {
    TargetsAreFeasible(c);
    UniqueCounts(NamesOf(c.seed), Targets(c), random);
  }

  /** What the summary of a complete run has to do with the ratios: each count is the whole part of
      its share of the total, and unique events and duplicates make up the total. */
  lemma SummaryMeetsTheRatios(c: Config, random: nat -> nat)
    requires Validate(c) == None
    ensures var s := FullSummary(c, random);
            && s.totalRequested == c.total
            && IsShare(s.outOfOrderEvents, c.total, c.outOfOrderRatio)
            && IsShare(s.invalidTransitionEvents, c.total, c.invalidRatio)
            && IsShare(c.total - s.uniqueEventIds, c.total, c.duplicateRatio)
            && s.uniqueEventIds + s.duplicateEvents == s.totalPublished
            && (s.totalPublished == c.total <==> IsShare(s.duplicateEvents, c.total, c.duplicateRatio))
            && s.uniqueOrderIds == |Plan(c, random)|
  {
    TargetsMeetTheRatios(c);
    var t := Targets(c);
    ShareIsUnique(c.total, c.duplicateRatio, t.duplicates, AtMost(t.duplicates, t.unique));
  }

  /** A configuration that validation accepts although its run cannot reach the total. */
  lemma AcceptedButUnreachable(random: nat -> nat) returns (c: Config)
    ensures Validate(c) == None && |Load(c, random)| != c.total
  {
    c := Config(4, 0.75, 0.0, 0.0, "localhost:6379", "orders", "workers", 1, 100);
    LoadCounts(c, random);
  }

  // ----- the run -----

  lemma PartsInPlace(plan: seq<Scenario>, outOfOrder: nat, invalid: nat, rest: seq<Scenario>)
    requires plan == Specials(outOfOrder, invalid) + rest
    ensures IsPart(plan, 0, OutOfOrderPlan(outOfOrder)) && IsPart(plan, outOfOrder, InvalidPlan(invalid))
    ensures IsPart(plan, outOfOrder + invalid, rest) && |plan| == outOfOrder + invalid + |rest|
    ensures Take(plan, outOfOrder + invalid) == Specials(outOfOrder, invalid)
  {
  }

  lemma StoryIsSized(names: Naming, plan: seq<Scenario>, story: nat -> seq<GeneratedEvent>, k: nat)
    requires IsStory(names, plan, story) && k <= |plan|
    ensures |story(k)| == Size(Take(plan, k))
  {
  }

  /** The plan is the special scenarios followed by normal ones that fill up the unique events. */
  ghost predicate IsPlanned(t: Counts, random: nat -> nat, plan: seq<Scenario>, left: nat) {
    && plan == Specials(t.outOfOrder, t.invalid) + NormalPlan(random, 0, left)
    && Size(Specials(t.outOfOrder, t.invalid)) + left == t.unique
  }

  lemma PlanInParts(names: Naming, plan: seq<Scenario>, t: Counts, random: nat -> nat, left: nat,
                    story: nat -> seq<GeneratedEvent>)
    requires IsPlanned(t, random, plan, left) && IsStory(names, plan, story)
    ensures IsPart(plan, 0, OutOfOrderPlan(t.outOfOrder)) && IsPart(plan, t.outOfOrder, InvalidPlan(t.invalid))
    ensures IsPart(plan, t.outOfOrder + t.invalid, NormalPlan(random, 0, left))
    ensures |plan| == t.outOfOrder + t.invalid + |NormalPlan(random, 0, left)|
    ensures |story(t.outOfOrder + t.invalid)| + left == t.unique
  {
    PartsInPlace(plan, t.outOfOrder, t.invalid, NormalPlan(random, 0, left));
    StoryIsSized(names, plan, story, t.outOfOrder + t.invalid);
  }

  /** What a run with an accepted configuration leaves in the sink. */
  ghost predicate IsOutcome(c: Config, random: nat -> nat, sink: BatchPublisher, result: Result)
    requires Validate(c) == None
    reads sink
  {
    match result
    case Done(summary) =>
      && sink.Valid() && sink.emitted == Load(c, random)
      && summary == FullSummary(c, random) && Targets(c).duplicates <= Targets(c).unique
    case Failed(PublishFailed) => sink.published <= EventsOf(Load(c, random)) && !sink.Answered(|Load(c, random)|)
    case Failed(WrongTotal(generated, wanted)) =>
      && sink.Valid() && sink.emitted == Load(c, random)
      && generated == |Load(c, random)| && wanted == c.total && Targets(c).duplicates > Targets(c).unique
    case Failed(ConfigRejected(_)) => false
  }

  /** Sends the load of a configuration to the sink. A run whose total falls short fails only
      after everything was sent. */
  method Generate(c: Config, random: nat -> nat, sink: BatchPublisher) returns (result: Result)
    requires sink.Valid() && sink.emitted == []
    modifies sink
    ensures Validate(c).Some? ==>
              result == Failed(ConfigRejected(Validate(c).value)) && sink.published == old(sink.published)
    ensures Validate(c).None? ==> IsOutcome(c, random, sink, result)
  {
    var rejected := Validate(c);
    if rejected.Some? {
      return Failed(ConfigRejected(rejected.value));
    }
    result := GenerateLoad(c, random, sink);
  }

  lemma LoadIsSent(c: Config, random: nat -> nat, unique: seq<GeneratedEvent>, emitted: seq<GeneratedEvent>, summary: Summary)
    requires Validate(c) == None
    requires unique == UniqueEvents(NamesOf(c.seed), Plan(c, random))
    requires emitted == WithDuplicates(unique, Targets(c).duplicates)
    requires summary == SummaryOf(c, unique, Targets(c).duplicates, |Plan(c, random)|)
    ensures emitted == Load(c, random) && summary == FullSummary(c, random)
    ensures summary.totalPublished == c.total <==> Targets(c).duplicates <= Targets(c).unique
  {
    LoadCounts(c, random);
  }

  /** A fresh generator, sent through its three parts. */
  method RunGenerator(c: Config, random: nat -> nat, sink: BatchPublisher, t: Counts, ghost plan: seq<Scenario>, ghost left: nat)
    returns (generator: EventGenerator, ok: bool)
    requires IsPlanned(t, random, plan, left) && sink.Valid() && sink.emitted == []
    modifies sink
    ensures generator.config == c && generator.sink == sink && generator.duplicates == t.duplicates
    ensures generator.plan == plan && generator.Goal() == UniqueEvents(NamesOf(c.seed), plan)
    ensures ok ==> generator.Valid() && generator.unique == generator.Goal()
                   && generator.summary.uniqueOrderIds == |plan|
    ensures !ok ==> generator.StoppedEarly()
  {
    generator := new EventGenerator(c, random, sink, t.duplicates, plan);
    StoryBounds(generator.names, plan, generator.story);
    PlanInParts(generator.names, plan, t, random, left, generator.story);
    ok := generator.GenerateAll(t.outOfOrder, t.invalid, t.unique, left);
  }

  /** The run of an accepted configuration. */
  method GenerateLoad(c: Config, random: nat -> nat, sink: BatchPublisher) returns (result: Result)
    requires Validate(c) == None && sink.Valid() && sink.emitted == []
    modifies sink
    ensures IsOutcome(c, random, sink, result)
  {
    TargetsAreFeasible(c);
    ghost var left := PlanParts(Targets(c), random);
    var generator, ok := RunGenerator(c, random, sink, Targets(c), Plan(c, random), left);
    if !ok {
      return Failed(PublishFailed);
    }
    LoadIsSent(c, random, generator.unique, sink.emitted, generator.summary);
    if generator.summary.totalPublished != c.total {
      return Failed(WrongTotal(generator.summary.totalPublished, c.total));
    }
    result := Done(generator.summary);
  }

  /** Generates into a fresh batch, then publishes what is left in it. */
  method PublishGenerated(c: Config, random: nat -> nat, fates: nat -> PublishFate)
    returns (result: Result, published: seq<OrderEvent>)
    requires c.batchSize >= 0
    ensures Validate(c).Some? ==> result == Failed(ConfigRejected(Validate(c).value)) && published == []
    ensures Validate(c).None? ==>
              && published <= EventsOf(Load(c, random))
              && (result.Done? ==> published == EventsOf(Load(c, random)) && result.summary == FullSummary(c, random))
              && (result.Done? ==> result.summary.totalPublished == |published| == c.total)
              && (result.Failed? ==>
                    || result.error == PublishFailed
                    || (result.error == WrongTotal(|Load(c, random)|, c.total)
                        && Targets(c).duplicates > Targets(c).unique))
    ensures Validate(c).None? ==>
              (result.Done? <==>
                 && Targets(c).duplicates <= Targets(c).unique
                 && forall call: nat :: call < |Load(c, random)| ==> fates(call) == Stored)
  {
    var sink := new BatchPublisher(c.batchSize, fates);
    result := Generate(c, random, sink);
    if result.Done? {
      LoadCounts(c, random);
      var ok := sink.Flush();
      result := if ok then Done(result.summary.(totalPublished := sink.totalPublished)) else Failed(PublishFailed);
    }
    published := sink.published;
  }
}
