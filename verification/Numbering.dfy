/** Sequence numbers and times of the generated events, and why their orders converge. */
module Numbering {
  import opened Domain
  import opened Schema
  import opened Processor
  import opened Runs
  import opened Convergence
  import opened Workload
  import opened Producer
  import opened LoadRun

  /** The place in the numbering, counted from 0, of the j-th unique event sent. */
  function SlotAt(plan: seq<Scenario>, j: nat): nat
    requires j < Size(plan)
    decreases |plan|
  {
    var n := |plan| - 1;
    var before := Size(plan[..n]);
    if j < before then SlotAt(plan[..n], j) else before + StepAt(plan[n], j - before)
  }

  lemma StepsArePermuted(s: Scenario, i: nat, j: nat)
    requires i < |Statuses(s)| && j < |Statuses(s)|
    ensures StepAt(s, i) < |Statuses(s)|
    ensures i != j ==> StepAt(s, i) != StepAt(s, j)
  {
  }

  lemma {:induction false} SlotsArePermuted(plan: seq<Scenario>, i: nat, j: nat)
    requires i < Size(plan) && j < Size(plan)
    ensures SlotAt(plan, i) < Size(plan)
    ensures i != j ==> SlotAt(plan, i) != SlotAt(plan, j)
    decreases |plan|
  {
    var n := |plan| - 1;
    var before := Size(plan[..n]);
    if i < before && j < before {
      SlotsArePermuted(plan[..n], i, j);
    } else if i < before {
      SlotsArePermuted(plan[..n], i, i);
      StepsArePermuted(plan[n], j - before, j - before);
    } else if j < before {
      SlotsArePermuted(plan[..n], j, j);
      StepsArePermuted(plan[n], i - before, i - before);
    } else {
      StepsArePermuted(plan[n], i - before, j - before);
    }
  }

  lemma PositionOfStep(s: Scenario, step: nat) returns (k: nat)
    requires step < |Statuses(s)|
    ensures k < |Statuses(s)| && StepAt(s, k) == step
  {
    match s
    case PaidBeforeCreated => k := 1 - step;
    case ShippedBeforePaid => k := if step == 2 then 0 else step + 1;
    case _ => k := step;
  }

  lemma {:induction false} PositionOfSlot(plan: seq<Scenario>, slot: nat) returns (j: nat)
    requires slot < Size(plan)
    ensures j < Size(plan) && SlotAt(plan, j) == slot
    decreases |plan|
  {
    var n := |plan| - 1;
    var before := Size(plan[..n]);
    if slot < before {
      j := PositionOfSlot(plan[..n], slot);
    } else {
      var k := PositionOfStep(plan[n], slot - before);
      j := before + k;
    }
  }

  /** The event at position j, told by its order `k + 1` and its step in that order's story. */
  ghost predicate IsStepOf(names: Naming, plan: seq<Scenario>, e: OrderEvent, slot: nat, k: nat, step: nat) {
    && k < |plan| && step < |Statuses(plan[k])|
    && slot == Size(plan[..k]) + step
    && e == NewEvent(names, k + 1, Statuses(plan[k])[step], slot + 1, slot)
  }

  lemma EventInPart(names: Naming, plan: seq<Scenario>, j: nat)
    requires j < Size(plan)
    ensures var n := |plan| - 1;
            var before := Size(plan[..n]);
            UniqueEvents(names, plan)[j]
            == if j < before then UniqueEvents(names, plan[..n])[j]
               else SentAt(names, plan[n], |plan|, before, j - before)
  {
  }

  lemma StepOfLonger(names: Naming, plan: seq<Scenario>, n: nat, e: OrderEvent, slot: nat, k: nat, step: nat)
    requires n <= |plan| && IsStepOf(names, plan[..n], e, slot, k, step)
    ensures IsStepOf(names, plan, e, slot, k, step)
  {
    assert plan[..n][..k] == plan[..k];
  }

  lemma {:induction false} EventAtSlot(names: Naming, plan: seq<Scenario>, j: nat) returns (k: nat, step: nat)
    requires j < Size(plan)
    ensures IsStepOf(names, plan, UniqueEvents(names, plan)[j].event, SlotAt(plan, j), k, step)
    decreases |plan|
  {
    var n := |plan| - 1;
    var before := Size(plan[..n]);
    EventInPart(names, plan, j);
    if j < before {
      k, step := EventAtSlot(names, plan[..n], j);
      StepOfLonger(names, plan, n, UniqueEvents(names, plan)[j].event, SlotAt(plan, j), k, step);
    } else {
      k, step := n, StepAt(plan[n], j - before);
      StepsArePermuted(plan[n], j - before, j - before);
    }
  }

  lemma NumberAt(names: Naming, plan: seq<Scenario>, j: nat)
    requires j < Size(plan)
    ensures var e := UniqueEvents(names, plan)[j].event;
            e.eventId == names.eventId(SlotAt(plan, j) + 1) && e.timestamp == names.time(SlotAt(plan, j))
  {
    var k, step := EventAtSlot(names, plan, j);
  }

  lemma NumberIsUnique(names: Naming, plan: seq<Scenario>, i: nat, j: nat)
    requires IsSoundNaming(names) && i < Size(plan) && j < Size(plan) && i != j
    ensures UniqueEvents(names, plan)[i].event.eventId != UniqueEvents(names, plan)[j].event.eventId
  {
    NumberAt(names, plan, i);
    NumberAt(names, plan, j);
    SlotsArePermuted(plan, i, j);
  }

  lemma NumberOnce(names: Naming, plan: seq<Scenario>, slot: nat) returns (j: nat)
    requires IsSoundNaming(names) && slot < Size(plan)
    ensures var unique := UniqueEvents(names, plan);
            && j < |unique|
            && unique[j].event.eventId == names.eventId(slot + 1) && unique[j].event.timestamp == names.time(slot)
            && forall i :: 0 <= i < |unique| && i != j ==> unique[i].event.eventId != unique[j].event.eventId
  {
    j := PositionOfSlot(plan, slot);
    NumberAt(names, plan, j);
    forall i | 0 <= i < Size(plan) && i != j
      ensures UniqueEvents(names, plan)[i].event.eventId != UniqueEvents(names, plan)[j].event.eventId
    {
      NumberIsUnique(names, plan, i, j);
    }
  }

  lemma NamesInFull(seed: int, n: nat)
    ensures NamesOf(seed).eventId(n) == EventIdOf(seed, n) && NamesOf(seed).orderId(n) == OrderIdOf(seed, n)
    ensures NamesOf(seed).time(n) == TimeOf(seed, n)
  {
  }

  /** Every number from 1 to the count of unique events is used by exactly one of them, and the
      event with number n has the time of index n - 1: n - 1 seconds after the base time, exactly
      as long as the duration does not wrap around. */
  lemma EveryNumberOnce(c: Config, random: nat -> nat, n: nat) returns (j: nat)
    requires Validate(c) == None && 1 <= n <= Targets(c).unique
    ensures var unique := UniqueEvents(NamesOf(c.seed), Plan(c, random));
            && j < |unique| == Targets(c).unique
            && unique[j].event.eventId == EventIdOf(c.seed, n)
            && unique[j].event.timestamp == TimeOf(c.seed, n - 1)
            && (unique[j].event.timestamp == BaseTime(c.seed) + (n - 1) * SECOND <==> n - 1 <= MAX_SECONDS)
            && forall i :: 0 <= i < |unique| && i != j ==> unique[i].event.eventId != unique[j].event.eventId
  {
    PlanSize(c, random);
    NamesAreSound(c.seed);
    NamesInFull(c.seed, n);
    NamesInFull(c.seed, n - 1);
    TimeIsLinear(c.seed, n - 1);
    j := NumberOnce(NamesOf(c.seed), Plan(c, random), n - 1);
  }

  // ----- the dates of one order -----

  /** A story starts with CREATED; PAID can only be its second step and SHIPPED its third, after PAID. */
  predicate IsStaged(s: Scenario) {
    var statuses := Statuses(s);
    && 0 < |statuses| <= 4 && statuses[0] == Created
    && (forall i :: 0 <= i < |statuses| ==> statuses[i].IsKnown())
    && (forall i :: 0 < i < |statuses| ==> statuses[i] != Created)
    && (forall i :: 0 <= i < |statuses| && statuses[i] == Paid ==> i == 1)
    && (forall i :: 0 <= i < |statuses| && statuses[i] == Shipped ==> i == 2 && statuses[1] == Paid)
  }

  lemma NormalPlanIsStaged(random: nat -> nat, draw: nat, count: nat, k: nat)
    requires k < |NormalPlan(random, draw, count)|
    ensures IsStaged(NormalPlan(random, draw, count)[k])
  {
    var d, n := NormalPlanAt(random, draw, count, NormalPlan(random, draw, count), k);
    PickIsStaged(random, d, n);
  }

  lemma PickIsStaged(random: nat -> nat, draw: nat, count: nat)
    requires count > 0
    ensures IsStaged(Lifecycle(Pick(random, draw, count)))
  {
  }

  lemma SpecialsAreStaged(outOfOrder: nat, invalid: nat, k: nat)
    requires k < outOfOrder + invalid
    ensures IsStaged(Specials(outOfOrder, invalid)[k])
  {
  }

  lemma PlanOfIsStaged(t: Counts, random: nat -> nat, k: nat)
    requires IsFeasible(t) && k < |PlanOf(t, random)|
    ensures IsStaged(PlanOf(t, random)[k])
  {
    var left := PlanParts(t, random);
    if k >= t.outOfOrder + t.invalid {
      NormalPlanIsStaged(random, 0, left, k - t.outOfOrder - t.invalid);
    } else {
      SpecialsAreStaged(t.outOfOrder, t.invalid, k);
    }
  }

  lemma PlanIsStaged(c: Config, random: nat -> nat, k: nat)
    requires Validate(c) == None && k < |Plan(c, random)|
    ensures IsStaged(Plan(c, random)[k])
  {
    TargetsAreFeasible(c);
    PlanOfIsStaged(Targets(c), random, k);
  }

  lemma {:induction false} SizesGrow(plan: seq<Scenario>, k: nat)
    requires k < |plan|
    ensures Size(plan[..k]) + |Statuses(plan[k])| <= Size(plan)
    decreases |plan|
  {
    var n := |plan| - 1;
    if k < n {
      SizesGrow(plan[..n], k);
      assert plan[..n][..k] == plan[..k];
    }
  }

  lemma SameStory(names: Naming, plan: seq<Scenario>,
                  p: OrderEvent, a: nat, k: nat, i: nat, s: OrderEvent, b: nat, l: nat, j: nat)
    requires IsSoundNaming(names) && p.orderId == s.orderId
    requires IsStepOf(names, plan, p, a, k, i) && IsStepOf(names, plan, s, b, l, j)
    ensures k == l && Statuses(plan[k])[i] == p.status && Statuses(plan[k])[j] == s.status
    ensures a == Size(plan[..k]) + i && b == Size(plan[..k]) + j && a < Size(plan) && b < Size(plan)
    ensures p.timestamp == names.time(a) && s.timestamp == names.time(b)
  {
    assert names.orderId(k + 1) == names.orderId(l + 1);
    SizesGrow(plan, k);
  }

  /** Two events of one order are steps of the same story, at slots as far apart as the steps. */
  lemma StepsOfOneStory(names: Naming, plan: seq<Scenario>, x: nat, y: nat) returns (k: nat, i: nat, j: nat)
    requires IsSoundNaming(names)
    requires x < Size(plan) && y < Size(plan)
    requires UniqueEvents(names, plan)[x].event.orderId == UniqueEvents(names, plan)[y].event.orderId
    ensures var a, b := UniqueEvents(names, plan)[x].event, UniqueEvents(names, plan)[y].event;
            && k < |plan| && i < |Statuses(plan[k])| && j < |Statuses(plan[k])|
            && a.status == Statuses(plan[k])[i] && b.status == Statuses(plan[k])[j]
            && SlotAt(plan, x) == Size(plan[..k]) + i && SlotAt(plan, y) == Size(plan[..k]) + j
            && a.timestamp == names.time(SlotAt(plan, x)) && b.timestamp == names.time(SlotAt(plan, y))
  {
    var l;
    k, i := EventAtSlot(names, plan, x);
    l, j := EventAtSlot(names, plan, y);
    SameStory(names, plan, UniqueEvents(names, plan)[x].event, SlotAt(plan, x), k, i,
              UniqueEvents(names, plan)[y].event, SlotAt(plan, y), l, j);
  }

  lemma SlotsDatedInOrder(seed: int, a: nat, b: nat)
    requires a < b <= a + 3
    ensures NamesOf(seed).time(a) < NamesOf(seed).time(b) <==> Era(a) == Era(b)
    ensures NamesOf(seed).time(a) != NamesOf(seed).time(b)
  {
    NamesInFull(seed, a);
    NamesInFull(seed, b);
    DatedInOrder(seed, a, b);
  }

  predicate AreStaged(plan: seq<Scenario>) {
    forall k :: 0 <= k < |plan| ==> IsStaged(plan[k])
  }

  lemma PlansAreStaged(c: Config, random: nat -> nat)
    requires Validate(c) == None
    ensures AreStaged(Plan(c, random))
  {
    forall k | 0 <= k < |Plan(c, random)|
      ensures IsStaged(Plan(c, random)[k])
    {
      PlanIsStaged(c, random, k);
    }
  }

  lemma StoryIsShort(plan: seq<Scenario>, k: nat)
    requires AreStaged(plan) && k < |plan|
    ensures |Statuses(plan[k])| <= 4
  {
    assert IsStaged(plan[k]);
  }

  lemma DatedByEra(seed: int, plan: seq<Scenario>, x: nat, y: nat, k: nat, i: nat, j: nat)
    requires AreStaged(plan) && x < Size(plan) && y < Size(plan) && k < |plan|
    requires i < j < |Statuses(plan[k])|
    requires SlotAt(plan, x) == Size(plan[..k]) + i && SlotAt(plan, y) == Size(plan[..k]) + j
    ensures NamesOf(seed).time(SlotAt(plan, x)) < NamesOf(seed).time(SlotAt(plan, y))
            <==> Era(SlotAt(plan, x)) == Era(SlotAt(plan, y))
  {
    StoryIsShort(plan, k);
    SlotsDatedInOrder(seed, SlotAt(plan, x), SlotAt(plan, y));
  }

  /** Two events of one generated order are steps of one lifecycle. The earlier step is dated
      before the later one exactly when the durations of both are in the same era. */
  lemma OrdersAreDatedInOrder(c: Config, random: nat -> nat, x: nat, y: nat) returns (k: nat, i: nat, j: nat)
    requires Validate(c) == None
    requires var unique := UniqueEvents(NamesOf(c.seed), Plan(c, random));
             x < |unique| && y < |unique| && unique[x].event.orderId == unique[y].event.orderId
    ensures var unique, plan := UniqueEvents(NamesOf(c.seed), Plan(c, random)), Plan(c, random);
            && k < |plan| && i < |Statuses(plan[k])| && j < |Statuses(plan[k])|
            && unique[x].event.status == Statuses(plan[k])[i] && unique[y].event.status == Statuses(plan[k])[j]
            && SlotAt(plan, x) == Size(plan[..k]) + i && SlotAt(plan, y) == Size(plan[..k]) + j
            && (i == j <==> x == y)
            && (i < j ==>
                  (unique[x].event.timestamp < unique[y].event.timestamp <==> Era(SlotAt(plan, x)) == Era(SlotAt(plan, y))))
  {
    NamesAreSound(c.seed);
    PlansAreStaged(c, random);
    k, i, j := StepsOfOneStory(NamesOf(c.seed), Plan(c, random), x, y);
    SlotsArePermuted(Plan(c, random), x, y);
    if i < j {
      DatedByEra(c.seed, Plan(c, random), x, y, k, i, j);
    }
  }
}
