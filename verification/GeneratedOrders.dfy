/** Which generated orders converge: exactly those whose payment and shipment lie in one era. */
module GeneratedOrders {
  import opened Domain
  import opened Schema
  import opened Processor
  import opened Invariants
  import opened Steps
  import opened Runs
  import opened Convergence
  import opened Workload
  import opened Producer
  import opened LoadRun
  import opened Numbering

  // ----- events of a plan -----

  /** The event is one of the plan. */
  ghost predicate IsTold(names: Naming, plan: seq<Scenario>, e: OrderEvent) {
    exists slot: nat, k: nat, step: nat :: IsStepOf(names, plan, e, slot, k, step)
  }

  lemma {:induction false} DuplicatesAddNothing(unique: seq<GeneratedEvent>, duplicates: nat, i: nat) returns (j: nat)
    requires i < |WithDuplicates(unique, duplicates)|
    ensures j < |unique| && WithDuplicates(unique, duplicates)[i].event == unique[j].event
    decreases |unique|
  {
    var n := |unique| - 1;
    if i < |WithDuplicates(unique[..n], duplicates)| {
      j := DuplicatesAddNothing(unique[..n], duplicates, i);
    } else {
      j := n;
    }
  }

  lemma UniqueIsTold(names: Naming, plan: seq<Scenario>, j: nat)
    requires j < Size(plan)
    ensures IsTold(names, plan, UniqueEvents(names, plan)[j].event)
  {
    var k, step := EventAtSlot(names, plan, j);
  }

  lemma LoadIsTold(c: Config, random: nat -> nat)
    requires Validate(c) == None
    ensures forall e :: e in EventsOf(Load(c, random)) ==> IsTold(NamesOf(c.seed), Plan(c, random), e)
  {
    forall e | e in EventsOf(Load(c, random))
      ensures IsTold(NamesOf(c.seed), Plan(c, random), e)
    {
      var i :| 0 <= i < |Load(c, random)| && EventsOf(Load(c, random))[i] == e;
      var j := DuplicatesAddNothing(UniqueEvents(NamesOf(c.seed), Plan(c, random)), Targets(c).duplicates, i);
      UniqueIsTold(NamesOf(c.seed), Plan(c, random), j);
    }
  }

  lemma SlotDeterminesStep(plan: seq<Scenario>, k: nat, i: nat, l: nat, j: nat)
    requires k < |plan| && l < |plan| && i < |Statuses(plan[k])| && j < |Statuses(plan[l])|
    requires Size(plan[..k]) + i == Size(plan[..l]) + j
    ensures k == l && i == j
  {
    if k < l {
      assert plan[..l][..k] == plan[..k];
      SizesGrow(plan[..l], k);
    } else if l < k {
      assert plan[..k][..l] == plan[..l];
      SizesGrow(plan[..k], l);
    }
  }

  lemma SameSlotSameEvent(names: Naming, plan: seq<Scenario>,
                          e: OrderEvent, k: nat, i: nat, f: OrderEvent, l: nat, j: nat, slot: nat)
    requires IsStepOf(names, plan, e, slot, k, i) && IsStepOf(names, plan, f, slot, l, j)
    ensures e == f
  {
    SlotDeterminesStep(plan, k, i, l, j);
  }

  lemma ToldSlot(names: Naming, plan: seq<Scenario>, e: OrderEvent) returns (slot: nat, k: nat, step: nat)
    requires IsTold(names, plan, e)
    ensures IsStepOf(names, plan, e, slot, k, step) && e.eventId == names.eventId(slot + 1)
  {
    slot, k, step :| IsStepOf(names, plan, e, slot, k, step);
  }

  /** Events of a plan with one id are one event. */
  lemma SameIdSameEvent(names: Naming, plan: seq<Scenario>, e: OrderEvent, f: OrderEvent)
    requires IsSoundNaming(names) && IsTold(names, plan, e) && IsTold(names, plan, f) && e.eventId == f.eventId
    ensures e == f
  {
    var a, k, i := ToldSlot(names, plan, e);
    var b, l, j := ToldSlot(names, plan, f);
    assert a + 1 == b + 1;
    SameSlotSameEvent(names, plan, e, k, i, f, l, j, a);
  }

  lemma {:induction false} AcceptedIsDelivered(deliveries: seq<OrderEvent>, id: EventId) returns (k: nat)
    requires id in Accepted(deliveries)
    ensures k < |deliveries| && ValidateEvent(deliveries[k]) == Domain.Valid(Accepted(deliveries)[id])
    decreases |deliveries|
  {
    var n := |deliveries| - 1;
    if id in Accepted(deliveries[..n]) {
      k := AcceptedIsDelivered(deliveries[..n], id);
    } else {
      k := n;
    }
  }

  // ----- the dates of payment and shipment decide -----

  ghost predicate ComeFromPlan(names: Naming, plan: seq<Scenario>, deliveries: seq<OrderEvent>) {
    forall k :: 0 <= k < |deliveries| ==> IsTold(names, plan, deliveries[k])
  }

  /** The key of step `step` of story `k`. */
  function KeyOfStep(names: Naming, plan: seq<Scenario>, k: nat, step: nat): Key
    requires k < |plan|
  {
    var slot := Size(plan[..k]) + step;
    Key(names.time(slot), names.eventId(slot + 1))
  }

  /** The key that a payment of story `k` has comes before the key that a shipment has. */
  predicate PaysOnTime(names: Naming, plan: seq<Scenario>, k: nat)
    requires k < |plan|
  {
    KeyLess(KeyOfStep(names, plan, k, 1), KeyOfStep(names, plan, k, 2))
  }

  lemma StepOfOrder(names: Naming, plan: seq<Scenario>, e: OrderEvent, k: nat) returns (step: nat)
    requires IsSoundNaming(names) && IsTold(names, plan, e) && k < |plan| && e.orderId == names.orderId(k + 1)
    ensures step < |Statuses(plan[k])| && e.status == Statuses(plan[k])[step]
    ensures EventKey(e) == KeyOfStep(names, plan, k, step)
  {
    var slot: nat, l: nat, j: nat :| IsStepOf(names, plan, e, slot, l, j);
    assert names.orderId(l + 1) == names.orderId(k + 1);
    step := j;
  }

  lemma AcceptedStep(names: Naming, plan: seq<Scenario>, deliveries: seq<OrderEvent>, k: nat, status: Status, id: EventId)
    returns (step: nat)
    requires IsSoundNaming(names) && ComeFromPlan(names, plan, deliveries) && k < |plan|
    requires Holds(Accepted(deliveries), names.orderId(k + 1), status, id)
    ensures step < |Statuses(plan[k])| && Statuses(plan[k])[step] == status
    ensures EventKey(Accepted(deliveries)[id]) == KeyOfStep(names, plan, k, step)
  {
    var i := AcceptedIsDelivered(deliveries, id);
    ValidationNormalizes(deliveries[i]);
    step := StepOfOrder(names, plan, deliveries[i], k);
  }

  lemma AcceptedPayment(names: Naming, plan: seq<Scenario>, deliveries: seq<OrderEvent>, k: nat, id: EventId)
    requires IsSoundNaming(names) && ComeFromPlan(names, plan, deliveries) && k < |plan| && AreStaged(plan)
    ensures Holds(Accepted(deliveries), names.orderId(k + 1), Paid, id) ==>
              EventKey(Accepted(deliveries)[id]) == KeyOfStep(names, plan, k, 1)
    ensures Holds(Accepted(deliveries), names.orderId(k + 1), Shipped, id) ==>
              EventKey(Accepted(deliveries)[id]) == KeyOfStep(names, plan, k, 2) && Shipped in Statuses(plan[k])
  {
    assert IsStaged(plan[k]);
    if Holds(Accepted(deliveries), names.orderId(k + 1), Paid, id) {
      var step := AcceptedStep(names, plan, deliveries, k, Paid, id);
    }
    if Holds(Accepted(deliveries), names.orderId(k + 1), Shipped, id) {
      var step := AcceptedStep(names, plan, deliveries, k, Shipped, id);
    }
  }

  /** Among events of one story some payment leads exactly when payments are dated before shipments. */
  lemma LeadingIsOnTime(names: Naming, plan: seq<Scenario>, deliveries: seq<OrderEvent>, k: nat)
    requires IsSoundNaming(names) && ComeFromPlan(names, plan, deliveries) && k < |plan| && AreStaged(plan)
    requires var events, o := Accepted(deliveries), names.orderId(k + 1); Has(events, o, Paid) && Has(events, o, Shipped)
    ensures PaymentLeads(Accepted(deliveries), names.orderId(k + 1)) <==> PaysOnTime(names, plan, k)
  {
    var events, o := Accepted(deliveries), names.orderId(k + 1);
    forall id
      ensures Holds(events, o, Paid, id) ==> EventKey(events[id]) == KeyOfStep(names, plan, k, 1)
      ensures Holds(events, o, Shipped, id) ==> EventKey(events[id]) == KeyOfStep(names, plan, k, 2)
    {
      AcceptedPayment(names, plan, deliveries, k, id);
    }
    var p :| p in events && Holds(events, o, Paid, p);
    var s :| s in events && Holds(events, o, Shipped, s);
    if PaysOnTime(names, plan, k) {
      assert LeadsShipments(events, o, p);
    }
  }

  /** The guard of convergence, told by the dates of the story. */
  predicate IsOnTime(names: Naming, plan: seq<Scenario>, k: nat, events: Events)
    requires k < |plan|
  {
    var o := names.orderId(k + 1);
    || !Has(events, o, Created)
    || (!Has(events, o, Cancelled)
        && (Has(events, o, Paid) && Has(events, o, Shipped) ==> PaysOnTime(names, plan, k)))
  }

  lemma AcceptedAreEvents(deliveries: seq<OrderEvent>, o: OrderId)
    ensures AreEventsOf(OrderEvents(Accepted(deliveries), o), o)
  {
    RunIsFaithful(deliveries);
    var t, events := Run(EMPTY_TABLES, deliveries), Accepted(deliveries);
    forall id | id in OrderEvents(events, o)
      ensures IsNormal(events[id]) && events[id].eventId == id
    {
      assert Matches(t.processed[id], id, events[id]);
    }
  }

  /** All deliveries of the accepted events of an order agree exactly when the story is on time. */
  lemma StoryConverges(names: Naming, plan: seq<Scenario>, deliveries: seq<OrderEvent>, k: nat)
    requires IsSoundNaming(names) && ComeFromPlan(names, plan, deliveries) && k < |plan| && AreStaged(plan)
    ensures var events, o := Accepted(deliveries), names.orderId(k + 1);
            && (IsConvergent(events, o) <==> IsOnTime(names, plan, k, events))
            && (AllDeliveriesAgree(OrderEvents(events, o), o) <==> IsOnTime(names, plan, k, events))
  {
    var events, o := Accepted(deliveries), names.orderId(k + 1);
    if Has(events, o, Paid) && Has(events, o, Shipped) {
      LeadingIsOnTime(names, plan, deliveries, k);
    }
    AcceptedAreEvents(deliveries, o);
    OrderEventsDecide(events, o);
    ConvergesExactlyWhen(OrderEvents(events, o), o);
  }

  // ----- and eras decide the dates -----

  /** No wrap-around of the clock lies between the payment and the shipment of story `k`. */
  predicate ShipsInEra(plan: seq<Scenario>, k: nat)
    requires k < |plan|
  {
    Era(Size(plan[..k]) + 1) == Era(Size(plan[..k]) + 2)
  }

  lemma OnTimeIsInEra(seed: int, plan: seq<Scenario>, k: nat)
    requires k < |plan|
    ensures PaysOnTime(NamesOf(seed), plan, k) <==> ShipsInEra(plan, k)
  {
    SlotsDatedInOrder(seed, Size(plan[..k]) + 1, Size(plan[..k]) + 2);
  }

  /** The exact condition under which a generated order converges, for the part of the load that
      was delivered: it was not created; or it was not cancelled, and if it was both paid and
      shipped, then in one era. */
  predicate StaysInEra(plan: seq<Scenario>, k: nat, events: Events, o: OrderId)
    requires k < |plan|
  {
    || !Has(events, o, Created)
    || (!Has(events, o, Cancelled) && (Has(events, o, Paid) && Has(events, o, Shipped) ==> ShipsInEra(plan, k)))
  }

  /** Whatever part of the load is delivered, in whatever order and however often: all deliveries
      of an order's part agree on the final status if and only if the condition holds, and then it
      is the status that the events determine. */
  lemma GeneratedOrdersConverge(c: Config, random: nat -> nat, deliveries: seq<OrderEvent>, k: nat)
    requires Validate(c) == None && k < |Plan(c, random)|
    requires forall i :: 0 <= i < |deliveries| ==> deliveries[i] in EventsOf(Load(c, random))
    ensures var events, o := Accepted(deliveries), OrderIdOf(c.seed, k + 1);
            && (AllDeliveriesAgree(OrderEvents(events, o), o) <==> StaysInEra(Plan(c, random), k, events, o))
            && (StaysInEra(Plan(c, random), k, events, o) ==>
                  CurrentStatus(Run(EMPTY_TABLES, deliveries), o) == FinalStatus(events, o))
  {
    var events, o := Accepted(deliveries), OrderIdOf(c.seed, k + 1);
    NamesAreSound(c.seed);
    NamesInFull(c.seed, k + 1);
    LoadIsTold(c, random);
    PlansAreStaged(c, random);
    StoryConverges(NamesOf(c.seed), Plan(c, random), deliveries, k);
    OnTimeIsInEra(c.seed, Plan(c, random), k);
    if IsConvergent(events, o) {
      RunConverges(deliveries, o);
    }
  }

  // ----- the whole load -----

  lemma {:induction false} DeliveredIsAccepted(deliveries: seq<OrderEvent>, k: nat)
    requires k < |deliveries| && ValidateEvent(deliveries[k]).Valid?
    ensures deliveries[k].eventId in Accepted(deliveries)
    decreases |deliveries|
  {
    var n := |deliveries| - 1;
    ValidationNormalizes(deliveries[k]);
    if k < n {
      DeliveredIsAccepted(deliveries[..n], k);
    }
  }

  lemma {:induction false} UniqueIsInLoad(unique: seq<GeneratedEvent>, duplicates: nat, j: nat) returns (i: nat)
    requires j < |unique|
    ensures i < |WithDuplicates(unique, duplicates)| && WithDuplicates(unique, duplicates)[i] == unique[j]
    decreases |unique|
  {
    var n := |unique| - 1;
    if j < n {
      i := UniqueIsInLoad(unique[..n], duplicates, j);
    } else {
      i := |WithDuplicates(unique[..n], duplicates)|;
    }
  }

  lemma StepIsUnique(names: Naming, plan: seq<Scenario>, k: nat, step: nat) returns (j: nat)
    requires k < |plan| && step < |Statuses(plan[k])|
    ensures j < Size(plan) && IsStepOf(names, plan, UniqueEvents(names, plan)[j].event, Size(plan[..k]) + step, k, step)
  {
    SizesGrow(plan, k);
    j := PositionOfSlot(plan, Size(plan[..k]) + step);
    var l, s := EventAtSlot(names, plan, j);
    SlotDeterminesStep(plan, k, step, l, s);
  }

  lemma StepIsDelivered(names: Naming, plan: seq<Scenario>, duplicates: nat, deliveries: seq<OrderEvent>, k: nat, step: nat)
    returns (i: nat, slot: nat)
    requires k < |plan| && step < |Statuses(plan[k])|
    requires deliveries == EventsOf(WithDuplicates(UniqueEvents(names, plan), duplicates))
    ensures i < |deliveries| && IsStepOf(names, plan, deliveries[i], slot, k, step)
  {
    slot := Size(plan[..k]) + step;
    var j := StepIsUnique(names, plan, k, step);
    i := UniqueIsInLoad(UniqueEvents(names, plan), duplicates, j);
  }

  lemma StepIsNormal(names: Naming, plan: seq<Scenario>, e: OrderEvent, slot: nat, k: nat, step: nat)
    requires IsSoundNaming(names) && AreStaged(plan) && IsStepOf(names, plan, e, slot, k, step)
    ensures IsNormal(e) && e.orderId == names.orderId(k + 1) && e.status == Statuses(plan[k])[step]
  {
    assert IsStaged(plan[k]);
    NewEventIsNormal(names, k + 1, Statuses(plan[k])[step], slot + 1, slot);
  }

  lemma DeliveredEventIsAccepted(names: Naming, plan: seq<Scenario>, deliveries: seq<OrderEvent>, i: nat)
    requires IsSoundNaming(names) && ComeFromPlan(names, plan, deliveries)
    requires i < |deliveries| && IsNormal(deliveries[i])
    ensures deliveries[i].eventId in Accepted(deliveries)
    ensures Accepted(deliveries)[deliveries[i].eventId] == deliveries[i]
  {
    var id := deliveries[i].eventId;
    DeliveredIsAccepted(deliveries, i);
    var j := AcceptedIsDelivered(deliveries, id);
    ValidationNormalizes(deliveries[j]);
    AcceptedKeepsId(deliveries, id);
    SameIdSameEvent(names, plan, deliveries[i], deliveries[j]);
  }

  lemma AcceptedKeepsId(deliveries: seq<OrderEvent>, id: EventId)
    requires id in Accepted(deliveries)
    ensures Accepted(deliveries)[id].eventId == id
  {
    AcceptedAreEvents(deliveries, Accepted(deliveries)[id].orderId);
    assert id in OrderEvents(Accepted(deliveries), Accepted(deliveries)[id].orderId);
  }

  lemma NewEventIsNormal(names: Naming, order: nat, status: Status, sequence: nat, timeIndex: nat)
    requires IsSoundNaming(names) && status.IsKnown()
    ensures IsNormal(NewEvent(names, order, status, sequence, timeIndex))
  {
  }

  lemma DeliveredStepIsAccepted(names: Naming, plan: seq<Scenario>, deliveries: seq<OrderEvent>,
                                i: nat, slot: nat, k: nat, step: nat)
    requires IsSoundNaming(names) && AreStaged(plan) && ComeFromPlan(names, plan, deliveries)
    requires i < |deliveries| && IsStepOf(names, plan, deliveries[i], slot, k, step)
    ensures Has(Accepted(deliveries), names.orderId(k + 1), Statuses(plan[k])[step])
  {
    StepIsNormal(names, plan, deliveries[i], slot, k, step);
    DeliveredEventIsAccepted(names, plan, deliveries, i);
    assert Holds(Accepted(deliveries), names.orderId(k + 1), Statuses(plan[k])[step], deliveries[i].eventId);
  }

  lemma AcceptedIsInStory(names: Naming, plan: seq<Scenario>, deliveries: seq<OrderEvent>, k: nat, status: Status)
    requires IsSoundNaming(names) && ComeFromPlan(names, plan, deliveries) && k < |plan|
    requires Has(Accepted(deliveries), names.orderId(k + 1), status)
    ensures status in Statuses(plan[k])
  {
    var id :| id in Accepted(deliveries) && Holds(Accepted(deliveries), names.orderId(k + 1), status, id);
    var step := AcceptedStep(names, plan, deliveries, k, status, id);
  }

  lemma StoryIsAccepted(names: Naming, plan: seq<Scenario>, duplicates: nat, deliveries: seq<OrderEvent>, k: nat, step: nat)
    requires IsSoundNaming(names) && AreStaged(plan) && k < |plan| && step < |Statuses(plan[k])|
    requires deliveries == EventsOf(WithDuplicates(UniqueEvents(names, plan), duplicates))
    requires ComeFromPlan(names, plan, deliveries)
    ensures Has(Accepted(deliveries), names.orderId(k + 1), Statuses(plan[k])[step])
  {
    var i, slot := StepIsDelivered(names, plan, duplicates, deliveries, k, step);
    DeliveredStepIsAccepted(names, plan, deliveries, i, slot, k, step);
  }

  /** Once the whole load is delivered, the accepted events of an order are its whole story. */
  lemma WholeStoryIsAccepted(names: Naming, plan: seq<Scenario>, duplicates: nat, deliveries: seq<OrderEvent>,
                             k: nat, status: Status)
    requires IsSoundNaming(names) && AreStaged(plan) && k < |plan|
    requires deliveries == EventsOf(WithDuplicates(UniqueEvents(names, plan), duplicates))
    requires ComeFromPlan(names, plan, deliveries)
    ensures Has(Accepted(deliveries), names.orderId(k + 1), status) <==> status in Statuses(plan[k])
  {
    if status in Statuses(plan[k]) {
      var step :| 0 <= step < |Statuses(plan[k])| && Statuses(plan[k])[step] == status;
      StoryIsAccepted(names, plan, duplicates, deliveries, k, step);
    } else if Has(Accepted(deliveries), names.orderId(k + 1), status) {
      AcceptedIsInStory(names, plan, deliveries, k, status);
    }
  }

  lemma LoadTellsStories(c: Config, random: nat -> nat, k: nat)
    requires Validate(c) == None && k < |Plan(c, random)|
    ensures forall status ::
              Has(Accepted(EventsOf(Load(c, random))), OrderIdOf(c.seed, k + 1), status) <==> status in Statuses(Plan(c, random)[k])
  {
    NamesAreSound(c.seed);
    NamesInFull(c.seed, k + 1);
    LoadIsTold(c, random);
    PlansAreStaged(c, random);
    forall status
      ensures Has(Accepted(EventsOf(Load(c, random))), OrderIdOf(c.seed, k + 1), status)
              <==> status in Statuses(Plan(c, random)[k])
    {
      WholeStoryIsAccepted(NamesOf(c.seed), Plan(c, random), Targets(c).duplicates, EventsOf(Load(c, random)), k, status);
    }
  }

  /** The story has no cancellation, and the clock does not wrap around between its payment and
      its shipment. */
  predicate IsSteady(plan: seq<Scenario>, k: nat)
    requires k < |plan|
  {
    Cancelled !in Statuses(plan[k]) && (Shipped in Statuses(plan[k]) ==> ShipsInEra(plan, k))
  }

  lemma WholeStoryIsSteady(plan: seq<Scenario>, k: nat, events: Events, o: OrderId)
    requires k < |plan| && IsStaged(plan[k])
    requires forall status :: Has(events, o, status) <==> status in Statuses(plan[k])
    ensures StaysInEra(plan, k, events, o) <==> IsSteady(plan, k)
  {
    assert Statuses(plan[k])[0] == Created;
    assert Shipped in Statuses(plan[k]) ==> Paid in Statuses(plan[k]);
  }

  /** Of the whole load exactly the orders with a steady story converge. */
  lemma LoadedOrdersConverge(c: Config, random: nat -> nat, k: nat)
    requires Validate(c) == None && k < |Plan(c, random)|
    ensures var events, o := Accepted(EventsOf(Load(c, random))), OrderIdOf(c.seed, k + 1);
            AllDeliveriesAgree(OrderEvents(events, o), o)
            <==> IsSteady(Plan(c, random), k)
  {
    LoadTellsStories(c, random, k);
    GeneratedOrdersConverge(c, random, EventsOf(Load(c, random)), k);
    PlanIsStaged(c, random, k);
    WholeStoryIsSteady(Plan(c, random), k, Accepted(EventsOf(Load(c, random))), OrderIdOf(c.seed, k + 1));
  }

  /** Loads of up to 292 years of simulated seconds never wrap around. */
  lemma ShortLoadsStayInEra(c: Config, random: nat -> nat, k: nat)
    requires Validate(c) == None && Targets(c).unique <= MAX_SECONDS + 1
    requires k < |Plan(c, random)| && Shipped in Statuses(Plan(c, random)[k])
    ensures ShipsInEra(Plan(c, random), k)
  {
    PlanSize(c, random);
    PlanIsStaged(c, random, k);
    SizesGrow(Plan(c, random), k);
    TimeIsLinear(c.seed, Size(Plan(c, random)[..k]) + 1);
    TimeIsLinear(c.seed, Size(Plan(c, random)[..k]) + 2);
  }

  /** So in such a load exactly the cancelled orders depend on the delivery order. */
  lemma ShortLoadsConverge(c: Config, random: nat -> nat, k: nat)
    requires Validate(c) == None && Targets(c).unique <= MAX_SECONDS + 1 && k < |Plan(c, random)|
    ensures var events, o := Accepted(EventsOf(Load(c, random))), OrderIdOf(c.seed, k + 1);
            AllDeliveriesAgree(OrderEvents(events, o), o) <==> Cancelled !in Statuses(Plan(c, random)[k])
  {
    LoadedOrdersConverge(c, random, k);
    if Shipped in Statuses(Plan(c, random)[k]) {
      ShortLoadsStayInEra(c, random, k);
    }
  }

  // ----- a load that wraps around -----

  const LONG_TOTAL: int := 9_223_372_038

  /** Always draws the lifecycle CREATED, PAID, SHIPPED. */
  ghost predicate AlwaysShips(random: nat -> nat) {
    forall draw :: random(draw) == 3
  }

  const SHIPPED_STORY := Lifecycle([Created, Paid, Shipped])

  lemma {:induction false} ShippingPlan(random: nat -> nat, draw: nat, n: nat)
    requires AlwaysShips(random)
    ensures NormalPlan(random, draw, 3 * n) == seq(n, _ => SHIPPED_STORY)
    decreases n
  {
    if n > 0 {
      assert Pick(random, draw, 3 * n) == [Created, Paid, Shipped];
      ShippingPlan(random, draw + 1, n - 1);
    }
  }

  lemma {:induction false} ShippingSize(n: nat)
    ensures Size(seq(n, _ => SHIPPED_STORY)) == 3 * n
    decreases n
  {
    if n > 0 {
      ShippingSize(n - 1);
      assert seq(n, _ => SHIPPED_STORY)[..n - 1] == seq(n - 1, _ => SHIPPED_STORY);
    }
  }

  lemma LastStoryWraps(plan: seq<Scenario>, n: nat)
    requires n > 0 && 3 * n == LONG_TOTAL && plan == seq(n, _ => SHIPPED_STORY)
    ensures plan[n - 1] == SHIPPED_STORY && !ShipsInEra(plan, n - 1)
  {
    ShippingSize(n - 1);
    assert plan[..n - 1] == seq(n - 1, _ => SHIPPED_STORY);
    TimeIsLinear(0, Size(plan[..n - 1]) + 1);
    TimeIsLinear(0, Size(plan[..n - 1]) + 2);
  }

  lemma LongPlan(c: Config, random: nat -> nat, n: nat)
    requires Validate(c) == None && AlwaysShips(random) && 3 * n == LONG_TOTAL
    requires Targets(c) == Counts(0, 3 * n, 0, 0)
    ensures Plan(c, random) == seq(n, _ => SHIPPED_STORY)
  {
    ShippingPlan(random, 0, n);
    assert Specials(0, 0) == [];
    assert [] + NormalPlan(random, 0, 3 * n) == NormalPlan(random, 0, 3 * n);
  }

  lemma LongConfig() returns (c: Config)
    ensures Validate(c) == None && Targets(c) == Counts(0, LONG_TOTAL, 0, 0)
  {
    c := Config(LONG_TOTAL, 0.0, 0.0, 0.0, "localhost:6379", "orders", "workers", 1, 100);
  }

  /** Two deliveries of the events that the load holds for order `k + 1` end differently. */
  ghost predicate Diverges(c: Config, random: nat -> nat, k: nat)
    requires Validate(c) == None
  {
    var events, o := Accepted(EventsOf(Load(c, random))), OrderIdOf(c.seed, k + 1);
    !AllDeliveriesAgree(OrderEvents(events, o), o)
  }

  lemma WrappedStoryDiverges(c: Config, random: nat -> nat, k: nat)
    requires Validate(c) == None && k < |Plan(c, random)|
    requires Shipped in Statuses(Plan(c, random)[k]) && !ShipsInEra(Plan(c, random), k)
    ensures Diverges(c, random, k)
  {
    LoadedOrdersConverge(c, random, k);
  }

  /** The shipment of story `k` is dated before its payment. */
  predicate IsMisdated(seed: int, plan: seq<Scenario>, k: nat)
    requires k < |plan|
  {
    TimeOf(seed, Size(plan[..k]) + 2) < TimeOf(seed, Size(plan[..k]) + 1)
  }

  lemma WrappedStoryIsMisdated(seed: int, plan: seq<Scenario>, k: nat)
    requires k < |plan| && !ShipsInEra(plan, k)
    ensures IsMisdated(seed, plan, k)
  {
    DatedInOrder(seed, Size(plan[..k]) + 1, Size(plan[..k]) + 2);
  }

  lemma LongStory() returns (c: Config, random: nat -> nat, k: nat)
    ensures Validate(c) == None && k < |Plan(c, random)| && Plan(c, random)[k] == SHIPPED_STORY
    ensures Shipped in Statuses(Plan(c, random)[k]) && !ShipsInEra(Plan(c, random), k)
  {
    c := LongConfig();
    random := (draw: nat) => 3;
    var n: nat := LONG_TOTAL / 3;
    k := n - 1;
    LongPlan(c, random, n);
    LastStoryWraps(Plan(c, random), n);
    assert SHIPPED_STORY.statuses[2] == Shipped;
  }

  /** An accepted configuration with an order that is not cancelled and yet does not converge: the
      clock wraps around between its payment and its shipment, which is dated before it. */
  lemma LongLoadDiverges() returns (c: Config, random: nat -> nat, k: nat)
    ensures Validate(c) == None && k < |Plan(c, random)| && Plan(c, random)[k] == SHIPPED_STORY
    ensures IsMisdated(c.seed, Plan(c, random), k) && Diverges(c, random, k)
  {
    c, random, k := LongStory();
    WrappedStoryIsMisdated(c.seed, Plan(c, random), k);
    WrappedStoryDiverges(c, random, k);
  }
}
