/** The producer's labels say how the processor will classify each event. */
module Labels {
  import opened Domain
  import opened Schema
  import opened Processor
  import opened Invariants
  import opened Steps
  import opened Workload
  import opened Producer
  import opened LoadRun

  /** What a label announces. */
  function Announced(g: GeneratedEvent): Classification {
    if g.duplicate then DuplicateEvent
    else if g.outOfOrder then OutOfOrder
    else if g.invalid then InvalidTransition
    else Applied
  }

  ghost predicate LabelHolds(t: Tables, g: GeneratedEvent) {
    IsNormal(g.event) && Step(t, g.event).result.classification == Announced(g)
  }

  /** Where serial processing of a load stands: the tables, whether every event so far was
      classified as its label announced, and how many deferred events were replayed. */
  datatype Progress = Progress(tables: Tables, labelled: bool, replayed: nat)

  const START := Progress(EMPTY_TABLES, true, 0)

  ghost function Advance(p: Progress, g: GeneratedEvent): Progress {
    var out := Step(p.tables, g.event);
    Progress(Process(p.tables, g.event), p.labelled && LabelHolds(p.tables, g), p.replayed + out.result.replayedPending)
  }

  ghost function Follow(load: seq<GeneratedEvent>): Progress
    decreases |load|
  {
    if load == [] then START else Advance(Follow(load[..|load| - 1]), load[|load| - 1])
  }

  lemma FollowOne(load: seq<GeneratedEvent>, g: GeneratedEvent)
    ensures Follow(load + [g]) == Advance(Follow(load), g)
  {
    assert (load + [g])[..|load|] == load;
  }

  lemma EventsOfSnoc(load: seq<GeneratedEvent>)
    requires load != []
    ensures EventsOf(load) == EventsOf(load[..|load| - 1]) + [load[|load| - 1].event]
  {
  }

  lemma {:induction false} FollowIsRun(load: seq<GeneratedEvent>)
    ensures Follow(load).tables == Run(EMPTY_TABLES, EventsOf(load))
    decreases |load|
  {
    if load != [] {
      var before, g := load[..|load| - 1], load[|load| - 1];
      FollowIsRun(before);
      EventsOfSnoc(load);
      RunSnoc(EMPTY_TABLES, EventsOf(before), g.event);
    }
  }

  lemma TakeLast<T>(s: seq<T>, k: nat)
    requires 0 < k <= |s|
    ensures s[..k] == s[..k - 1] + [s[k - 1]]
  {
  }

  lemma {:induction false} LabelHeld(load: seq<GeneratedEvent>, k: nat, n: nat)
    requires k < n <= |load| && Follow(load[..n]).labelled
    ensures LabelHolds(Follow(load[..k]).tables, load[k])
    decreases n
  {
    var before, g := load[..n - 1], load[n - 1];
    TakeLast(load, n);
    FollowOne(before, g);
    if k < n - 1 {
      LabelHeld(load, k, n - 1);
    }
  }

  // ----- duplicates -----

  lemma {:induction false} FollowKeepsInv(load: seq<GeneratedEvent>)
    ensures Inv(Follow(load).tables)
    decreases |load|
  {
    if load == [] {
      EmptyTablesInv();
    } else {
      FollowKeepsInv(load[..|load| - 1]);
      ProcessKeepsInv(Follow(load[..|load| - 1]).tables, load[|load| - 1].event);
    }
  }

  /** A duplicate that follows its source changes nothing, and its label is right. */
  lemma DuplicateChangesNothing(p: Progress, g: GeneratedEvent)
    requires Inv(p.tables) && LabelHolds(p.tables, g)
    ensures Advance(Advance(p, g), Duplicate(g)) == Advance(p, g)
  {
    StepAddsKey(p.tables, g.event);
  }

  lemma DuplicateFollows(load: seq<GeneratedEvent>, g: GeneratedEvent)
    requires Follow(load + [g]).labelled
    ensures Follow(load + [g] + [Duplicate(g)]) == Follow(load + [g])
    ensures Follow(load).labelled
  {
    FollowKeepsInv(load);
    FollowOne(load, g);
    FollowOne(load + [g], Duplicate(g));
    DuplicateChangesNothing(Follow(load), g);
  }

  lemma DuplicatesOneMore(before: seq<GeneratedEvent>, g: GeneratedEvent, unique: seq<GeneratedEvent>, duplicates: nat)
    requires unique == before + [g] && Follow(unique).labelled
    requires Follow(WithDuplicates(before, duplicates)) == Follow(before)
    ensures Follow(WithDuplicates(unique, duplicates)) == Follow(unique)
  {
    var load := WithDuplicates(before, duplicates);
    FollowOne(before, g);
    FollowOne(load, g);
    DuplicateFollows(load, g);
    NextEmission(before, g, duplicates);
  }

  lemma LabelledBefore(before: seq<GeneratedEvent>, g: GeneratedEvent, unique: seq<GeneratedEvent>)
    requires unique == before + [g] && Follow(unique).labelled
    ensures Follow(before).labelled
  {
    FollowOne(before, g);
  }

  /** Duplicates that follow their source leave tables, labels and replays as they are. */
  lemma {:induction false} DuplicatesAreLabelled(unique: seq<GeneratedEvent>, k: nat, duplicates: nat)
    requires k <= |unique| && Follow(unique[..k]).labelled
    ensures Follow(WithDuplicates(unique[..k], duplicates)) == Follow(unique[..k])
    decreases k
  {
    if k > 0 {
      TakeLast(unique, k);
      LabelledBefore(unique[..k - 1], unique[k - 1], unique[..k]);
      DuplicatesAreLabelled(unique, k - 1, duplicates);
      DuplicatesOneMore(unique[..k - 1], unique[k - 1], unique[..k], duplicates);
    }
  }

  // ----- steps with at most one deferred event -----

  /** The tables as far as one order is concerned: which ids are used, the order's status, and
      the only deferred event, if any. */
  ghost predicate Shows(
      t: Tables, ids: set<EventId>, orders: set<OrderId>, o: OrderId, status: Status, waiting: Option<OrderEvent>) {
    && t.processed.Keys == ids && t.orders.Keys == orders && CurrentStatus(t, o) == status
    && (waiting.None? ==> t.pending == map[])
    && (waiting.Some? ==>
          && waiting.value.orderId == o && waiting.value.eventId in ids
          && t.pending.Keys == {waiting.value.eventId} && PendingEvent(t.pending, waiting.value.eventId) == waiting.value)
  }

  lemma NothingWaits(t: Tables, o: OrderId)
    requires t.pending == map[]
    ensures Queue(t.pending, PendingIds(t.pending, o)) == []
  {
    assert PendingIds(t.pending, o) == {};
  }

  lemma OneWaits(t: Tables, p: OrderEvent)
    requires t.pending.Keys == {p.eventId} && PendingEvent(t.pending, p.eventId) == p
    ensures Queue(t.pending, PendingIds(t.pending, p.orderId)) == [p]
  {
    assert p.eventId in t.pending.Keys;
    assert PendingIds(t.pending, p.orderId) == {p.eventId};
    assert [p][0].eventId == p.eventId;
    QueueIsTheSortedList(t.pending, {p.eventId}, [p]);
  }

  lemma PlainStep(t: Tables, e: OrderEvent, ids: set<EventId>, orders: set<OrderId>, status: Status)
    requires Shows(t, ids, orders, e.orderId, status, None) && e.eventId !in ids
    requires Classify(status, e.status) == Applied || Classify(status, e.status) == InvalidTransition
    ensures var out := Step(t, e);
            && out.result.classification == Classify(status, e.status) && out.result.replayedPending == 0
            && Shows(out.tables, ids + {e.eventId},
                     if Classify(status, e.status) == Applied then orders + {e.orderId} else orders,
                     e.orderId, NextStatus(status, e), None)
  {
    NothingWaits(Route(t, e, status), e.orderId);
  }

  lemma DeferringStep(t: Tables, e: OrderEvent, ids: set<EventId>, orders: set<OrderId>, status: Status)
    requires Shows(t, ids, orders, e.orderId, status, None) && e.eventId !in ids
    requires Classify(status, e.status) == OutOfOrder
    ensures var out := Step(t, e);
            && out.result.classification == OutOfOrder && out.result.replayedPending == 0
            && Shows(out.tables, ids + {e.eventId}, orders, e.orderId, status, Some(e))
  {
  }

  lemma BlockedStep(t: Tables, e: OrderEvent, p: OrderEvent, ids: set<EventId>, orders: set<OrderId>, status: Status)
    requires Shows(t, ids, orders, e.orderId, status, Some(p)) && e.eventId !in ids
    requires Classify(status, e.status) == Applied && Classify(e.status, p.status) == OutOfOrder
    ensures var out := Step(t, e);
            && out.result.classification == Applied && out.result.replayedPending == 0
            && Shows(out.tables, ids + {e.eventId}, orders + {e.orderId}, e.orderId, e.status, Some(p))
  {
    OneWaits(Route(t, e, status), p);
  }

  lemma ReleasingStep(t: Tables, e: OrderEvent, p: OrderEvent, ids: set<EventId>, orders: set<OrderId>, status: Status)
    requires Shows(t, ids, orders, e.orderId, status, Some(p)) && e.eventId !in ids
    requires Classify(status, e.status) == Applied && Classify(e.status, p.status) == Applied
    ensures var out := Step(t, e);
            && out.result.classification == Applied && out.result.replayedPending == 1
            && Shows(out.tables, ids + {e.eventId}, orders + {e.orderId}, e.orderId, p.status, None)
  {
    var t1 := Route(t, e, status);
    OneWaits(t1, p);
    var t2 := Route(t1, p, e.status);
    assert [p][1..] == [];
    assert Replay(t2, [], p.status) == Replayed(t2, p.status, 0, 0, 0);
    assert t2.pending == map[];
  }

  // ----- one event of a load -----

  /** An event of order `o` that can be processed, with its status and what its label announces. */
  predicate IsNext(g: GeneratedEvent, o: OrderId, status: Status, announced: Classification) {
    IsNormal(g.event) && g.event.orderId == o && g.event.status == status && Announced(g) == announced
  }

  /** The labels still hold, and `n` more deferred events were replayed. */
  ghost predicate GoesOn(p: Progress, q: Progress, n: nat) {
    q.labelled == p.labelled && q.replayed == p.replayed + n
  }

  lemma TellPlain(p: Progress, g: GeneratedEvent, ids: set<EventId>, orders: set<OrderId>, o: OrderId,
                  status: Status, next: Status) returns (q: Progress)
    requires IsNext(g, o, next, Applied) && g.event.eventId !in ids
    requires Shows(p.tables, ids, orders, o, status, None) && Classify(status, next) == Applied
    ensures q == Advance(p, g) && GoesOn(p, q, 0)
    ensures Shows(q.tables, ids + {g.event.eventId}, orders + {o}, o, next, None)
  {
    q := Advance(p, g);
    PlainStep(p.tables, g.event, ids, orders, status);
  }

  lemma TellInvalid(p: Progress, g: GeneratedEvent, ids: set<EventId>, orders: set<OrderId>, o: OrderId,
                    status: Status, next: Status) returns (q: Progress)
    requires IsNext(g, o, next, InvalidTransition) && g.event.eventId !in ids
    requires Shows(p.tables, ids, orders, o, status, None) && Classify(status, next) == InvalidTransition
    ensures q == Advance(p, g) && GoesOn(p, q, 0)
    ensures Shows(q.tables, ids + {g.event.eventId}, orders, o, status, None)
  {
    q := Advance(p, g);
    PlainStep(p.tables, g.event, ids, orders, status);
  }

  lemma TellEarly(p: Progress, g: GeneratedEvent, ids: set<EventId>, orders: set<OrderId>, o: OrderId,
                  status: Status, next: Status) returns (q: Progress)
    requires IsNext(g, o, next, OutOfOrder) && g.event.eventId !in ids
    requires Shows(p.tables, ids, orders, o, status, None) && Classify(status, next) == OutOfOrder
    ensures q == Advance(p, g) && GoesOn(p, q, 0)
    ensures Shows(q.tables, ids + {g.event.eventId}, orders, o, status, Some(g.event))
  {
    q := Advance(p, g);
    DeferringStep(p.tables, g.event, ids, orders, status);
  }

  lemma TellBlocked(p: Progress, g: GeneratedEvent, ids: set<EventId>, orders: set<OrderId>, o: OrderId,
                    status: Status, next: Status, w: OrderEvent) returns (q: Progress)
    requires IsNext(g, o, next, Applied) && g.event.eventId !in ids
    requires Shows(p.tables, ids, orders, o, status, Some(w))
    requires Classify(status, next) == Applied && Classify(next, w.status) == OutOfOrder
    ensures q == Advance(p, g) && GoesOn(p, q, 0)
    ensures Shows(q.tables, ids + {g.event.eventId}, orders + {o}, o, next, Some(w))
  {
    q := Advance(p, g);
    BlockedStep(p.tables, g.event, w, ids, orders, status);
  }

  lemma TellReleasing(p: Progress, g: GeneratedEvent, ids: set<EventId>, orders: set<OrderId>, o: OrderId,
                      status: Status, next: Status, w: OrderEvent) returns (q: Progress)
    requires IsNext(g, o, next, Applied) && g.event.eventId !in ids
    requires Shows(p.tables, ids, orders, o, status, Some(w))
    requires Classify(status, next) == Applied && Classify(next, w.status) == Applied
    ensures q == Advance(p, g) && GoesOn(p, q, 1)
    ensures Shows(q.tables, ids + {g.event.eventId}, orders + {o}, o, w.status, None)
  {
    q := Advance(p, g);
    ReleasingStep(p.tables, g.event, w, ids, orders, status);
  }

  lemma TellPair(p: Progress, paid: GeneratedEvent, created: GeneratedEvent,
                 ids: set<EventId>, orders: set<OrderId>, o: OrderId) returns (q: Progress)
    requires IsNext(paid, o, Paid, OutOfOrder) && IsNext(created, o, Created, Applied)
    requires paid.event.eventId !in ids && created.event.eventId !in ids + {paid.event.eventId}
    requires Shows(p.tables, ids, orders, o, NoStatus, None)
    ensures q == Advance(Advance(p, paid), created) && GoesOn(p, q, 1)
    ensures Shows(q.tables, ids + {paid.event.eventId} + {created.event.eventId}, orders + {o}, o, Paid, None)
  {
    var p1 := TellEarly(p, paid, ids, orders, o, NoStatus, Paid);
    q := TellReleasing(p1, created, ids + {paid.event.eventId}, orders, o, NoStatus, Created, paid.event);
  }

  lemma TellTriple(p: Progress, shipped: GeneratedEvent, created: GeneratedEvent, paid: GeneratedEvent,
                   ids: set<EventId>, orders: set<OrderId>, o: OrderId) returns (q: Progress)
    requires IsNext(shipped, o, Shipped, OutOfOrder) && IsNext(created, o, Created, Applied) && IsNext(paid, o, Paid, Applied)
    requires shipped.event.eventId !in ids && created.event.eventId !in ids + {shipped.event.eventId}
    requires paid.event.eventId !in ids + {shipped.event.eventId} + {created.event.eventId}
    requires Shows(p.tables, ids, orders, o, NoStatus, None)
    ensures q == Advance(Advance(Advance(p, shipped), created), paid) && GoesOn(p, q, 1)
    ensures Shows(q.tables, ids + {shipped.event.eventId} + {created.event.eventId} + {paid.event.eventId},
                  orders + {o} + {o}, o, Shipped, None)
  {
    var ids1 := ids + {shipped.event.eventId};
    var p1 := TellEarly(p, shipped, ids, orders, o, NoStatus, Shipped);
    var p2 := TellBlocked(p1, created, ids1, orders, o, NoStatus, Created, shipped.event);
    q := TellReleasing(p2, paid, ids1 + {created.event.eventId}, orders + {o}, o, Created, Paid, shipped.event);
  }

  // ----- one scenario -----

  ghost function EventIds(names: Naming, m: nat): set<EventId> {
    set j | 1 <= j <= m :: names.eventId(j)
  }

  ghost function OrderIds(names: Naming, k: nat): set<OrderId> {
    set j | 1 <= j <= k :: names.orderId(j)
  }

  lemma NextIds(names: Naming, m: nat)
    requires IsSoundNaming(names)
    ensures EventIds(names, m + 1) == EventIds(names, m) + {names.eventId(m + 1)}
    ensures OrderIds(names, m + 1) == OrderIds(names, m) + {names.orderId(m + 1)}
    ensures forall j: nat :: j > m ==> names.eventId(j) !in EventIds(names, m) && names.orderId(j) !in OrderIds(names, m)
  {
  }

  lemma NamedIsNormal(names: Naming, order: nat, status: Status, sequence: nat, timeIndex: nat)
    requires IsSoundNaming(names) && status.IsKnown()
    ensures var e := NewEvent(names, order, status, sequence, timeIndex);
            IsNormal(e) && e.orderId == names.orderId(order) && e.status == status && e.eventId == names.eventId(sequence)
  {
  }

  /** Between two scenarios nothing waits, and exactly the first names are used up. */
  ghost predicate Between(names: Naming, t: Tables, k: nat, m: nat) {
    t.pending == map[] && t.processed.Keys == EventIds(names, m) && t.orders.Keys == OrderIds(names, k)
  }

  lemma BetweenShows(names: Naming, t: Tables, k: nat, m: nat)
    requires IsSoundNaming(names)
    ensures Between(names, t, k, m) ==>
              Shows(t, EventIds(names, m), OrderIds(names, k), names.orderId(k + 1), NoStatus, None)
    ensures forall status :: Shows(t, EventIds(names, m), OrderIds(names, k), names.orderId(k), status, None) ==>
              Between(names, t, k, m)
  {
    NextIds(names, k);
  }

  lemma FollowTwo(load: seq<GeneratedEvent>, a: GeneratedEvent, b: GeneratedEvent)
    ensures Follow(load + [a, b]) == Advance(Advance(Follow(load), a), b)
  {
    assert load + [a, b] == load + [a] + [b];
    FollowOne(load, a);
    FollowOne(load + [a], b);
  }

  lemma PairNames(names: Naming, k: nat, m: nat) returns (paid: GeneratedEvent, created: GeneratedEvent)
    requires IsSoundNaming(names)
    ensures Sent(names, PaidBeforeCreated, k + 1, m) == [paid, created]
    ensures IsNext(paid, names.orderId(k + 1), Paid, OutOfOrder) && IsNext(created, names.orderId(k + 1), Created, Applied)
    ensures paid.event.eventId !in EventIds(names, m)
    ensures created.event.eventId !in EventIds(names, m) + {paid.event.eventId}
    ensures EventIds(names, m + 2) == EventIds(names, m) + {paid.event.eventId} + {created.event.eventId}
  {
    paid := GeneratedEvent(NewEvent(names, k + 1, Paid, m + 2, m + 1), false, true, false);
    created := Plain(NewEvent(names, k + 1, Created, m + 1, m));
    SentPaidBeforeCreated(names, k + 1, m, created.event, paid.event);
    NextIds(names, m);
    NextIds(names, m + 1);
    NamedIsNormal(names, k + 1, Paid, m + 2, m + 1);
    NamedIsNormal(names, k + 1, Created, m + 1, m);
  }

  lemma PaidBeforeCreatedIsTold(names: Naming, load: seq<GeneratedEvent>, k: nat, m: nat) returns (q: Progress)
    requires IsSoundNaming(names) && Between(names, Follow(load).tables, k, m)
    ensures q == Follow(load + Sent(names, PaidBeforeCreated, k + 1, m))
    ensures GoesOn(Follow(load), q, 1) && Between(names, q.tables, k + 1, m + 2)
  {
    var paid, created := PairNames(names, k, m);
    NextIds(names, k);
    BetweenShows(names, Follow(load).tables, k, m);
    q := TellPair(Follow(load), paid, created, EventIds(names, m), OrderIds(names, k), names.orderId(k + 1));
    FollowTwo(load, paid, created);
    BetweenShows(names, q.tables, k + 1, m + 2);
  }

  lemma FollowThree(load: seq<GeneratedEvent>, a: GeneratedEvent, b: GeneratedEvent, c: GeneratedEvent)
    ensures Follow(load + [a, b, c]) == Advance(Advance(Advance(Follow(load), a), b), c)
  {
    assert load + [a, b, c] == load + [a, b] + [c];
    FollowTwo(load, a, b);
    FollowOne(load + [a, b], c);
  }

  lemma NextThreeIds(names: Naming, m: nat)
    requires IsSoundNaming(names)
    ensures var ids, a, b, c := EventIds(names, m), names.eventId(m + 3), names.eventId(m + 1), names.eventId(m + 2);
            && a !in ids && b !in ids + {a} && c !in ids + {a} + {b}
            && EventIds(names, m + 3) == ids + {a} + {b} + {c}
  {
    NextIds(names, m);
    NextIds(names, m + 1);
    NextIds(names, m + 2);
  }

  lemma TripleNames(names: Naming, k: nat, m: nat)
    returns (shipped: GeneratedEvent, created: GeneratedEvent, paid: GeneratedEvent)
    requires IsSoundNaming(names)
    ensures Sent(names, ShippedBeforePaid, k + 1, m) == [shipped, created, paid]
    ensures IsNext(shipped, names.orderId(k + 1), Shipped, OutOfOrder)
    ensures IsNext(created, names.orderId(k + 1), Created, Applied) && IsNext(paid, names.orderId(k + 1), Paid, Applied)
    ensures shipped.event.eventId !in EventIds(names, m)
    ensures created.event.eventId !in EventIds(names, m) + {shipped.event.eventId}
    ensures paid.event.eventId !in EventIds(names, m) + {shipped.event.eventId} + {created.event.eventId}
    ensures EventIds(names, m + 3)
            == EventIds(names, m) + {shipped.event.eventId} + {created.event.eventId} + {paid.event.eventId}
  {
    shipped := GeneratedEvent(NewEvent(names, k + 1, Shipped, m + 3, m + 2), false, true, false);
    created := Plain(NewEvent(names, k + 1, Created, m + 1, m));
    paid := Plain(NewEvent(names, k + 1, Paid, m + 2, m + 1));
    SentShippedBeforePaid(names, k + 1, m, created.event, paid.event, shipped.event);
    NextThreeIds(names, m);
    NamedIsNormal(names, k + 1, Shipped, m + 3, m + 2);
    NamedIsNormal(names, k + 1, Created, m + 1, m);
    NamedIsNormal(names, k + 1, Paid, m + 2, m + 1);
  }

  lemma ShippedBeforePaidIsTold(names: Naming, load: seq<GeneratedEvent>, k: nat, m: nat) returns (q: Progress)
    requires IsSoundNaming(names) && Between(names, Follow(load).tables, k, m)
    ensures q == Follow(load + Sent(names, ShippedBeforePaid, k + 1, m))
    ensures GoesOn(Follow(load), q, 1) && Between(names, q.tables, k + 1, m + 3)
  {
    var shipped, created, paid := TripleNames(names, k, m);
    var o := names.orderId(k + 1);
    NextIds(names, k);
    BetweenShows(names, Follow(load).tables, k, m);
    q := TellTriple(Follow(load), shipped, created, paid, EventIds(names, m), OrderIds(names, k), o);
    FollowThree(load, shipped, created, paid);
    assert OrderIds(names, k + 1) == OrderIds(names, k) + {o} + {o};
    BetweenShows(names, q.tables, k + 1, m + 3);
  }

  // ----- scenarios told in time order -----

  function StatusBeforeStep(statuses: seq<Status>, i: nat): Status
    requires i <= |statuses|
  {
    if i == 0 then NoStatus else statuses[i - 1]
  }

  /** Each step is a lifecycle step, except for a cancellation after shipment. */
  ghost predicate IsLawfulStory(s: Scenario) {
    && !s.PaidBeforeCreated? && !s.ShippedBeforePaid?
    && Statuses(s) != []
    && forall i :: 0 <= i < |Statuses(s)| ==>
         && Statuses(s)[i].IsKnown()
         && Classify(StatusBeforeStep(Statuses(s), i), Statuses(s)[i])
            == if s.CancelledAfterShipped? && i == 3 then InvalidTransition else Applied
  }

  lemma CancellationStory()
    ensures IsLawfulStory(CancelledAfterShipped)
  {
  }

  lemma LifecycleStory(random: nat -> nat, draw: nat, count: nat)
    requires count > 0
    ensures IsLawfulStory(Lifecycle(Pick(random, draw, count)))
  {
  }

  lemma NormalStories(random: nat -> nat, draw: nat, count: nat, k: nat)
    requires k < |NormalPlan(random, draw, count)|
    ensures IsLawfulStory(NormalPlan(random, draw, count)[k])
  {
    var d, n := NormalPlanAt(random, draw, count, NormalPlan(random, draw, count), k);
    LifecycleStory(random, d, n);
  }

  /** The orders known before step `i` of the scenario of order number `k + 1`. */
  ghost function OrdersBefore(names: Naming, k: nat, i: nat): set<OrderId> {
    if i == 0 then OrderIds(names, k) else OrderIds(names, k + 1)
  }

  lemma StepNames(names: Naming, s: Scenario, k: nat, m: nat, i: nat) returns (g: GeneratedEvent)
    requires IsSoundNaming(names) && IsLawfulStory(s) && i < |Statuses(s)|
    ensures g == Sent(names, s, k + 1, m)[i]
    ensures IsNext(g, names.orderId(k + 1), Statuses(s)[i],
                   if s.CancelledAfterShipped? && i == 3 then InvalidTransition else Applied)
    ensures g.event.eventId !in EventIds(names, m + i)
    ensures EventIds(names, m + (i + 1)) == EventIds(names, m + i) + {g.event.eventId}
    ensures OrdersBefore(names, k, i) + {names.orderId(k + 1)} == OrdersBefore(names, k, i + 1)
    ensures i > 0 ==> OrdersBefore(names, k, i) == OrdersBefore(names, k, i + 1)
  {
    g := SentAt(names, s, k + 1, m, i);
    NextIds(names, m + i);
    NextIds(names, k);
    NamedIsNormal(names, k + 1, Statuses(s)[i], m + i + 1, m + i);
  }

  lemma StepIsTold(names: Naming, s: Scenario, p: Progress, k: nat, m: nat, i: nat, status: Status)
    returns (q: Progress, next: Status)
    requires IsSoundNaming(names) && IsLawfulStory(s) && i < |Statuses(s)| && status == StatusBeforeStep(Statuses(s), i)
    requires Shows(p.tables, EventIds(names, m + i), OrdersBefore(names, k, i), names.orderId(k + 1), status, None)
    ensures q == Advance(p, Sent(names, s, k + 1, m)[i]) && GoesOn(p, q, 0)
    ensures Shows(q.tables, EventIds(names, m + (i + 1)), OrdersBefore(names, k, i + 1), names.orderId(k + 1), next, None)
    ensures i + 1 < |Statuses(s)| ==> next == StatusBeforeStep(Statuses(s), i + 1)
  {
    var g := StepNames(names, s, k, m, i);
    var o, ids, orders := names.orderId(k + 1), EventIds(names, m + i), OrdersBefore(names, k, i);
    if s.CancelledAfterShipped? && i == 3 {
      q := TellInvalid(p, g, ids, orders, o, status, Statuses(s)[i]);
      next := status;
    } else {
      q := TellPlain(p, g, ids, orders, o, status, Statuses(s)[i]);
      next := Statuses(s)[i];
    }
  }

  /** From `p` to `q` the first `i` steps were told right; the order shows the status before the next. */
  ghost predicate TellsSoFar(names: Naming, s: Scenario, p: Progress, q: Progress, k: nat, m: nat, i: nat, status: Status)
    requires i <= |Statuses(s)|
  {
    && GoesOn(p, q, 0)
    && Shows(q.tables, EventIds(names, m + i), OrdersBefore(names, k, i), names.orderId(k + 1), status, None)
    && (i < |Statuses(s)| ==> status == StatusBeforeStep(Statuses(s), i))
  }

  lemma TellsNothingYet(names: Naming, s: Scenario, p: Progress, k: nat, m: nat)
    requires IsSoundNaming(names) && Statuses(s) != [] && Between(names, p.tables, k, m)
    ensures TellsSoFar(names, s, p, p, k, m, 0, NoStatus)
  {
    BetweenShows(names, p.tables, k, m);
  }

  lemma TellsOneMore(names: Naming, s: Scenario, first: Progress, p: Progress, k: nat, m: nat, i: nat, status: Status)
    returns (q: Progress, next: Status)
    requires IsSoundNaming(names) && IsLawfulStory(s) && i < |Statuses(s)|
    requires TellsSoFar(names, s, first, p, k, m, i, status)
    ensures q == Advance(p, Sent(names, s, k + 1, m)[i]) && TellsSoFar(names, s, first, q, k, m, i + 1, next)
  {
    q, next := StepIsTold(names, s, p, k, m, i, status);
  }

  // ----- folding -----

  /** From `p` on, one element after the other. */
  ghost function Fold<P, G>(f: (P, G) -> P, p: P, gs: seq<G>): P
    decreases |gs|
  {
    if gs == [] then p else f(Fold(f, p, gs[..|gs| - 1]), gs[|gs| - 1])
  }

  lemma {:induction false} FoldConcat<P, G>(f: (P, G) -> P, p: P, a: seq<G>, b: seq<G>)
    ensures Fold(f, p, a + b) == Fold(f, Fold(f, p, a), b)
    decreases |b|
  {
    if b == [] {
      assert a + b == a;
    } else {
      var n := |b| - 1;
      assert (a + b)[..|a + b| - 1] == a + b[..n];
      FoldConcat(f, p, a, b[..n]);
    }
  }

  /** What each element carries on to the next holds in the end. */
  lemma {:induction false} FoldKeeps<P, G>(f: (P, G) -> P, p: P, gs: seq<G>, n: nat, holds: (P, nat) -> bool)
    requires n <= |gs| && holds(p, 0)
    requires forall q, i: nat :: i < |gs| && holds(q, i) ==> holds(f(q, gs[i]), i + 1)
    ensures holds(Fold(f, p, gs[..n]), n)
    decreases n
  {
    if n > 0 {
      FoldKeeps(f, p, gs, n - 1, holds);
      assert gs[..n][..n - 1] == gs[..n - 1];
    }
  }

  ghost function Advancing(): (Progress, GeneratedEvent) -> Progress {
    (p, g) => Advance(p, g)
  }

  lemma {:induction false} FollowIsFold(load: seq<GeneratedEvent>)
    ensures Follow(load) == Fold(Advancing(), START, load)
    decreases |load|
  {
    if load != [] {
      FollowIsFold(load[..|load| - 1]);
    }
  }

  lemma FollowAppends(load: seq<GeneratedEvent>, sent: seq<GeneratedEvent>)
    ensures Follow(load + sent) == Fold(Advancing(), Follow(load), sent)
  {
    FollowIsFold(load);
    FollowIsFold(load + sent);
    FoldConcat(Advancing(), START, load, sent);
  }

  /** What holds after the first `i` steps of the story. */
  ghost function Telling(names: Naming, s: Scenario, p: Progress, k: nat, m: nat): (Progress, nat) -> bool {
    (q: Progress, i: nat) => i <= |Statuses(s)| && exists status :: TellsSoFar(names, s, p, q, k, m, i, status)
  }

  lemma TellingGoesOn(names: Naming, s: Scenario, p: Progress, k: nat, m: nat, q: Progress, i: nat, g: GeneratedEvent)
    requires IsSoundNaming(names) && IsLawfulStory(s) && i < |Statuses(s)| && g == Sent(names, s, k + 1, m)[i]
    requires Telling(names, s, p, k, m)(q, i)
    ensures Telling(names, s, p, k, m)(Advance(q, g), i + 1)
  {
    var status :| TellsSoFar(names, s, p, q, k, m, i, status);
    var q1, next := TellsOneMore(names, s, p, q, k, m, i, status);
  }

  lemma AdvancingAdvances(q: Progress, g: GeneratedEvent)
    ensures Advancing()(q, g) == Advance(q, g)
  {
  }

  lemma TellingKeeps(names: Naming, s: Scenario, p: Progress, k: nat, m: nat, holds: (Progress, nat) -> bool)
    requires IsSoundNaming(names) && IsLawfulStory(s) && holds == Telling(names, s, p, k, m) && holds(p, 0)
    ensures holds(Fold(Advancing(), p, Sent(names, s, k + 1, m)), |Statuses(s)|)
  {
    var sent := Sent(names, s, k + 1, m);
    forall q, i: nat | i < |sent| && holds(q, i)
      ensures holds(Advancing()(q, sent[i]), i + 1)
    {
      TellingGoesOn(names, s, p, k, m, q, i, sent[i]);
      AdvancingAdvances(q, sent[i]);
    }
    FoldKeeps(Advancing(), p, sent, |sent|, holds);
    TakeAll(sent);
  }

  lemma StoryIsTold(names: Naming, s: Scenario, p: Progress, k: nat, m: nat) returns (q: Progress, status: Status)
    requires IsSoundNaming(names) && IsLawfulStory(s) && Between(names, p.tables, k, m)
    ensures q == Fold(Advancing(), p, Sent(names, s, k + 1, m))
    ensures TellsSoFar(names, s, p, q, k, m, |Statuses(s)|, status)
  {
    TellsNothingYet(names, s, p, k, m);
    TellingKeeps(names, s, p, k, m, Telling(names, s, p, k, m));
    q := Fold(Advancing(), p, Sent(names, s, k + 1, m));
    status :| TellsSoFar(names, s, p, q, k, m, |Statuses(s)|, status);
  }

  lemma StoryIsOver(names: Naming, s: Scenario, p: Progress, q: Progress, k: nat, m: nat, status: Status)
    requires IsSoundNaming(names) && Statuses(s) != []
    requires TellsSoFar(names, s, p, q, k, m, |Statuses(s)|, status)
    ensures GoesOn(p, q, 0) && Between(names, q.tables, k + 1, m + |Statuses(s)|)
  {
    BetweenShows(names, q.tables, k + 1, m + |Statuses(s)|);
  }

  // ----- the whole load -----

  ghost predicate IsTellable(s: Scenario) {
    s.PaidBeforeCreated? || s.ShippedBeforePaid? || IsLawfulStory(s)
  }

  function EarlyEvents(s: Scenario): nat {
    if s.PaidBeforeCreated? || s.ShippedBeforePaid? then 1 else 0
  }

  lemma TakeAll<T>(s: seq<T>)
    ensures s[..|s|] == s
  {
  }

  lemma OrderlyIsTold(names: Naming, s: Scenario, load: seq<GeneratedEvent>, k: nat, m: nat) returns (q: Progress)
    requires IsSoundNaming(names) && IsLawfulStory(s) && Between(names, Follow(load).tables, k, m)
    ensures q == Follow(load + Sent(names, s, k + 1, m))
    ensures GoesOn(Follow(load), q, 0) && Between(names, q.tables, k + 1, m + |Statuses(s)|)
  {
    var status;
    q, status := StoryIsTold(names, s, Follow(load), k, m);
    StoryIsOver(names, s, Follow(load), q, k, m, status);
    FollowAppends(load, Sent(names, s, k + 1, m));
  }

  /** From `p` to `q` the whole scenario was told right, and nothing waits. */
  ghost predicate TellsScenario(names: Naming, s: Scenario, p: Progress, q: Progress, k: nat, m: nat) {
    GoesOn(p, q, EarlyEvents(s)) && Between(names, q.tables, k + 1, m + |Statuses(s)|)
  }

  lemma ScenarioIsTold(names: Naming, s: Scenario, load: seq<GeneratedEvent>, p: Progress, k: nat, m: nat)
    returns (q: Progress)
    requires IsSoundNaming(names) && IsTellable(s) && p == Follow(load) && Between(names, p.tables, k, m)
    ensures q == Follow(load + Sent(names, s, k + 1, m)) && TellsScenario(names, s, p, q, k, m)
  {
    match s
    case PaidBeforeCreated => q := PaidBeforeCreatedIsTold(names, load, k, m);
    case ShippedBeforePaid => q := ShippedBeforePaidIsTold(names, load, k, m);
    case _ => q := OrderlyIsTold(names, s, load, k, m);
  }

  /** Up to `p` the plan was told right, and nothing waits. */
  ghost predicate PlanTold(names: Naming, plan: seq<Scenario>, p: Progress) {
    p.labelled && p.replayed == LabelCounts(plan).0 && Between(names, p.tables, |plan|, Size(plan))
  }

  lemma PlanGoesOn(names: Naming, before: seq<Scenario>, s: Scenario, p: Progress, q: Progress)
    requires PlanTold(names, before, p) && TellsScenario(names, s, p, q, |before|, Size(before))
    ensures PlanTold(names, before + [s], q)
  {
    assert (before + [s])[..|before|] == before;
  }

  lemma UniqueSplits(names: Naming, before: seq<Scenario>, s: Scenario)
    ensures UniqueEvents(names, before + [s]) == UniqueEvents(names, before) + Sent(names, s, |before| + 1, Size(before))
  {
    assert (before + [s])[..|before|] == before;
  }

  lemma OneMoreIsTold(names: Naming, before: seq<Scenario>, s: Scenario, load: seq<GeneratedEvent>, p: Progress)
    returns (q: Progress)
    requires IsSoundNaming(names) && IsTellable(s) && PlanTold(names, before, p) && p == Follow(load)
    ensures q == Follow(load + Sent(names, s, |before| + 1, Size(before))) && PlanTold(names, before + [s], q)
  {
    q := ScenarioIsTold(names, s, load, p, |before|, Size(before));
    PlanGoesOn(names, before, s, p, q);
  }

  /** Any plan of such scenarios is labelled right, and leaves nothing waiting. */
  lemma {:induction false} PlanIsTold(names: Naming, plan: seq<Scenario>, n: nat)
    requires IsSoundNaming(names) && n <= |plan| && forall k :: 0 <= k < |plan| ==> IsTellable(plan[k])
    ensures PlanTold(names, plan[..n], Follow(UniqueEvents(names, plan[..n])))
    decreases n
  {
    if n == 0 {
      assert EventIds(names, 0) == {} && OrderIds(names, 0) == {};
    } else {
      PlanIsTold(names, plan, n - 1);
      var before, s := plan[..n - 1], plan[n - 1];
      var q := OneMoreIsTold(names, before, s, UniqueEvents(names, before), Follow(UniqueEvents(names, before)));
      UniqueSplits(names, before, s);
      TakeLast(plan, n);
    }
  }

  lemma SpecialsAreTellable(outOfOrder: nat, invalid: nat, k: nat)
    requires k < outOfOrder + invalid
    ensures IsTellable(Specials(outOfOrder, invalid)[k])
  {
    CancellationStory();
  }

  lemma PlanIsTellable(t: Counts, random: nat -> nat)
    requires IsFeasible(t)
    ensures forall k :: 0 <= k < |PlanOf(t, random)| ==> IsTellable(PlanOf(t, random)[k])
  {
    var left := PlanParts(t, random);
    forall k | 0 <= k < |PlanOf(t, random)|
      ensures IsTellable(PlanOf(t, random)[k])
    {
      if k >= t.outOfOrder + t.invalid {
        NormalStories(random, 0, left, k - t.outOfOrder - t.invalid);
      } else {
        SpecialsAreTellable(t.outOfOrder, t.invalid, k);
      }
    }
  }

  /** Each event of the load is classified as its label announces when its turn comes. */
  ghost predicate LabelsHold(load: seq<GeneratedEvent>) {
    forall k :: 0 <= k < |load| ==> LabelHolds(Run(EMPTY_TABLES, EventsOf(load[..k])), load[k])
  }

  /** How many deferred events the serial run of the load replays. */
  ghost function TotalReplayed(load: seq<GeneratedEvent>): nat
    decreases |load|
  {
    if load == [] then 0
    else
      var n := |load| - 1;
      TotalReplayed(load[..n]) + Step(Run(EMPTY_TABLES, EventsOf(load[..n])), load[n].event).result.replayedPending
  }

  lemma {:induction false} ReplayedInAll(load: seq<GeneratedEvent>)
    ensures Follow(load).replayed == TotalReplayed(load)
    decreases |load|
  {
    if load != [] {
      ReplayedInAll(load[..|load| - 1]);
      FollowIsRun(load[..|load| - 1]);
    }
  }

  /** Feeding the load of any accepted configuration to a processor with empty tables: duplicates
      are answered as duplicates, early events wait, impossible ones are rejected, all others
      apply. In the end nothing waits, and every early event was replayed. */
  lemma LabelsAgree(c: Config, random: nat -> nat)
    requires Validate(c) == None
    ensures LabelsHold(Load(c, random))
    ensures Run(EMPTY_TABLES, EventsOf(Load(c, random))).pending == map[]
    ensures TotalReplayed(Load(c, random)) == Targets(c).outOfOrder
  {
    var names, plan, load := NamesOf(c.seed), Plan(c, random), Load(c, random);
    var unique := UniqueEvents(names, plan);
    NamesAreSound(c.seed);
    TargetsAreFeasible(c);
    PlanIsTellable(Targets(c), random);
    PlanIsTold(names, plan, |plan|);
    TakeAll(plan);
    PlanLabels(Targets(c), random);
    assert unique[..|unique|] == unique;
    DuplicatesAreLabelled(unique, |unique|, Targets(c).duplicates);
    assert load[..|load|] == load;
    forall k | 0 <= k < |load|
      ensures LabelHolds(Run(EMPTY_TABLES, EventsOf(load[..k])), load[k])
    {
      LabelHeld(load, k, |load|);
      FollowIsRun(load[..k]);
    }
    FollowIsRun(load);
    ReplayedInAll(load);
  }
}
