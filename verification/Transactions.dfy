/** One transaction as a sequence of statements that reads only its own order. */
module Transactions {
  import opened Domain
  import opened Schema
  import opened Processor
  import opened Invariants
  import opened Steps
  import opened Repository

  /** What follows the statements that are already decided. */
  datatype After =
    | ThenReplay(first: TransitionResult, current: Status, applied: nat)
    | ThenCommit(result: ProcessResult)

  /** Waiting for the advisory lock; holding it, before the event id is inserted; about to read
      the order; or running decided statements. */
  datatype Phase = Waiting | Locked | Loading | Running(todo: seq<Stmt>, after: After)

  datatype Program = Program(stmts: seq<Stmt>, result: ProcessResult)

  /** The statements that replay a queue. */
  function ReplayProgram(queue: seq<OrderEvent>, current: Status): seq<Stmt>
    decreases |queue|
  {
    if queue == [] || Classify(current, queue[0].status) == OutOfOrder then []
    else ReplayStmts(queue[0], current) + ReplayProgram(queue[1..], NextStatus(current, queue[0]))
  }

  function ReplayCount(queue: seq<OrderEvent>, current: Status): nat
    decreases |queue|
  {
    if queue == [] || Classify(current, queue[0].status) == OutOfOrder then 0
    else
      (if Classify(current, queue[0].status) == Applied then 1 else 0)
      + ReplayCount(queue[1..], NextStatus(current, queue[0]))
  }

  ghost function OrderQueue(view: Tables, o: OrderId): seq<OrderEvent> {
    Queue(view.pending, PendingIds(view.pending, o))
  }

  /** Reading the order decides the first statements and what comes after them. */
  function Decide(view: Tables, e: OrderEvent): Phase {
    var current := CurrentStatus(view, e.orderId);
    var tr := EvaluateTransition(current, e.status);
    Running(
      RouteStmts(e, current, e.orderId in view.orders),
      if tr.classification == Applied then ThenReplay(tr, e.status, 0) else ThenCommit(RoutedResult(e, tr, 0)))
  }

  /** Reading the least pending row decides one more round, or the end. */
  ghost function DecideReplay(view: Tables, e: OrderEvent, after: After): Phase
    requires after.ThenReplay?
  {
    var queue := OrderQueue(view, e.orderId);
    if queue == [] || Classify(after.current, queue[0].status) == OutOfOrder then
      Running([], ThenCommit(RoutedResult(e, after.first, after.applied)))
    else
      Running(
        ReplayStmts(queue[0], after.current),
        ThenReplay(after.first, NextStatus(after.current, queue[0]),
                   after.applied + if Classify(after.current, queue[0].status) == Applied then 1 else 0))
  }

  /** All that is left to do from a phase when nobody else interferes. */
  ghost function Remaining(view: Tables, e: OrderEvent, phase: Phase): Program
    requires phase.Loading? || phase.Running?
  {
    var running := if phase.Loading? then Decide(view, e) else phase;
    var settled := ExecAll(view, running.todo);
    match running.after
    case ThenCommit(result) => Program(running.todo, result)
    case ThenReplay(first, current, applied) =>
      var queue := OrderQueue(settled, e.orderId);
      Program(running.todo + ReplayProgram(queue, current), RoutedResult(e, first, applied + ReplayCount(queue, current)))
  }

  function Insertion(e: OrderEvent): Stmt {
    InsertProcessed(e.eventId, ReceivedRow(e))
  }

  /** The statements of the whole transaction run alone on `t`, and its answer. */
  ghost function WholeProgram(t: Tables, e: OrderEvent): Program {
    if e.eventId in t.processed then Program([], DuplicateResult(e))
    else
      var rest := Remaining(Exec(t, Insertion(e)), e, Loading);
      Program([Insertion(e)] + rest.stmts, rest.result)
  }

  // ----- the program does what Step says, without violating a constraint -----

  lemma {:induction false} ReplayProgramReplays(t: Tables, queue: seq<OrderEvent>, o: OrderId)
    requires Consistent(t) && o in t.orders && IsDeferred(t, queue, o)
    ensures var current := CurrentStatus(t, o);
            var stmts := ReplayProgram(queue, current);
            && AcceptsAll(t, stmts)
            && ExecAll(t, stmts) == Replay(t, queue, current).tables
            && ReplayCount(queue, current) == Replay(t, queue, current).applied
    decreases |queue|
  {
    var current := CurrentStatus(t, o);
    if queue != [] && Classify(current, queue[0].status) != OutOfOrder {
      var e := queue[0];
      var t' := Route(t, e, current);
      assert IsPendingFor(t.pending, o, e.eventId);
      DeferredIsRoutable(t, queue, o);
      RouteKeepsConsistent(t, e);
      RouteShortensQueue(t, queue, o, current);
      RoutesToItsStatus(t, e);
      ReplayProgramReplays(t', queue[1..], o);
      ReplayStmtsRoute(t, e);
      ExecAllConcat(t, ReplayStmts(e, current), ReplayProgram(queue[1..], NextStatus(current, e)));
    }
  }

  lemma FirstStmtsDecided(t: Tables, e: OrderEvent)
    requires Consistent(t) && e.status.IsKnown() && e.eventId !in t.processed
    ensures var phase := Decide(Exec(t, Insertion(e)), e);
            && [Insertion(e)] + phase.todo == FirstStmts(e, CurrentStatus(t, e.orderId), e.orderId in t.orders)
            && AcceptsAll(t, [Insertion(e)] + phase.todo)
            && ExecAll(t, [Insertion(e)] + phase.todo) == Route(t, e, CurrentStatus(t, e.orderId))
            && ExecAll(Exec(t, Insertion(e)), phase.todo) == Route(t, e, CurrentStatus(t, e.orderId))
  {
    FirstStmtsRoute(t, e);
    ExecAllConcat(t, [Insertion(e)], Decide(Exec(t, Insertion(e)), e).todo);
    OneStmt(t, Insertion(e));
  }

  lemma AppliedDecision(t: Tables, e: OrderEvent)
    requires Classify(CurrentStatus(t, e.orderId), e.status) == Applied
    ensures var phase := Decide(Exec(t, Insertion(e)), e);
            phase.after == ThenReplay(EvaluateTransition(CurrentStatus(t, e.orderId), e.status), e.status, 0)
  {
  }

  lemma RemainingShape(view: Tables, e: OrderEvent, phase: Phase, routed: Tables)
    requires phase == Decide(view, e) && phase.after.ThenReplay? && routed == ExecAll(view, phase.todo)
    ensures var queue := OrderQueue(routed, e.orderId);
            Remaining(view, e, Loading) == Program(
              phase.todo + ReplayProgram(queue, phase.after.current),
              RoutedResult(e, phase.after.first, phase.after.applied + ReplayCount(queue, phase.after.current)))
  {
  }

  lemma ConcatIsAssociative(a: seq<Stmt>, b: seq<Stmt>, c: seq<Stmt>)
    ensures a + (b + c) == (a + b) + c
  {
  }

  lemma AppliedProgramShape(t: Tables, e: OrderEvent)
    requires Consistent(t) && e.status.IsKnown() && e.eventId !in t.processed
    requires Classify(CurrentStatus(t, e.orderId), e.status) == Applied
    ensures var queue := OrderQueue(Route(t, e, CurrentStatus(t, e.orderId)), e.orderId);
            var first := EvaluateTransition(CurrentStatus(t, e.orderId), e.status);
            WholeProgram(t, e) == Program(
              ([Insertion(e)] + Decide(Exec(t, Insertion(e)), e).todo) + ReplayProgram(queue, e.status),
              RoutedResult(e, first, ReplayCount(queue, e.status)))
  {
    var view, routed := Exec(t, Insertion(e)), Route(t, e, CurrentStatus(t, e.orderId));
    var phase := Decide(view, e);
    FirstStmtsDecided(t, e);
    AppliedDecision(t, e);
    RemainingShape(view, e, phase, routed);
    var replay := ReplayProgram(OrderQueue(routed, e.orderId), e.status);
    ConcatIsAssociative([Insertion(e)], phase.todo, replay);
  }

  lemma AppliedReplayRuns(t: Tables, e: OrderEvent)
    requires Consistent(t) && e.status.IsKnown() && e.eventId !in t.processed
    requires Classify(CurrentStatus(t, e.orderId), e.status) == Applied
    ensures var t1 := Route(t, e, CurrentStatus(t, e.orderId));
            var queue := OrderQueue(t1, e.orderId);
            var stmts := ReplayProgram(queue, e.status);
            AcceptsAll(t1, stmts) && ExecAll(t1, stmts) == Step(t, e).tables
            && ReplayCount(queue, e.status) == Step(t, e).result.replayedPending
  {
    var t1 := Route(t, e, CurrentStatus(t, e.orderId));
    RouteKeepsConsistent(t, e);
    RoutesToItsStatus(t, e);
    QueueIsDeferred(t1, e.orderId);
    ReplayProgramReplays(t1, OrderQueue(t1, e.orderId), e.orderId);
  }

  lemma WholeProgramIsStep(t: Tables, e: OrderEvent)
    requires Consistent(t) && e.status.IsKnown()
    ensures var program := WholeProgram(t, e);
            && AcceptsAll(t, program.stmts)
            && ExecAll(t, program.stmts) == Step(t, e).tables
            && program.result == Step(t, e).result
  {
    if e.eventId !in t.processed {
      var current := CurrentStatus(t, e.orderId);
      var head := [Insertion(e)] + Decide(Exec(t, Insertion(e)), e).todo;
      FirstStmtsDecided(t, e);
      if Classify(current, e.status) == Applied {
        AppliedProgramShape(t, e);
        AppliedReplayRuns(t, e);
        ExecAllConcat(t, head, ReplayProgram(OrderQueue(Route(t, e, current), e.orderId), e.status));
      } else {
        assert WholeProgram(t, e).stmts == head;
      }
    }
  }

  // ----- a transaction depends on its own order only -----

  lemma SameOrderExec(t: Tables, u: Tables, s: Stmt, o: OrderId)
    requires SameOrder(t, u, o)
    ensures SameOrder(Exec(t, s), Exec(u, s), o)
  {
    forall id
      ensures IsPendingFor(Exec(t, s).pending, o, id) <==> IsPendingFor(Exec(u, s).pending, o, id)
      ensures IsPendingFor(Exec(t, s).pending, o, id) ==> Exec(t, s).pending[id] == Exec(u, s).pending[id]
    {
      SamePendingExec(t, u, s, o, id);
    }
  }

  lemma SamePendingExec(t: Tables, u: Tables, s: Stmt, o: OrderId, id: EventId)
    requires IsPendingFor(t.pending, o, id) <==> IsPendingFor(u.pending, o, id)
    requires IsPendingFor(t.pending, o, id) ==> t.pending[id] == u.pending[id]
    ensures IsPendingFor(Exec(t, s).pending, o, id) <==> IsPendingFor(Exec(u, s).pending, o, id)
    ensures IsPendingFor(Exec(t, s).pending, o, id) ==> Exec(t, s).pending[id] == Exec(u, s).pending[id]
  {
  }

  lemma {:induction false} SameOrderExecAll(t: Tables, u: Tables, stmts: seq<Stmt>, o: OrderId)
    requires SameOrder(t, u, o)
    ensures SameOrder(ExecAll(t, stmts), ExecAll(u, stmts), o)
    decreases |stmts|
  {
    if stmts != [] {
      SameOrderExec(t, u, stmts[0], o);
      SameOrderExecAll(Exec(t, stmts[0]), Exec(u, stmts[0]), stmts[1..], o);
    }
  }

  lemma SameOrderQueue(t: Tables, u: Tables, o: OrderId)
    requires SameOrder(t, u, o)
    ensures OrderQueue(t, o) == OrderQueue(u, o)
  {
    var ids := PendingIds(t.pending, o);
    forall id
      ensures id in ids <==> id in PendingIds(u.pending, o)
    {
      assert IsPendingFor(t.pending, o, id) <==> IsPendingFor(u.pending, o, id);
    }
    assert ids == PendingIds(u.pending, o);
    forall id | id in ids
      ensures t.pending[id] == u.pending[id]
    {
      assert IsPendingFor(t.pending, o, id);
    }
    QueueDependsOnRows(t.pending, u.pending, ids);
  }

  lemma DecideIsLocal(t: Tables, u: Tables, e: OrderEvent)
    requires SameOrder(t, u, e.orderId)
    ensures Decide(t, e) == Decide(u, e)
  {
  }

  lemma RunningIsLocal(t: Tables, u: Tables, e: OrderEvent, running: Phase)
    requires SameOrder(t, u, e.orderId) && running.Running?
    ensures Remaining(t, e, running) == Remaining(u, e, running)
  {
    SameOrderExecAll(t, u, running.todo, e.orderId);
    SameOrderQueue(ExecAll(t, running.todo), ExecAll(u, running.todo), e.orderId);
  }

  lemma RemainingIsLocal(t: Tables, u: Tables, e: OrderEvent, phase: Phase)
    requires SameOrder(t, u, e.orderId) && (phase.Loading? || phase.Running?)
    ensures Remaining(t, e, phase) == Remaining(u, e, phase)
  {
    DecideIsLocal(t, u, e);
    RunningIsLocal(t, u, e, if phase.Loading? then Decide(t, e) else phase);
  }

  lemma WholeProgramIsLocal(t: Tables, u: Tables, e: OrderEvent)
    requires SameOrder(t, u, e.orderId) && (e.eventId in t.processed <==> e.eventId in u.processed)
    ensures WholeProgram(t, e) == WholeProgram(u, e)
  {
    if e.eventId !in t.processed {
      SameOrderExec(t, u, Insertion(e), e.orderId);
      RemainingIsLocal(Exec(t, Insertion(e)), Exec(u, Insertion(e)), e, Loading);
    }
  }

  // ----- each own step follows the program -----

  lemma ReplayStmtsTakeOneRow(view: Tables, e: OrderEvent, current: Status)
    requires Classify(current, e.status) != OutOfOrder
    ensures ExecAll(view, ReplayStmts(e, current)).pending == view.pending - {e.eventId}
  {
    var route, last := RouteStmts(e, current, true), DeletePending(e.eventId);
    var tr := EvaluateTransition(current, e.status);
    var outcome := UpdateOutcome(e.eventId, tr.classification);
    ExecAllConcat(view, route, [last]);
    OneStmt(ExecAll(view, route), last);
    if tr.classification == Applied {
      ThreeStmts(view, SaveOrder(e, true), SaveHistory(e, current, true), outcome);
    } else if tr.classification == InvalidTransition {
      TwoStmts(view, SaveDeadLetter(e, tr.reason), outcome);
    } else {
      OneStmt(view, outcome);
    }
  }

  lemma StatementFollowsProgram(view: Tables, e: OrderEvent, todo: seq<Stmt>, after: After)
    requires todo != []
    ensures var p, q := Remaining(view, e, Running(todo, after)), Remaining(Exec(view, todo[0]), e, Running(todo[1..], after));
            p.stmts == [todo[0]] + q.stmts && p.result == q.result
  {
    assert ExecAll(view, todo) == ExecAll(Exec(view, todo[0]), todo[1..]);
    assert todo == [todo[0]] + todo[1..];
  }

  lemma ReplayFollowsProgram(view: Tables, e: OrderEvent, after: After)
    requires after.ThenReplay?
    ensures Remaining(view, e, DecideReplay(view, e, after)) == Remaining(view, e, Running([], after))
  {
    var queue := OrderQueue(view, e.orderId);
    assert ExecAll(view, []) == view;
    if queue != [] && Classify(after.current, queue[0].status) != OutOfOrder {
      ReplayStmtsTakeOneRow(view, queue[0], after.current);
      QueueTail(view.pending, e.orderId, queue);
      var next := ExecAll(view, ReplayStmts(queue[0], after.current));
      assert OrderQueue(next, e.orderId) == queue[1..];
    }
  }
}
