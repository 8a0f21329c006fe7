/** Process-local counters and what they say about the tables. */
module Metrics {
  import opened Domain
  import opened Schema
  import opened Processor
  import opened Invariants
  import opened Steps
  import opened Concurrency

  datatype Counters = Counters(
    processed: nat,
    applied: nat,
    duplicatesSkipped: nat,
    duplicateStatus: nat,
    outOfOrder: nat,
    invalidTransitions: nat,
    deadLetters: nat,
    failures: nat,
    simulatedFailures: nat,
    recoveredMessages: nat,
    pendingReplayed: nat)

  const NO_COUNTS := Counters(0, 0, 0, 0, 0, 0, 0, 0, 0, 0, 0)

  /** The counters after one committed answer. */
  function Recorded(c: Counters, r: ProcessResult): Counters {
    var k := r.classification;
    Counters(
      processed := c.processed + One(k != Received),
      applied := c.applied + One(k == Applied),
      duplicatesSkipped := c.duplicatesSkipped + One(k == DuplicateEvent),
      duplicateStatus := c.duplicateStatus + One(k == DuplicateStatus),
      outOfOrder := c.outOfOrder + One(k == OutOfOrder),
      invalidTransitions := c.invalidTransitions + One(k == InvalidTransition),
      deadLetters := c.deadLetters + One(k == InvalidTransition && r.deadLetter),
      failures := c.failures,
      simulatedFailures := c.simulatedFailures,
      recoveredMessages := c.recoveredMessages,
      pendingReplayed := c.pendingReplayed + r.replayedPending)
  }

  function One(b: bool): nat {
    if b then 1 else 0
  }

  lemma RecordingCommutes(c: Counters, a: ProcessResult, b: ProcessResult)
    ensures Recorded(Recorded(c, a), b) == Recorded(Recorded(c, b), a)
  {
  }

  /** The counters after recording answers one by one. */
  function RecordedAll(c: Counters, answers: seq<ProcessResult>): Counters
    decreases |answers|
  {
    if answers == [] then c else Recorded(RecordedAll(c, answers[..|answers| - 1]), answers[|answers| - 1])
  }

  lemma RecordedSnoc(c: Counters, answers: seq<ProcessResult>, r: ProcessResult)
    ensures RecordedAll(c, answers + [r]) == Recorded(RecordedAll(c, answers), r)
  {
    assert (answers + [r])[..|answers|] == answers;
  }

  lemma {:induction false} RecordedEarlier(c: Counters, before: seq<ProcessResult>, r: ProcessResult, after: seq<ProcessResult>)
    ensures RecordedAll(c, before + [r] + after) == Recorded(RecordedAll(c, before + after), r)
    decreases |after|
  {
    if after == [] {
      assert before + [r] + after == before + [r] && before + after == before;
      RecordedSnoc(c, before, r);
    } else {
      var init, last := after[..|after| - 1], after[|after| - 1];
      assert before + [r] + after == before + [r] + init + [last] && before + after == before + init + [last];
      RecordedEarlier(c, before, r, init);
      RecordedSnoc(c, before + [r] + init, last);
      RecordedSnoc(c, before + init, last);
      RecordingCommutes(RecordedAll(c, before + init), r, last);
    }
  }

  lemma TakeOneAway<T>(init: seq<T>, last: T, before: seq<T>, after: seq<T>)
    requires multiset(init + [last]) == multiset(before + [last] + after)
    ensures multiset(init) == multiset(before + after)
  {
    assert multiset(init + [last]) == multiset(init) + multiset{last};
    assert multiset(before + [last] + after) == multiset(before) + multiset{last} + multiset(after);
    assert multiset(before + after) == multiset(before) + multiset(after);
    forall x
      ensures multiset(init)[x] == multiset(before + after)[x]
    {
      assert multiset(init + [last])[x] == multiset(init)[x] + multiset{last}[x];
    }
  }

  /** Workers record their answers in any order: the counters depend only on which answers were
      recorded how often. */
  lemma {:induction false} RecordingOrderIsIrrelevant(c: Counters, a: seq<ProcessResult>, b: seq<ProcessResult>)
    requires multiset(a) == multiset(b)
    ensures RecordedAll(c, a) == RecordedAll(c, b)
    decreases |a|
  {
    if a == [] {
      assert |multiset(b)| == 0;
    } else {
      var init, last := a[..|a| - 1], a[|a| - 1];
      assert a == init + [last];
      assert last in multiset(b);
      var i :| 0 <= i < |b| && b[i] == last;
      var before, after := b[..i], b[i + 1..];
      assert b == before + [last] + after;
      TakeOneAway(init, last, before, after);
      RecordingOrderIsIrrelevant(c, init, before + after);
      RecordedEarlier(c, before, last, after);
    }
  }

  class Collector {
    var processed: nat
    var applied: nat
    var duplicatesSkipped: nat
    var duplicateStatus: nat
    var outOfOrder: nat
    var invalidTransitions: nat
    var deadLetters: nat
    var failures: nat
    var simulatedFailures: nat
    var recoveredMessages: nat
    var pendingReplayed: nat

    constructor ()
      ensures Value() == NO_COUNTS
    {
      processed, applied, duplicatesSkipped, duplicateStatus, outOfOrder := 0, 0, 0, 0, 0;
      invalidTransitions, deadLetters, failures, simulatedFailures := 0, 0, 0, 0;
      recoveredMessages, pendingReplayed := 0, 0;
    }

    function Value(): Counters
      reads this
    {
      Counters(processed, applied, duplicatesSkipped, duplicateStatus, outOfOrder, invalidTransitions,
               deadLetters, failures, simulatedFailures, recoveredMessages, pendingReplayed)
    }

    method RecordResult(result: ProcessResult)
      modifies this
      ensures Value() == Recorded(old(Value()), result)
    {
      if result.replayedPending > 0 {
        pendingReplayed := pendingReplayed + result.replayedPending;
      }
      match result.classification {
        case Applied =>
          processed := processed + 1;
          applied := applied + 1;
        case DuplicateEvent =>
          processed := processed + 1;
          duplicatesSkipped := duplicatesSkipped + 1;
        case DuplicateStatus =>
          processed := processed + 1;
          duplicateStatus := duplicateStatus + 1;
        case OutOfOrder =>
          processed := processed + 1;
          outOfOrder := outOfOrder + 1;
        case InvalidTransition =>
          processed := processed + 1;
          invalidTransitions := invalidTransitions + 1;
          if result.deadLetter {
            deadLetters := deadLetters + 1;
          }
        case Received =>
      }
    }

    method RecordFailure()
      modifies this`failures
      ensures Value() == old(Value()).(failures := old(failures) + 1)
    {
      failures := failures + 1;
    }

    method RecordSimulatedFailure()
      modifies this`simulatedFailures
      ensures Value() == old(Value()).(simulatedFailures := old(simulatedFailures) + 1)
    {
      simulatedFailures := simulatedFailures + 1;
    }

    method RecordRecovered()
      modifies this`recoveredMessages
      ensures Value() == old(Value()).(recoveredMessages := old(recoveredMessages) + 1)
    {
      recoveredMessages := recoveredMessages + 1;
    }
  }

  // ----- the ledger -----

  /** The counters of a process, and the deferred events that a replay dead-lettered or dropped
      as duplicates, which no counter shows. */
  datatype Book = Book(counters: Counters, replayDeadLettered: nat, replayDropped: nat)

  ghost function Tally(events: seq<OrderEvent>): Book
    decreases |events|
  {
    if events == [] then Book(NO_COUNTS, 0, 0)
    else
      var n := |events| - 1;
      var b, t := Tally(events[..n]), Run(EMPTY_TABLES, events[..n]);
      match ValidateEvent(events[n])
      case Rejected(_) => b.(counters := b.counters.(failures := b.counters.failures + 1))
      case Valid(e) =>
        var r := if e.eventId in t.processed then Replayed(t, NoStatus, 0, 0, 0) else ReplayAfter(t, e);
        Book(Recorded(b.counters, Step(t, e).result), b.replayDeadLettered + r.deadLettered, b.replayDropped + r.dropped)
  }

  predicate IsBalanced(t: Tables, b: Book) {
    var c := b.counters;
    && c.processed == c.applied + c.duplicatesSkipped + c.duplicateStatus + c.outOfOrder + c.invalidTransitions
    && c.processed == |t.processed| + c.duplicatesSkipped
    && |t.history| == c.applied + c.pendingReplayed
    && c.invalidTransitions == c.deadLetters
    && |t.deadLetters| == c.deadLetters + b.replayDeadLettered
    && c.outOfOrder == |t.pending| + c.pendingReplayed + b.replayDeadLettered + b.replayDropped
  }

  lemma RouteSizes(t: Tables, e: OrderEvent, current: Status)
    ensures var t', c := Route(t, e, current), Classify(current, e.status);
            && |t'.processed| == |t.processed| + (if e.eventId in t.processed then 0 else 1)
            && |t'.history| == |t.history| + (if c == Applied then 1 else 0)
            && |t'.deadLetters| == |t.deadLetters| + (if c == InvalidTransition then 1 else 0)
            && |t'.pending| == |t.pending| + (if c == OutOfOrder then 1 else 0) - (if e.eventId in t.pending then 1 else 0)
  {
    var t' := Route(t, e, current);
    MapSizes(t.processed, e.eventId, t'.processed[e.eventId]);
    MapSizes(t.pending, e.eventId,
             PendingRow(e.orderId, e.status, e.timestamp, EvaluateTransition(current, e.status).reason, e.payload));
  }

  lemma {:induction false} ReplaySizes(t: Tables, queue: seq<OrderEvent>, current: Status, o: OrderId)
    requires IsDeferred(t, queue, o)
    requires forall i :: 0 <= i < |queue| ==> queue[i].eventId in t.processed
    ensures var r := Replay(t, queue, current);
            && |r.tables.processed| == |t.processed|
            && |r.tables.history| == |t.history| + r.applied
            && |r.tables.deadLetters| == |t.deadLetters| + r.deadLettered
            && |r.tables.pending| == |t.pending| - r.applied - r.deadLettered - r.dropped
    decreases |queue|
  {
    if queue != [] && Classify(current, queue[0].status) != OutOfOrder {
      assert IsPendingFor(t.pending, o, queue[0].eventId);
      RouteSizes(t, queue[0], current);
      RouteShortensQueue(t, queue, o, current);
      ReplaySizes(Route(t, queue[0], current), queue[1..], NextStatus(current, queue[0]), o);
    }
  }

  lemma StepSizes(t: Tables, e: OrderEvent)
    requires PendingRowsMatch(t.processed, t.pending) && e.eventId !in t.processed
    ensures var t', r, c := Step(t, e).tables, ReplayAfter(t, e), Classify(CurrentStatus(t, e.orderId), e.status);
            && |t'.processed| == |t.processed| + 1
            && |t'.history| == |t.history| + (if c == Applied then 1 else 0) + r.applied
            && |t'.deadLetters| == |t.deadLetters| + (if c == InvalidTransition then 1 else 0) + r.deadLettered
            && |t'.pending| == |t.pending| + (if c == OutOfOrder then 1 else 0) - r.applied - r.deadLettered - r.dropped
            && Step(t, e).result.replayedPending == r.applied
  {
    var current := CurrentStatus(t, e.orderId);
    var t1 := Route(t, e, current);
    assert e.eventId in t.pending <==> HasOutcome(t.processed, e.eventId, OutOfOrder);
    RouteSizes(t, e, current);
    if Classify(current, e.status) == Applied {
      var queue := Queue(t1.pending, PendingIds(t1.pending, e.orderId));
      QueueIsDeferred(t1, e.orderId);
      forall i | 0 <= i < |queue|
        ensures queue[i].eventId in t1.processed
      {
        assert IsPendingFor(t1.pending, e.orderId, queue[i].eventId);
        assert queue[i].eventId in t.pending <==> HasOutcome(t.processed, queue[i].eventId, OutOfOrder);
      }
      ReplaySizes(t1, queue, e.status, e.orderId);
    }
  }

  lemma DuplicateBalances(t: Tables, e: OrderEvent, b: Book)
    requires IsBalanced(t, b)
    ensures IsBalanced(t, b.(counters := Recorded(b.counters, DuplicateResult(e))))
  {
  }

  /** A new event: sizes and counters move together, class by class. */
  lemma NewEventBalances(t: Tables, t': Tables, e: OrderEvent, tr: TransitionResult, r: Replayed, b: Book)
    requires IsBalanced(t, b)
    requires tr.classification in {Applied, DuplicateStatus, OutOfOrder, InvalidTransition}
    requires tr.classification != Applied ==> r.applied == 0
    requires |t'.processed| == |t.processed| + 1
    requires |t'.history| == |t.history| + One(tr.classification == Applied) + r.applied
    requires |t'.deadLetters| == |t.deadLetters| + One(tr.classification == InvalidTransition) + r.deadLettered
    requires |t'.pending| == |t.pending| + One(tr.classification == OutOfOrder) - r.applied - r.deadLettered - r.dropped
    ensures IsBalanced(t', Book(Recorded(b.counters, RoutedResult(e, tr, r.applied)),
                                b.replayDeadLettered + r.deadLettered, b.replayDropped + r.dropped))
  {
  }

  lemma StepBalances(t: Tables, e: OrderEvent, b: Book)
    requires PendingRowsMatch(t.processed, t.pending) && IsBalanced(t, b) && IsNormal(e)
    requires CurrentStatus(t, e.orderId) == NoStatus || CurrentStatus(t, e.orderId).IsKnown()
    ensures var r := if e.eventId in t.processed then Replayed(t, NoStatus, 0, 0, 0) else ReplayAfter(t, e);
            IsBalanced(Step(t, e).tables, Book(Recorded(b.counters, Step(t, e).result),
                       b.replayDeadLettered + r.deadLettered, b.replayDropped + r.dropped))
  {
    if e.eventId in t.processed {
      DuplicateBalances(t, e, b);
    } else {
      NewStepBalances(t, e, EvaluateTransition(CurrentStatus(t, e.orderId), e.status), ReplayAfter(t, e), b);
    }
  }

  lemma NewStepBalances(t: Tables, e: OrderEvent, tr: TransitionResult, r: Replayed, b: Book)
    requires PendingRowsMatch(t.processed, t.pending) && IsBalanced(t, b) && e.status.IsKnown() && e.eventId !in t.processed
    requires CurrentStatus(t, e.orderId) == NoStatus || CurrentStatus(t, e.orderId).IsKnown()
    requires tr == EvaluateTransition(CurrentStatus(t, e.orderId), e.status) && r == ReplayAfter(t, e)
    ensures IsBalanced(r.tables, Book(Recorded(b.counters, RoutedResult(e, tr, r.applied)),
                                      b.replayDeadLettered + r.deadLettered, b.replayDropped + r.dropped))
  {
    StepSizes(t, e);
    OnlyAppliedReplays(t, e);
    NewEventBalances(t, r.tables, e, tr, r, b);
  }

  lemma OnlyAppliedReplays(t: Tables, e: OrderEvent)
    requires e.eventId !in t.processed
    ensures var c := Classify(CurrentStatus(t, e.orderId), e.status);
            && c in {Applied, DuplicateStatus, OutOfOrder, InvalidTransition}
            && (c != Applied ==> ReplayAfter(t, e).applied == 0)
            && Step(t, e).tables == ReplayAfter(t, e).tables
  {
  }

  /** The ledger balances after every run that starts from empty tables. */
  lemma {:induction false} LedgerBalances(events: seq<OrderEvent>)
    ensures IsBalanced(Run(EMPTY_TABLES, events), Tally(events))
    decreases |events|
  {
    if events != [] {
      var n := |events| - 1;
      var t := Run(EMPTY_TABLES, events[..n]);
      LedgerBalances(events[..n]);
      EmptyTablesInv();
      RunKeepsInv(EMPTY_TABLES, events[..n]);
      if ValidateEvent(events[n]).Valid? {
        var e := ValidateEvent(events[n]).event;
        ValidationNormalizes(events[n]);
        StatusIsKnown(t, e.orderId);
        StepBalances(t, e, Tally(events[..n]));
      }
    }
  }

  // ----- the ledger of concurrent workers -----

  /** The answers of the log in commit order. */
  function Answers(log: seq<Entry>): seq<ProcessResult> {
    seq(|log|, k requires 0 <= k < |log| => log[k].result)
  }

  lemma LoggedAnswers(log: seq<Entry>, entry: Entry)
    ensures Answers(log + [entry]) == Answers(log) + [entry.result]
    ensures CommittedEvents(log + [entry]) == CommittedEvents(log) + [entry.event]
  {
  }

  lemma TallySnoc(events: seq<OrderEvent>, e: OrderEvent)
    requires IsNormal(e)
    ensures Tally(events + [e]).counters == Recorded(Tally(events).counters, Step(Run(EMPTY_TABLES, events), e).result)
  {
    assert (events + [e])[..|events|] == events;
  }

  /** Every answer is the one that serial processing of the log gives. */
  ghost predicate AnswersAreSerial(log: seq<Entry>) {
    forall k :: 0 <= k < |log| ==>
      && IsNormal(log[k].event)
      && log[k].result == Step(Run(EMPTY_TABLES, CommittedEvents(log[..k])), log[k].event).result
  }

  lemma LastAnswerIsSerial(log: seq<Entry>, entry: Entry)
    requires AnswersAreSerial(log + [entry])
    ensures AnswersAreSerial(log) && IsNormal(entry.event)
    ensures entry.result == Step(Run(EMPTY_TABLES, CommittedEvents(log)), entry.event).result
  {
    var more := log + [entry];
    assert more[..|log|] == log && more[|log|] == entry;
    forall k | 0 <= k < |log|
      ensures more[..k] == log[..k] && more[k] == log[k]
    {
    }
  }

  lemma LastSplits<T>(s: seq<T>)
    requires s != []
    ensures s == s[..|s| - 1] + [s[|s| - 1]]
  {
  }

  lemma {:induction false} CommitOrderIsTally(log: seq<Entry>)
    requires AnswersAreSerial(log)
    ensures RecordedAll(NO_COUNTS, Answers(log)) == Tally(CommittedEvents(log)).counters
    decreases |log|
  {
    if log != [] {
      var before, entry := log[..|log| - 1], log[|log| - 1];
      LastSplits(log);
      LastAnswerIsSerial(before, entry);
      CommitOrderIsTally(before);
      LoggedAnswers(before, entry);
      RecordedSnoc(NO_COUNTS, Answers(before), entry.result);
      TallySnoc(CommittedEvents(before), entry.event);
    }
  }

  /** The ledger balances after every interleaving of transactions, in whatever order the workers
      record the answers of their commits. */
  lemma ConcurrentLedgerBalances(hash: LockHash, actions: seq<Action>, recorded: seq<ProcessResult>)
    requires multiset(recorded) == multiset(Answers(PerformAll(hash, actions).log))
    ensures var s := PerformAll(hash, actions);
            var b := Tally(CommittedEvents(s.log));
            b.counters == RecordedAll(NO_COUNTS, recorded) && IsBalanced(s.db, b)
  {
    var s := PerformAll(hash, actions);
    EveryInterleavingIsSerial(hash, actions);
    CommitOrderIsTally(s.log);
    RecordingOrderIsIrrelevant(NO_COUNTS, recorded, Answers(s.log));
    LedgerBalances(CommittedEvents(s.log));
  }
}
