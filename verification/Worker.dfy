/** Worker pool and reclaimer: one message after the other, processed, recorded, acknowledged. */
module Worker {
  import opened Domain
  import opened Schema
  import opened Processor
  import opened Invariants
  import opened Steps
  import opened Repository
  import opened Metrics
  import opened ClaimLoop

  datatype Message = Message(redisId: nat, event: OrderEvent)

  /** What happens to an XACK: it may fail to arrive, or its reply may be lost. */
  datatype AckFate = Acknowledged | NotDelivered | ReplyLost

  /** How the outside world treats one message. */
  datatype Fate = Fate(transaction: TxFate, ack: AckFate)

  // ----- simulated acknowledgement failures -----

  datatype Simulation = Simulation(after: nat, count: nat)

  /** The n-th successful message loses its acknowledgement. */
  predicate SkipsAck(s: Simulation, n: nat) {
    s.after < n <= s.after + s.count
  }

  /** How many of the first n successful messages lost theirs. */
  function SkippedOf(s: Simulation, n: nat): nat {
    if n == 0 then 0 else SkippedOf(s, n - 1) + if SkipsAck(s, n) then 1 else 0
  }

  /** At most `count` acknowledgements are skipped, and all of them once enough messages passed. */
  lemma {:induction false} SkippedIsBounded(s: Simulation, n: nat)
    ensures SkippedOf(s, n) == if n <= s.after then 0 else if n <= s.after + s.count then n - s.after else s.count
    decreases n
  {
    if n > 0 {
      SkippedIsBounded(s, n - 1);
    }
  }

  class AckFailureSimulator {
    const simulation: Simulation
    var successfulProcessed: nat

    constructor (simulation: Simulation)
      ensures this.simulation == simulation && successfulProcessed == 0
    {
      this.simulation, successfulProcessed := simulation, 0;
    }

    method ShouldSkipAck() returns (skip: bool)
      modifies this
      ensures successfulProcessed == old(successfulProcessed) + 1
      ensures skip <==> SkipsAck(simulation, successfulProcessed)
    {
      var position := successfulProcessed + 1;
      successfulProcessed := position;
      if position <= simulation.after {
        return false;
      }
      skip := position - simulation.after <= simulation.count;
    }
  }

  // ----- the consumer group -----

  class ConsumerGroup {
    var pel: set<nat>
    var acked: set<nat>

    constructor (pel: set<nat>)
      ensures this.pel == pel && acked == {}
    {
      this.pel, acked := pel, {};
    }

    method Ack(redisId: nat, fate: AckFate) returns (ok: bool)
      modifies this
      ensures ok <==> fate == Acknowledged
      ensures pel == if fate == NotDelivered then old(pel) else old(pel) - {redisId}
      ensures acked == if fate == NotDelivered then old(acked) else old(acked) + ({redisId} * old(pel))
    {
      if fate != NotDelivered {
        if redisId in pel {
          acked := acked + {redisId};
        }
        pel := pel - {redisId};
      }
      ok := fate == Acknowledged;
    }
  }

  // ----- what handling a message means -----

  /** Everything that a consumer changes. A consumer may do without a collector. */
  datatype State = State(tables: Tables, counters: Option<Counters>, successes: nat, pel: set<nat>, acked: set<nat>)

  datatype Role = PoolWorker(simulation: Option<Simulation>) | Recovery

  function AckedState(s: State, redisId: nat, fate: AckFate): State {
    if fate == NotDelivered then s
    else s.(pel := s.pel - {redisId}, acked := s.acked + ({redisId} * s.pel))
  }

  predicate Succeeds(m: Message, fate: Fate) {
    fate.transaction.Commits? && ValidateEvent(m.event).Valid?
  }

  function FailedState(s: State): State {
    match s.counters
    case None => s
    case Some(c) => s.(counters := Some(c.(failures := c.failures + 1)))
  }

  ghost function ProcessedState(s: State, e: OrderEvent): State {
    var out := Step(s.tables, e);
    s.(tables := out.tables, counters := match s.counters case None => None case Some(c) => Some(Recorded(c, out.result)))
  }

  function SimulatedState(s: State): State {
    match s.counters
    case None => s
    case Some(c) => s.(counters := Some(c.(simulatedFailures := c.simulatedFailures + 1)))
  }

  function RecoveredState(s: State): State {
    match s.counters
    case None => s
    case Some(c) => s.(counters := Some(c.(recoveredMessages := c.recoveredMessages + 1)))
  }

  /** After the commit: count the success, then acknowledge unless this is to be skipped. */
  function ConfirmedState(role: Role, s: State, redisId: nat, ack: AckFate): State {
    match role
    case PoolWorker(None) => AckedState(s, redisId, ack)
    case PoolWorker(Some(simulation)) =>
      var counted := s.(successes := s.successes + 1);
      if SkipsAck(simulation, counted.successes) then SimulatedState(counted) else AckedState(counted, redisId, ack)
    case Recovery => AckedState(RecoveredState(s), redisId, ack)
  }

  /** Failure: only the failure counter moves. Success: the event is processed and recorded, and
      its message is acknowledged unless that is skipped or fails. */
  ghost function Handled(role: Role, s: State, m: Message, fate: Fate): State {
    if Succeeds(m, fate) then
      ConfirmedState(role, ProcessedState(s, ValidateEvent(m.event).event), m.redisId, fate.ack)
    else FailedState(s)
  }

  ghost function HandledAll(role: Role, s: State, messages: seq<Message>, fates: seq<Fate>): State
    requires |messages| == |fates|
    decreases |messages|
  {
    if messages == [] then s
    else
      var n := |messages| - 1;
      Handled(role, HandledAll(role, s, messages[..n], fates[..n]), messages[n], fates[n])
  }

  class Pool {
    const repository: OrderRepository
    const metrics: Collector?
    const group: ConsumerGroup
    const simulator: AckFailureSimulator?

    constructor (repository: OrderRepository, metrics: Collector?, group: ConsumerGroup, after: nat, count: nat)
      ensures this.repository == repository && this.metrics == metrics && this.group == group
      ensures simulator != null <==> after > 0 && count > 0
      ensures simulator != null ==> fresh(simulator) && simulator.simulation == Simulation(after, count)
                                    && simulator.successfulProcessed == 0
    {
      this.repository, this.metrics, this.group := repository, metrics, group;
      if after == 0 || count == 0 {
        simulator := null;
      } else {
        simulator := new AckFailureSimulator(Simulation(after, count));
      }
    }

    function Simulating(): Option<Simulation> {
      if simulator == null then None else Some(simulator.simulation)
    }

    ghost function Value(): State
      reads repository, metrics, group, simulator
    {
      State(repository.Contents(),
            if metrics == null then None else Some(metrics.Value()),
            if simulator == null then 0 else simulator.successfulProcessed,
            group.pel, group.acked)
    }

    method HandleMessage(message: Message, fate: Fate)
      requires Inv(repository.Contents())
      modifies repository, metrics, group, simulator
      ensures Inv(repository.Contents())
      ensures Value() == Handled(PoolWorker(Simulating()), old(Value()), message, fate)
    {
      var answer := repository.ProcessEventTx(message.event, fate.transaction);
      if answer.Failed? {
        if metrics != null {
          metrics.RecordFailure();
        }
        return;
      }
      if metrics != null {
        metrics.RecordResult(answer.result);
      }
      Confirm(message.redisId, fate.ack);
    }

    /** The part of the handling that follows the commit. */
    method Confirm(redisId: nat, fate: AckFate)
      modifies metrics, group, simulator
      ensures Value() == ConfirmedState(PoolWorker(Simulating()), old(Value()), redisId, fate)
    {
      if simulator != null {
        var skip := simulator.ShouldSkipAck();
        if skip {
          if metrics != null {
            metrics.RecordSimulatedFailure();
          }
          return;
        }
      }
      var ok := group.Ack(redisId, fate);
    }

    /** Handles every message of a batch, whatever happens to the ones before it. */
    method HandleBatch(messages: seq<Message>, fates: seq<Fate>)
      requires |messages| == |fates| && Inv(repository.Contents())
      modifies repository, metrics, group, simulator
      ensures Inv(repository.Contents())
      ensures Value() == HandledAll(PoolWorker(Simulating()), old(Value()), messages, fates)
    {
      for i := 0 to |messages|
        invariant Inv(repository.Contents())
        invariant Value() == HandledAll(PoolWorker(Simulating()), old(Value()), messages[..i], fates[..i])
      {
        HandleMessage(messages[i], fates[i]);
        HandledOneMore(PoolWorker(Simulating()), old(Value()), messages, fates, i);
      }
      assert messages[..|messages|] == messages && fates[..|fates|] == fates;
    }
  }

  lemma HandledOneMore(role: Role, s: State, messages: seq<Message>, fates: seq<Fate>, i: nat)
    requires |messages| == |fates| && i < |messages|
    ensures HandledAll(role, s, messages[..i + 1], fates[..i + 1])
            == Handled(role, HandledAll(role, s, messages[..i], fates[..i]), messages[i], fates[i])
  {
    assert messages[..i + 1][..i] == messages[..i] && fates[..i + 1][..i] == fates[..i];
  }

  class Reclaimer {
    const repository: OrderRepository
    const metrics: Collector?
    const group: ConsumerGroup

    constructor (repository: OrderRepository, metrics: Collector?, group: ConsumerGroup)
      ensures this.repository == repository && this.metrics == metrics && this.group == group
    {
      this.repository, this.metrics, this.group := repository, metrics, group;
    }

    ghost function Value(): State
      reads repository, metrics, group
    {
      State(repository.Contents(), if metrics == null then None else Some(metrics.Value()), 0, group.pel, group.acked)
    }

    method HandleMessage(message: Message, fate: Fate)
      requires Inv(repository.Contents())
      modifies repository, metrics, group
      ensures Inv(repository.Contents())
      ensures Value() == Handled(Recovery, old(Value()), message, fate)
    {
      var answer := repository.ProcessEventTx(message.event, fate.transaction);
      if answer.Failed? {
        if metrics != null {
          metrics.RecordFailure();
        }
        return;
      }
      if metrics != null {
        metrics.RecordResult(answer.result);
      }
      Confirm(message.redisId, fate.ack);
    }

    /** The part of the handling that follows the commit. */
    method Confirm(redisId: nat, fate: AckFate)
      modifies metrics, group
      ensures Value() == ConfirmedState(Recovery, old(Value()), redisId, fate)
    {
      if metrics != null {
        metrics.RecordRecovered();
      }
      var ok := group.Ack(redisId, fate);
    }

    method HandleAll(messages: seq<Message>, fates: seq<Fate>)
      requires |messages| == |fates| && Inv(repository.Contents())
      modifies repository, metrics, group
      ensures Inv(repository.Contents())
      ensures Value() == HandledAll(Recovery, old(Value()), messages, fates)
    {
      for i := 0 to |messages|
        invariant Inv(repository.Contents())
        invariant Value() == HandledAll(Recovery, old(Value()), messages[..i], fates[..i])
      {
        HandleMessage(messages[i], fates[i]);
        HandledOneMore(Recovery, old(Value()), messages, fates, i);
      }
      assert messages[..|messages|] == messages && fates[..|fates|] == fates;
    }

    /** Claims idle entries of the group and handles each; a failed claim changes nothing here. */
    method Reclaim(pending: Group, stream: seq<OrderEvent>, count: int, replies: nat -> Reply, fates: nat -> Fate)
      returns (claimed: Claimed)
      requires pending.Valid() && Inv(repository.Contents())
      requires forall k :: k in pending.pel ==> k <= |stream|
      modifies repository, metrics, group, pending`idle
      ensures Inv(repository.Contents())
      ensures claimed.ClaimFailed? ==> Value() == old(Value())
      ensures claimed.Claimed? ==>
                && |claimed.entries| <= count && ClaimLoop.IsAscending(claimed.entries)
                && (forall k :: k in claimed.entries ==> k in Eligible(pending.pel, old(pending.idle), 0))
      ensures claimed.Claimed? && |claimed.entries| < count && (forall i :: replies(i) != Nil) ==>
                forall k :: k in Eligible(pending.pel, old(pending.idle), 0) ==> k in claimed.entries
      ensures claimed.Claimed? ==>
                && AreEntries(claimed.entries, stream)
                && Value() == HandledAll(Recovery, old(Value()), MessagesOf(claimed.entries, stream),
                                         FirstFates(fates, |claimed.entries|))
    {
      claimed := pending.ClaimPending(count, replies);
      if claimed.ClaimFailed? {
        return;
      }
      ClaimedAreEntries(claimed.entries, pending.pel, stream);
      HandleAll(MessagesOf(claimed.entries, stream), FirstFates(fates, |claimed.entries|));
    }
  }

  function FirstFates(fates: nat -> Fate, n: nat): (first: seq<Fate>)
    ensures |first| == n
  {
    seq(n, (i: nat) => fates(i))
  }

  /** Entry ids count from 1, as 0 stands for the start of the stream. */
  predicate AreEntries(entries: seq<nat>, stream: seq<OrderEvent>) {
    forall i :: 0 <= i < |entries| ==> 0 < entries[i] <= |stream|
  }

  lemma ClaimedAreEntries(entries: seq<nat>, pel: seq<nat>, stream: seq<OrderEvent>)
    requires forall k :: k in entries ==> k in pel
    requires 0 !in pel && forall k :: k in pel ==> k <= |stream|
    ensures AreEntries(entries, stream)
  {
    forall i | 0 <= i < |entries|
      ensures 0 < entries[i] <= |stream|
    {
      assert entries[i] in entries;
    }
  }

  /** The messages behind claimed entries. */
  function MessagesOf(entries: seq<nat>, stream: seq<OrderEvent>): (messages: seq<Message>)
    requires AreEntries(entries, stream)
    ensures |messages| == |entries| && ComeFrom(messages, stream)
  {
    seq(|entries|, i requires 0 <= i < |entries| => Message(entries[i] - 1, stream[entries[i] - 1]))
  }

  // ----- what batches guarantee -----

  /** The events of the batch that were committed, in order. */
  function CommittedOf(messages: seq<Message>, fates: seq<Fate>): seq<OrderEvent>
    requires |messages| == |fates|
    decreases |messages|
  {
    if messages == [] then []
    else
      var n := |messages| - 1;
      CommittedOf(messages[..n], fates[..n]) + if Succeeds(messages[n], fates[n]) then [messages[n].event] else []
  }

  lemma HandledTables(role: Role, s: State, m: Message, fate: Fate)
    ensures Handled(role, s, m, fate).tables == if Succeeds(m, fate) then Process(s.tables, m.event) else s.tables
  {
  }

  lemma MessageIsARun(role: Role, t: Tables, events: seq<OrderEvent>, s: State, m: Message, fate: Fate)
    requires s.tables == Run(t, events)
    ensures Handled(role, s, m, fate).tables == Run(t, events + if Succeeds(m, fate) then [m.event] else [])
  {
    HandledTables(role, s, m, fate);
    if Succeeds(m, fate) {
      RunSnoc(t, events, m.event);
    } else {
      assert events + [] == events;
    }
  }

  /** A batch does to the tables what serial processing of its committed events does. */
  lemma {:induction false} BatchIsARun(role: Role, s: State, messages: seq<Message>, fates: seq<Fate>)
    requires |messages| == |fates|
    ensures HandledAll(role, s, messages, fates).tables == Run(s.tables, CommittedOf(messages, fates))
    decreases |messages|
  {
    if messages != [] {
      var n := |messages| - 1;
      BatchIsARun(role, s, messages[..n], fates[..n]);
      MessageIsARun(role, s.tables, CommittedOf(messages[..n], fates[..n]),
                    HandledAll(role, s, messages[..n], fates[..n]), messages[n], fates[n]);
    }
  }

  /** Acknowledged entries hold events whose ids are committed. */
  ghost predicate AcksAreSafe(s: State, stream: seq<OrderEvent>) {
    forall k :: k in s.acked ==> k < |stream| && stream[k].eventId in s.tables.processed
  }

  ghost predicate ComeFrom(messages: seq<Message>, stream: seq<OrderEvent>) {
    forall i :: 0 <= i < |messages| ==> messages[i].redisId < |stream| && messages[i].event == stream[messages[i].redisId]
  }

  lemma ConfirmationIsSafe(role: Role, s: State, redisId: nat, ack: AckFate)
    ensures var s' := ConfirmedState(role, s, redisId, ack);
            && s'.tables == s.tables && s'.pel <= s.pel && s'.pel + s'.acked == s.pel + s.acked
            && (s.pel !! s.acked ==> s'.pel !! s'.acked) && s'.acked <= s.acked + {redisId}
  {
  }

  lemma ProcessingIsSafe(s: State, m: Message)
    requires Inv(s.tables) && ValidateEvent(m.event).Valid?
    ensures var s' := ProcessedState(s, ValidateEvent(m.event).event);
            && Inv(s'.tables) && s'.tables.processed.Keys == s.tables.processed.Keys + {m.event.eventId}
            && s'.pel == s.pel && s'.acked == s.acked
  {
    var e := ValidateEvent(m.event).event;
    ValidationNormalizes(m.event);
    StepKeepsInv(s.tables, e);
    StepAddsKey(s.tables, e);
  }

  /** The accounts of a state that a message may leave behind. */
  ghost predicate KeepsEntries(s: State, s': State) {
    s'.pel <= s.pel && s'.pel + s'.acked == s.pel + s.acked && (s.pel !! s.acked ==> s'.pel !! s'.acked)
  }

  lemma SuccessIsSafe(role: Role, s: State, m: Message, ack: AckFate, stream: seq<OrderEvent>)
    requires Inv(s.tables) && AcksAreSafe(s, stream) && ValidateEvent(m.event).Valid?
    requires m.redisId < |stream| && m.event == stream[m.redisId]
    ensures var p := ProcessedState(s, ValidateEvent(m.event).event);
            var s' := ConfirmedState(role, p, m.redisId, ack);
            Inv(s'.tables) && AcksAreSafe(s', stream) && KeepsEntries(s, s')
  {
    var p := ProcessedState(s, ValidateEvent(m.event).event);
    ProcessingIsSafe(s, m);
    ConfirmationIsSafe(role, p, m.redisId, ack);
    AcksStaySafe(s, ConfirmedState(role, p, m.redisId, ack), stream, m.redisId);
  }

  lemma AcksStaySafe(s: State, s': State, stream: seq<OrderEvent>, entry: nat)
    requires AcksAreSafe(s, stream) && s'.acked <= s.acked + {entry} && entry < |stream|
    requires s'.tables.processed.Keys == s.tables.processed.Keys + {stream[entry].eventId}
    ensures AcksAreSafe(s', stream)
  {
  }

  lemma MessageIsSafe(role: Role, s: State, m: Message, fate: Fate, stream: seq<OrderEvent>)
    requires Inv(s.tables) && AcksAreSafe(s, stream)
    requires m.redisId < |stream| && m.event == stream[m.redisId]
    ensures var s' := Handled(role, s, m, fate);
            && Inv(s'.tables) && AcksAreSafe(s', stream) && KeepsEntries(s, s')
            && (!Succeeds(m, fate) ==> s'.pel == s.pel && s'.tables == s.tables)
  {
    if Succeeds(m, fate) {
      SuccessIsSafe(role, s, m, fate.ack, stream);
    }
  }

  /** No batch acknowledges an entry whose event is not committed, loses an entry, or takes an
      entry off the pending list without having processed it. */
  lemma {:induction false} BatchIsSafe(role: Role, s: State, messages: seq<Message>, fates: seq<Fate>,
                                       stream: seq<OrderEvent>)
    requires |messages| == |fates| && ComeFrom(messages, stream)
    requires Inv(s.tables) && AcksAreSafe(s, stream) && s.pel !! s.acked
    ensures var s' := HandledAll(role, s, messages, fates);
            && Inv(s'.tables) && AcksAreSafe(s', stream)
            && s'.pel <= s.pel && s'.pel !! s'.acked && s'.pel + s'.acked == s.pel + s.acked
    decreases |messages|
  {
    if messages != [] {
      var n := |messages| - 1;
      BatchIsSafe(role, s, messages[..n], fates[..n], stream);
      MessageIsSafe(role, HandledAll(role, s, messages[..n], fates[..n]), messages[n], fates[n], stream);
    }
  }

  /** What a batch adds to the counters, if there are any, when `n` of its messages succeed. */
  predicate CountsAdd(role: Role, s: State, s': State, messages: nat, n: nat)
    requires n <= messages
  {
    && (role.PoolWorker? && role.simulation.Some? ==> s'.successes == s.successes + n)
    && match (s.counters, s'.counters)
       case (None, None) => true
       case (Some(c), Some(c')) =>
         && c'.processed == c.processed + n && c'.failures == c.failures + messages - n
         && c'.recoveredMessages == c.recoveredMessages + (if role.Recovery? then n else 0)
         && (match role
             case PoolWorker(Some(simulation)) =>
               c'.simulatedFailures + SkippedOf(simulation, s.successes)
               == c.simulatedFailures + SkippedOf(simulation, s'.successes)
             case _ => c'.simulatedFailures == c.simulatedFailures)
       case _ => false
  }

  lemma MessageIsCounted(role: Role, s: State, m: Message, fate: Fate)
    ensures CountsAdd(role, s, Handled(role, s, m, fate), 1, if Succeeds(m, fate) then 1 else 0)
  {
    if Succeeds(m, fate) {
      var e := ValidateEvent(m.event).event;
      ProcessingCounts(s, e);
      ConfirmationCounts(role, s, ProcessedState(s, e), m.redisId, fate.ack);
    }
  }

  lemma ProcessingCounts(s: State, e: OrderEvent)
    ensures ProcessedState(s, e).successes == s.successes && CountsAdd(PoolWorker(None), s, ProcessedState(s, e), 1, 1)
  {
    assert Step(s.tables, e).result.classification != Received;
  }

  lemma ConfirmationCounts(role: Role, s: State, p: State, redisId: nat, ack: AckFate)
    requires p.successes == s.successes && CountsAdd(PoolWorker(None), s, p, 1, 1)
    ensures CountsAdd(role, s, ConfirmedState(role, p, redisId, ack), 1, 1)
  {
  }

  /** The counters of a batch: every message is recorded once, as processed or as failed; the
      simulated failures are the skipped positions; a recovery records each success as recovered. */
  lemma {:induction false} BatchIsCounted(role: Role, s: State, messages: seq<Message>, fates: seq<Fate>)
    requires |messages| == |fates|
    ensures |CommittedOf(messages, fates)| <= |messages|
    ensures CountsAdd(role, s, HandledAll(role, s, messages, fates), |messages|, |CommittedOf(messages, fates)|)
    decreases |messages|
  {
    if messages != [] {
      var n := |messages| - 1;
      BatchIsCounted(role, s, messages[..n], fates[..n]);
      MessageIsCounted(role, HandledAll(role, s, messages[..n], fates[..n]), messages[n], fates[n]);
    }
  }

  // ----- which answers a batch records -----

  /** The answers that processing the events one after the other gives, from tables `t` on. */
  ghost function AnswersFrom(t: Tables, events: seq<OrderEvent>): seq<ProcessResult>
    decreases |events|
  {
    if events == [] then []
    else
      var n := |events| - 1;
      AnswersFrom(t, events[..n]) +
      match ValidateEvent(events[n])
      case Valid(e) => [Step(Run(t, events[..n]), e).result]
      case Rejected(_) => []
  }

  /** The counters agree on everything that answers move: all classes, and the replayed events. */
  predicate SameClasses(a: Counters, b: Counters) {
    && a.processed == b.processed && a.applied == b.applied
    && a.duplicatesSkipped == b.duplicatesSkipped && a.duplicateStatus == b.duplicateStatus
    && a.outOfOrder == b.outOfOrder && a.invalidTransitions == b.invalidTransitions
    && a.deadLetters == b.deadLetters && a.pendingReplayed == b.pendingReplayed
  }

  lemma RecordedKeepsSame(a: Counters, b: Counters, r: ProcessResult)
    requires SameClasses(a, b)
    ensures SameClasses(Recorded(a, r), Recorded(b, r))
  {
  }

  lemma ConfirmationCountsNoClass(role: Role, s: State, redisId: nat, ack: AckFate)
    ensures var s' := ConfirmedState(role, s, redisId, ack);
            && (s'.counters.Some? <==> s.counters.Some?)
            && (s.counters.Some? ==> SameClasses(s'.counters.value, s.counters.value))
  {
  }

  lemma MessageIsRecorded(role: Role, t: Tables, events: seq<OrderEvent>, c: Counters, s: State, m: Message, fate: Fate)
    requires s.tables == Run(t, events)
    requires s.counters.Some? && SameClasses(s.counters.value, RecordedAll(c, AnswersFrom(t, events)))
    ensures var s', committed := Handled(role, s, m, fate), if Succeeds(m, fate) then [m.event] else [];
            s'.counters.Some? && SameClasses(s'.counters.value, RecordedAll(c, AnswersFrom(t, events + committed)))
  {
    if Succeeds(m, fate) {
      var e := ValidateEvent(m.event).event;
      var answer := Step(s.tables, e).result;
      assert (events + [m.event])[..|events|] == events;
      RecordedSnoc(c, AnswersFrom(t, events), answer);
      RecordedKeepsSame(s.counters.value, RecordedAll(c, AnswersFrom(t, events)), answer);
      ConfirmationCountsNoClass(role, ProcessedState(s, e), m.redisId, fate.ack);
    } else {
      assert events + [] == events;
    }
  }

  /** After a batch the class counters and the count of replayed events are those of recording the
      processor's own answers to the committed messages, in order. */
  lemma {:induction false} BatchIsRecorded(role: Role, s: State, messages: seq<Message>, fates: seq<Fate>)
    requires |messages| == |fates| && s.counters.Some?
    ensures var s' := HandledAll(role, s, messages, fates);
            && s'.counters.Some?
            && SameClasses(s'.counters.value,
                           RecordedAll(s.counters.value, AnswersFrom(s.tables, CommittedOf(messages, fates))))
    decreases |messages|
  {
    if messages != [] {
      var n := |messages| - 1;
      BatchIsRecorded(role, s, messages[..n], fates[..n]);
      BatchIsARun(role, s, messages[..n], fates[..n]);
      MessageIsRecorded(role, s.tables, CommittedOf(messages[..n], fates[..n]), s.counters.value,
                        HandledAll(role, s, messages[..n], fates[..n]), messages[n], fates[n]);
    }
  }

  lemma SameClassesBalance(t: Tables, b: Book, c: Counters)
    requires IsBalanced(t, b) && SameClasses(b.counters, c)
    ensures IsBalanced(t, b.(counters := c))
  {
  }

  lemma ProcessingKeepsLedger(s: State, b: Book, m: Message) returns (b': Book)
    requires Inv(s.tables) && s.counters == Some(b.counters) && IsBalanced(s.tables, b) && ValidateEvent(m.event).Valid?
    ensures var p := ProcessedState(s, ValidateEvent(m.event).event);
            Inv(p.tables) && p.counters == Some(b'.counters) && IsBalanced(p.tables, b')
  {
    var e := ValidateEvent(m.event).event;
    ValidationNormalizes(m.event);
    StepKeepsInv(s.tables, e);
    StatusIsKnown(s.tables, e.orderId);
    StepBalances(s.tables, e, b);
    var r := if e.eventId in s.tables.processed then Replayed(s.tables, NoStatus, 0, 0, 0) else ReplayAfter(s.tables, e);
    b' := Book(Recorded(b.counters, Step(s.tables, e).result),
               b.replayDeadLettered + r.deadLettered, b.replayDropped + r.dropped);
  }

  lemma ConfirmationKeepsLedger(role: Role, p: State, b: Book, redisId: nat, ack: AckFate) returns (b': Book)
    requires p.counters == Some(b.counters) && IsBalanced(p.tables, b)
    ensures var s' := ConfirmedState(role, p, redisId, ack);
            s'.tables == p.tables && s'.counters == Some(b'.counters) && IsBalanced(s'.tables, b')
  {
    ConfirmationCountsNoClass(role, p, redisId, ack);
    b' := b.(counters := ConfirmedState(role, p, redisId, ack).counters.value);
    SameClassesBalance(p.tables, b, b'.counters);
  }

  lemma MessageKeepsLedger(role: Role, s: State, b: Book, m: Message, fate: Fate) returns (b': Book)
    requires Inv(s.tables) && s.counters == Some(b.counters) && IsBalanced(s.tables, b)
    ensures var s' := Handled(role, s, m, fate);
            Inv(s'.tables) && s'.counters == Some(b'.counters) && IsBalanced(s'.tables, b')
  {
    if Succeeds(m, fate) {
      b' := ProcessingKeepsLedger(s, b, m);
      b' := ConfirmationKeepsLedger(role, ProcessedState(s, ValidateEvent(m.event).event), b', m.redisId, fate.ack);
    } else {
      b' := b.(counters := FailedState(s).counters.value);
    }
  }

  /** The collector of a process keeps balancing against the tables, batch after batch; in
      particular from empty tables and no counts on. */
  lemma {:induction false} BatchKeepsLedger(role: Role, s: State, b: Book, messages: seq<Message>, fates: seq<Fate>)
    returns (b': Book)
    requires |messages| == |fates|
    requires Inv(s.tables) && s.counters == Some(b.counters) && IsBalanced(s.tables, b)
    ensures var s' := HandledAll(role, s, messages, fates);
            Inv(s'.tables) && s'.counters == Some(b'.counters) && IsBalanced(s'.tables, b')
    decreases |messages|
  {
    b' := b;
    if messages != [] {
      var n := |messages| - 1;
      b' := BatchKeepsLedger(role, s, b, messages[..n], fates[..n]);
      b' := MessageKeepsLedger(role, HandledAll(role, s, messages[..n], fates[..n]), b', messages[n], fates[n]);
    }
  }

  lemma FirstBatchBalances(role: Role, s: State, messages: seq<Message>, fates: seq<Fate>) returns (b: Book)
    requires |messages| == |fates|
    requires s.tables == EMPTY_TABLES && s.counters == Some(NO_COUNTS)
    ensures var s' := HandledAll(role, s, messages, fates);
            s'.counters == Some(b.counters) && IsBalanced(s'.tables, b)
  {
    EmptyTablesInv();
    b := BatchKeepsLedger(role, s, Book(NO_COUNTS, 0, 0), messages, fates);
  }

  // ----- which entries a batch acknowledges -----

  /** The i-th message of the batch succeeds, its acknowledgement is not skipped, and it arrives. */
  predicate IsAcknowledged(role: Role, successes: nat, messages: seq<Message>, fates: seq<Fate>, i: nat)
    requires |messages| == |fates| && i < |messages|
  {
    && Succeeds(messages[i], fates[i]) && fates[i].ack != NotDelivered
    && match role
       case PoolWorker(Some(simulation)) =>
         !SkipsAck(simulation, successes + |CommittedOf(messages[..i + 1], fates[..i + 1])|)
       case _ => true
  }

  ghost predicate IsAckedBy(role: Role, successes: nat, messages: seq<Message>, fates: seq<Fate>, entry: nat)
    requires |messages| == |fates|
  {
    exists i :: 0 <= i < |messages| && messages[i].redisId == entry && IsAcknowledged(role, successes, messages, fates, i)
  }

  lemma AckedByOneMore(role: Role, successes: nat, messages: seq<Message>, fates: seq<Fate>, entry: nat)
    requires |messages| == |fates| && messages != []
    ensures var n := |messages| - 1;
            IsAckedBy(role, successes, messages, fates, entry) <==>
              || IsAckedBy(role, successes, messages[..n], fates[..n], entry)
              || (messages[n].redisId == entry && IsAcknowledged(role, successes, messages, fates, n))
  {
    var n := |messages| - 1;
    forall i | 0 <= i < n
      ensures IsAcknowledged(role, successes, messages[..n], fates[..n], i)
              <==> IsAcknowledged(role, successes, messages, fates, i)
    {
      assert messages[..n][..i + 1] == messages[..i + 1] && fates[..n][..i + 1] == fates[..i + 1];
    }
    if IsAckedBy(role, successes, messages[..n], fates[..n], entry) {
      var i :| 0 <= i < n && messages[..n][i].redisId == entry
               && IsAcknowledged(role, successes, messages[..n], fates[..n], i);
      assert messages[i].redisId == entry;
    }
    if i :| 0 <= i < n && messages[i].redisId == entry && IsAcknowledged(role, successes, messages, fates, i) {
      assert messages[..n][i].redisId == entry;
    }
  }

  lemma MessageAcknowledges(role: Role, s: State, m: Message, fate: Fate)
    ensures var s' := Handled(role, s, m, fate);
            var acked := Succeeds(m, fate) && fate.ack != NotDelivered
                         && !(role.PoolWorker? && role.simulation.Some? && SkipsAck(role.simulation.value, s.successes + 1));
            && s'.pel == (if acked then s.pel - {m.redisId} else s.pel)
            && s'.acked == (if acked then s.acked + ({m.redisId} * s.pel) else s.acked)
            && (role.PoolWorker? && role.simulation.Some? ==>
                  s'.successes == s.successes + if Succeeds(m, fate) then 1 else 0)
  {
  }

  /** A batch takes exactly those entries off the pending list whose message succeeded and whose
      acknowledgement was neither skipped nor lost on the way; they were acknowledged, no others. */
  lemma {:induction false} BatchAcknowledges(role: Role, s: State, messages: seq<Message>, fates: seq<Fate>)
    requires |messages| == |fates|
    ensures var s' := HandledAll(role, s, messages, fates);
            && (forall k :: k in s'.pel <==> k in s.pel && !IsAckedBy(role, s.successes, messages, fates, k))
            && (forall k :: k in s'.acked <==> k in s.acked || (k in s.pel && k !in s'.pel))
            && (role.PoolWorker? && role.simulation.Some? ==>
                  s'.successes == s.successes + |CommittedOf(messages, fates)|)
    decreases |messages|
  {
    if messages != [] {
      var n := |messages| - 1;
      var before := HandledAll(role, s, messages[..n], fates[..n]);
      BatchAcknowledges(role, s, messages[..n], fates[..n]);
      MessageAcknowledges(role, before, messages[n], fates[n]);
      assert messages[..n + 1] == messages && fates[..n + 1] == fates;
      forall k
        ensures IsAckedBy(role, s.successes, messages, fates, k) <==>
                  || IsAckedBy(role, s.successes, messages[..n], fates[..n], k)
                  || (messages[n].redisId == k && IsAcknowledged(role, s.successes, messages, fates, n))
      {
        AckedByOneMore(role, s.successes, messages, fates, k);
      }
    }
  }
}
