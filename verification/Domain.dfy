/** The transport-neutral order event, the order lifecycle and its transition rules. */
module Domain {

  datatype Option<+T> = None | Some(value: T)

  /** A status is a string in the service. NoStatus is the empty string, which stands for an
      order that does not exist yet; Other is for strings that name no lifecycle status. */
  datatype Status = NoStatus | Created | Paid | Shipped | Cancelled | Other(name: string)
  {
    predicate IsKnown() {
      Created? || Paid? || Shipped? || Cancelled?
    }

    /** Statuses that follow a payment. */
    predicate IsSettled() {
      Paid? || Shipped? || Cancelled?
    }

    predicate IsTerminal() {
      Shipped? || Cancelled?
    }
  }

  function StatusText(s: Status): string {
    match s
    case NoStatus => ""
    case Created => "CREATED"
    case Paid => "PAID"
    case Shipped => "SHIPPED"
    case Cancelled => "CANCELLED"
    case Other(name) => name
  }

  /** The status that a string of the service stands for. */
  function StatusOf(text: string): Status {
    if text == "" then NoStatus
    else if text == "CREATED" then Created
    else if text == "PAID" then Paid
    else if text == "SHIPPED" then Shipped
    else if text == "CANCELLED" then Cancelled
    else Other(text)
  }

  /** Strings and statuses correspond one to one, except that no string stands for an Other with
      the name of a lifecycle status. */
  lemma StatusTexts(text: string)
    ensures StatusText(StatusOf(text)) == text
    ensures StatusOf(text).IsKnown() <==> text == "CREATED" || text == "PAID" || text == "SHIPPED" || text == "CANCELLED"
    ensures StatusOf(text) == NoStatus <==> text == ""
  {
  }

  /** Received is the outcome a row carries while its transaction is still running, and
      DuplicateEvent is never stored: it only labels the answer to a repeated event. */
  datatype Classification = Applied | DuplicateStatus | OutOfOrder | InvalidTransition | DuplicateEvent | Received

  datatype Reason =
    | NextStatusUnknown
    | CurrentStatusUnknown
    | AlreadyRequestedStatus
    | NewOrdersStartCreated
    | CreatedCanBePaid
    | PaidCanBeShipped
    | CreatedCanBeCancelled
    | PaidCanBeCancelled
    | CreatedNotApplied
    | CreatedAndPaidNotApplied
    | PaidNotApplied
    | TransitionNotAllowed
    | EventAlreadyProcessed

  datatype TransitionResult = TransitionResult(allowed: bool, classification: Classification, reason: Reason)

  function AppliedResult(reason: Reason): TransitionResult {
    TransitionResult(true, Applied, reason)
  }

  function OutOfOrderResult(reason: Reason): TransitionResult {
    TransitionResult(false, OutOfOrder, reason)
  }

  function InvalidResult(reason: Reason): TransitionResult {
    TransitionResult(false, InvalidTransition, reason)
  }

  function EvaluateTransition(current: Status, next: Status): TransitionResult {
    if !next.IsKnown() then InvalidResult(NextStatusUnknown)
    else if current != NoStatus && !current.IsKnown() then InvalidResult(CurrentStatusUnknown)
    else if current == next then TransitionResult(false, DuplicateStatus, AlreadyRequestedStatus)
    else if current == NoStatus && next == Created then AppliedResult(NewOrdersStartCreated)
    else if current == Created && next == Paid then AppliedResult(CreatedCanBePaid)
    else if current == Paid && next == Shipped then AppliedResult(PaidCanBeShipped)
    else if current == Created && next == Cancelled then AppliedResult(CreatedCanBeCancelled)
    else if current == Paid && next == Cancelled then AppliedResult(PaidCanBeCancelled)
    else if current == NoStatus && next == Paid then OutOfOrderResult(CreatedNotApplied)
    else if current == NoStatus && next == Shipped then OutOfOrderResult(CreatedAndPaidNotApplied)
    else if current == Created && next == Shipped then OutOfOrderResult(PaidNotApplied)
    else InvalidResult(TransitionNotAllowed)
  }

  function Classify(current: Status, next: Status): Classification {
    EvaluateTransition(current, next).classification
  }

  /** How many applied steps a lifecycle can still take after reaching a status. */
  function StepsLeft(s: Status): nat {
    match s
    case NoStatus => 3
    case Created => 2
    case Paid => 1
    case _ => 0
  }

  /** The five edges of the lifecycle. */
  predicate IsEdge(current: Status, next: Status) {
    match (current, next)
    case (NoStatus, Created) => true
    case (Created, Paid) => true
    case (Created, Cancelled) => true
    case (Paid, Shipped) => true
    case (Paid, Cancelled) => true
    case _ => false
  }

  /** The classification the design asks for, stated without the order of the checks: a step is
      applied exactly when it is one of the five lifecycle edges; a known step waits exactly when
      its target is reachable only through edges that were not taken yet; a terminal status never
      moves; and whatever involves an unknown status is invalid. */
  lemma TransitionTable(current: Status, next: Status)
    ensures EvaluateTransition(current, next).allowed <==> Classify(current, next) == Applied
    ensures Classify(current, next) == Applied <==> IsEdge(current, next)
    ensures Classify(current, next) == Applied ==> StepsLeft(next) < StepsLeft(current)
    ensures !next.IsKnown() || (current != NoStatus && !current.IsKnown()) ==>
              Classify(current, next) == InvalidTransition
    ensures next.IsKnown() && (current == NoStatus || current.IsKnown()) ==>
              && (Classify(current, next) == DuplicateStatus <==> current == next)
              && (Classify(current, next) == OutOfOrder <==>
                    && next != current && !next.Cancelled? && !IsEdge(current, next)
                    && StepsLeft(next) < StepsLeft(current))
              && (current.IsTerminal() ==> Classify(current, next) in {DuplicateStatus, InvalidTransition})
  {
  }

  /** The lifecycle step that the reason of an applied event speaks of. */
  function StepNamed(reason: Reason): Option<(Status, Status)> {
    match reason
    case NewOrdersStartCreated => Some((NoStatus, Created))
    case CreatedCanBePaid => Some((Created, Paid))
    case PaidCanBeShipped => Some((Paid, Shipped))
    case CreatedCanBeCancelled => Some((Created, Cancelled))
    case PaidCanBeCancelled => Some((Paid, Cancelled))
    case _ => None
  }

  /** The statuses that the reason of an early event reports as not applied yet. */
  function MissingSteps(reason: Reason): set<Status> {
    match reason
    case CreatedNotApplied => {Created}
    case CreatedAndPaidNotApplied => {Created, Paid}
    case PaidNotApplied => {Paid}
    case _ => {}
  }

  /** Every reason is true: an applied step is named, an early event names exactly the statuses
      that lie between the current one and its own, and the other reasons say what is wrong. */
  lemma ReasonsAreTrue(current: Status, next: Status)
    ensures var reason := EvaluateTransition(current, next).reason;
            && StepNamed(reason) == (if IsEdge(current, next) then Some((current, next)) else None)
            && (forall s :: s in MissingSteps(reason) <==>
                  Classify(current, next) == OutOfOrder && StepsLeft(next) < StepsLeft(s) < StepsLeft(current))
            && (reason == AlreadyRequestedStatus <==> current == next && next.IsKnown())
            && (reason == NextStatusUnknown <==> !next.IsKnown())
            && (reason == CurrentStatusUnknown <==> next.IsKnown() && current != NoStatus && !current.IsKnown())
            && reason != EventAlreadyProcessed
  {
  }

  /** Payload text is opaque; only whether it is a JSON object matters. */
  datatype Payload = NoPayload | JsonObject(text: string) | NotAnObject(text: string)

  datatype EventId = EventId(text: string)
  datatype OrderId = OrderId(text: string)

  /** Instants are counted from the zero time, as stored by the database. */
  const ZERO_TIME: int := 0

  datatype OrderEvent = OrderEvent(eventId: EventId, orderId: OrderId, status: Status, timestamp: int, payload: Payload)

  datatype EventError = MissingEventId | MissingOrderId | MissingTimestamp | UnsupportedStatus | BadPayload

  datatype Validated = Valid(event: OrderEvent) | Rejected(error: EventError)

  /** Checks an event and fills in the empty JSON object for a missing payload. */
  function ValidateEvent(e: OrderEvent): Validated {
    if e.eventId.text == "" then Rejected(MissingEventId)
    else if e.orderId.text == "" then Rejected(MissingOrderId)
    else if e.timestamp == ZERO_TIME then Rejected(MissingTimestamp)
    else if !e.status.IsKnown() then Rejected(UnsupportedStatus)
    else
      match e.payload
      case NoPayload => Valid(e.(payload := JsonObject("{}")))
      case JsonObject(_) => Valid(e)
      case NotAnObject(_) => Rejected(BadPayload)
  }

  /** What validation objects to, in the order of its checks. */
  const CHECKS: seq<EventError> := [MissingEventId, MissingOrderId, MissingTimestamp, UnsupportedStatus, BadPayload]

  predicate HasFault(e: OrderEvent, error: EventError) {
    match error
    case MissingEventId => |e.eventId.text| == 0
    case MissingOrderId => |e.orderId.text| == 0
    case MissingTimestamp => e.timestamp == ZERO_TIME
    case UnsupportedStatus => e.status !in {Created, Paid, Shipped, Cancelled}
    case BadPayload => e.payload.NotAnObject?
  }

  /** Validation accepts exactly the events without fault, and changes nothing but a missing
      payload, which becomes the empty object. */
  lemma ValidationAccepts(e: OrderEvent)
    ensures ValidateEvent(e).Valid? <==> forall fault :: fault in CHECKS ==> !HasFault(e, fault)
    ensures ValidateEvent(e).Valid? ==>
              ValidateEvent(e).event == e.(payload := if e.payload == NoPayload then JsonObject("{}") else e.payload)
  {
    assert MissingEventId in CHECKS && MissingOrderId in CHECKS && MissingTimestamp in CHECKS
           && UnsupportedStatus in CHECKS && BadPayload in CHECKS;
  }

  /** A refusal names the first fault in the order of the checks; so an event with a single fault
      is refused with exactly that one. */
  lemma ValidationNamesTheFault(e: OrderEvent, k: nat)
    requires k < |CHECKS|
    ensures ValidateEvent(e) == Rejected(CHECKS[k]) <==>
              HasFault(e, CHECKS[k]) && forall j :: 0 <= j < k ==> !HasFault(e, CHECKS[j])
  {
    assert !HasFault(e, CHECKS[0]) <==> e.eventId.text != "";
    assert !HasFault(e, CHECKS[1]) <==> e.orderId.text != "";
    assert !HasFault(e, CHECKS[2]) <==> e.timestamp != ZERO_TIME;
    assert !HasFault(e, CHECKS[3]) <==> e.status.IsKnown();
  }

  /** An event that validation returns unchanged. */
  predicate IsNormal(e: OrderEvent) {
    ValidateEvent(e) == Valid(e)
  }

  lemma ValidationNormalizes(e: OrderEvent)
    requires ValidateEvent(e).Valid?
    ensures var v := ValidateEvent(e).event;
            IsNormal(v) && v.eventId == e.eventId && v.orderId == e.orderId && v.status == e.status
            && v.timestamp == e.timestamp
  {
  }

  // ----- the replay order: timestamp first, event id as tie-break -----

  datatype Key = Key(timestamp: int, eventId: EventId)

  predicate TextLess(a: string, b: string) {
    if b == "" then false
    else if a == "" then true
    else a[0] < b[0] || (a[0] == b[0] && TextLess(a[1..], b[1..]))
  }

  predicate KeyLess(a: Key, b: Key) {
    a.timestamp < b.timestamp || (a.timestamp == b.timestamp && TextLess(a.eventId.text, b.eventId.text))
  }

  lemma {:induction false} TextLessIsStrict(a: string)
    ensures !TextLess(a, a)
  {
    if a != "" {
      TextLessIsStrict(a[1..]);
    }
  }

  lemma {:induction false} TextLessIsTransitive(a: string, b: string, c: string)
    requires TextLess(a, b) && TextLess(b, c)
    ensures TextLess(a, c)
  {
    if a != "" && a[0] == b[0] == c[0] {
      TextLessIsTransitive(a[1..], b[1..], c[1..]);
    }
  }

  lemma {:induction false} TextLessIsTotal(a: string, b: string)
    ensures a == b || TextLess(a, b) || TextLess(b, a)
  {
    if a != "" && b != "" && a[0] == b[0] {
      TextLessIsTotal(a[1..], b[1..]);
      assert a == [a[0]] + a[1..] && b == [b[0]] + b[1..];
    }
  }

  /** Up to `k` the texts agree; there the first one ends or has the smaller character. */
  predicate IsLessAt(a: string, b: string, k: nat) {
    && k <= |a| && k < |b| && a[..k] == b[..k]
    && (k == |a| || a[k] < b[k])
  }

  /** The first difference decides, and a proper prefix is less. */
  lemma {:induction false} TextOrder(a: string, b: string)
    ensures TextLess(a, b) <==> exists k :: IsLessAt(a, b, k)
  {
    if TextLess(a, b) {
      var k := FirstDifference(a, b);
    }
    if k :| IsLessAt(a, b, k) {
      DifferenceDecides(a, b, k);
    }
  }

  lemma {:induction false} FirstDifference(a: string, b: string) returns (k: nat)
    requires TextLess(a, b)
    ensures IsLessAt(a, b, k)
  {
    k := 0;
    if a != "" && a[0] == b[0] {
      k := FirstDifference(a[1..], b[1..]);
      k := k + 1;
      assert a[..k] == [a[0]] + a[1..][..k - 1] && b[..k] == [b[0]] + b[1..][..k - 1];
    }
  }

  lemma {:induction false} DifferenceDecides(a: string, b: string, k: nat)
    requires IsLessAt(a, b, k)
    ensures TextLess(a, b)
    decreases k
  {
    if k > 0 {
      assert a[0] == a[..k][0] && b[0] == b[..k][0];
      assert a[1..][..k - 1] == a[..k][1..] && b[1..][..k - 1] == b[..k][1..];
      DifferenceDecides(a[1..], b[1..], k - 1);
    }
  }

  /** Any two different keys are strictly ordered one way only: by their times, and by the texts
      of their ids when the times agree. */
  lemma KeyOrder(a: Key, b: Key)
    ensures a.timestamp < b.timestamp ==> KeyLess(a, b)
    ensures a.timestamp == b.timestamp && TextLess(a.eventId.text, b.eventId.text) ==> KeyLess(a, b)
    ensures !KeyLess(a, a)
    ensures a == b || KeyLess(a, b) || KeyLess(b, a)
    ensures !(KeyLess(a, b) && KeyLess(b, a))
  {
    TextLessIsStrict(a.eventId.text);
    TextLessIsTotal(a.eventId.text, b.eventId.text);
    if TextLess(a.eventId.text, b.eventId.text) && TextLess(b.eventId.text, a.eventId.text) {
      TextLessIsTransitive(a.eventId.text, b.eventId.text, a.eventId.text);
    }
  }

  lemma KeyLessIsTransitive(a: Key, b: Key, c: Key)
    requires KeyLess(a, b) && KeyLess(b, c)
    ensures KeyLess(a, c)
  {
    if TextLess(a.eventId.text, b.eventId.text) && TextLess(b.eventId.text, c.eventId.text) {
      TextLessIsTransitive(a.eventId.text, b.eventId.text, c.eventId.text);
    }
  }
}
