/** The load that the producer generates, as a function of its configuration and random draws. */
module Workload {
  import opened Domain

  // ----- configuration -----

  datatype Config = Config(
    total: int,
    duplicateRatio: real,
    outOfOrderRatio: real,
    invalidRatio: real,
    redisAddr: string,
    stream: string,
    group: string,
    seed: int,
    batchSize: int)

  datatype ConfigError =
    | TotalNotPositive | BatchSizeNotPositive | NoRedisAddress | NoStream | NoGroup
    | RatioOutOfRange | NoSourceToDuplicate | TooFewUniqueEvents

  function RatioCount(total: int, ratio: real): int {
    (total as real * ratio).Floor
  }

  function OutOfOrderScenarioSize(count: int): int
    requires count >= 0
  {
    var paidBeforeCreated := (count + 1) / 2;
    var shippedBeforePaid := count / 2;
    2 * paidBeforeCreated + 3 * shippedBeforePaid
  }

  predicate InUnitRange(ratio: real) {
    0.0 <= ratio <= 1.0
  }

  lemma RatioCountInRange(total: int, ratio: real)
    requires total >= 0 && InUnitRange(ratio)
    ensures 0 <= RatioCount(total, ratio) <= total
  {
    var product := total as real * ratio;
    assert product <= total as real * 1.0;
  }

  /** `n` is the whole part of this share of the total. */
  predicate IsShare(n: nat, total: int, ratio: real) {
    n as real <= total as real * ratio < n as real + 1.0
  }

  lemma RatioCountIsTheShare(total: int, ratio: real, n: nat)
    ensures RatioCount(total, ratio) == n <==> IsShare(n, total, ratio)
  {
  }

  lemma ShareIsUnique(total: int, ratio: real, m: nat, n: nat)
    requires IsShare(m, total, ratio)
    ensures IsShare(n, total, ratio) <==> m == n
  {
  }

  function Validate(c: Config): Option<ConfigError> {
    if c.total <= 0 then Some(TotalNotPositive)
    else if c.batchSize <= 0 then Some(BatchSizeNotPositive)
    else if c.redisAddr == "" then Some(NoRedisAddress)
    else if c.stream == "" then Some(NoStream)
    else if c.group == "" then Some(NoGroup)
    else if !InUnitRange(c.duplicateRatio) || !InUnitRange(c.outOfOrderRatio) || !InUnitRange(c.invalidRatio) then
      Some(RatioOutOfRange)
    else
      var duplicates := RatioCount(c.total, c.duplicateRatio);
      var unique := c.total - duplicates;
      if duplicates > 0 && unique == 0 then Some(NoSourceToDuplicate)
      else
        RatioCountInRange(c.total, c.outOfOrderRatio);
        var required := OutOfOrderScenarioSize(RatioCount(c.total, c.outOfOrderRatio))
                        + 4 * RatioCount(c.total, c.invalidRatio);
        if required > unique then Some(TooFewUniqueEvents) else None
  }

  /** The counts that an accepted configuration asks for. */
  datatype Counts = Counts(duplicates: nat, unique: nat, outOfOrder: nat, invalid: nat)

  function Targets(c: Config): Counts
    requires Validate(c) == None
  {
    RatioCountInRange(c.total, c.duplicateRatio);
    RatioCountInRange(c.total, c.outOfOrderRatio);
    RatioCountInRange(c.total, c.invalidRatio);
    var duplicates := RatioCount(c.total, c.duplicateRatio);
    Counts(duplicates, c.total - duplicates, RatioCount(c.total, c.outOfOrderRatio), RatioCount(c.total, c.invalidRatio))
  }

  /** The targets split the total, and each label gets the whole part of its share. */
  lemma TargetsMeetTheRatios(c: Config)
    requires Validate(c) == None
    ensures var t := Targets(c);
            && IsShare(t.duplicates, c.total, c.duplicateRatio)
            && IsShare(t.outOfOrder, c.total, c.outOfOrderRatio)
            && IsShare(t.invalid, c.total, c.invalidRatio)
            && t.unique + t.duplicates == c.total && t.unique > 0
  {
  }

  const CONFIG_CHECKS: seq<ConfigError> := [
    TotalNotPositive, BatchSizeNotPositive, NoRedisAddress, NoStream, NoGroup,
    RatioOutOfRange, NoSourceToDuplicate, TooFewUniqueEvents]

  predicate HasRatios(c: Config) {
    InUnitRange(c.duplicateRatio) && InUnitRange(c.outOfOrderRatio) && InUnitRange(c.invalidRatio)
  }

  /** What is wrong with a configuration: its values, or that it leaves no unique event to
      duplicate, or that its special scenarios do not fit into the unique events. */
  predicate HasConfigFault(c: Config, error: ConfigError) {
    match error
    case TotalNotPositive => !(0 < c.total)
    case BatchSizeNotPositive => !(0 < c.batchSize)
    case NoRedisAddress => |c.redisAddr| == 0
    case NoStream => |c.stream| == 0
    case NoGroup => |c.group| == 0
    case RatioOutOfRange =>
      || c.duplicateRatio < 0.0 || c.outOfOrderRatio < 0.0 || c.invalidRatio < 0.0
      || c.duplicateRatio > 1.0 || c.outOfOrderRatio > 1.0 || c.invalidRatio > 1.0
    case NoSourceToDuplicate => 0 < c.total == RatioCount(c.total, c.duplicateRatio)
    case TooFewUniqueEvents =>
      && 0 <= c.total && HasRatios(c)
      && Size(Specials(NatCount(c.total, c.outOfOrderRatio), NatCount(c.total, c.invalidRatio)))
         > c.total - NatCount(c.total, c.duplicateRatio)
  }

  function NatCount(total: int, ratio: real): (n: nat)
    requires total >= 0 && InUnitRange(ratio)
    ensures n == RatioCount(total, ratio)
  {
    RatioCountInRange(total, ratio);
    RatioCount(total, ratio)
  }

  lemma TooFewMeansNotFitting(c: Config)
    requires 0 <= c.total && HasRatios(c)
    ensures HasConfigFault(c, TooFewUniqueEvents) <==>
              OutOfOrderScenarioSize(NatCount(c.total, c.outOfOrderRatio)) + 4 * RatioCount(c.total, c.invalidRatio)
              > c.total - RatioCount(c.total, c.duplicateRatio)
  {
    SpecialsSize(NatCount(c.total, c.outOfOrderRatio), NatCount(c.total, c.invalidRatio));
  }

  predicate HasNoFaultBefore(c: Config, k: nat)
    requires k <= |CONFIG_CHECKS|
  {
    forall j :: 0 <= j < k ==> !HasConfigFault(c, CONFIG_CHECKS[j])
  }

  /** Validation accepts exactly the configurations without fault, and otherwise names the first
      fault in the order of the checks. */
  lemma ConfigIsRefusedForItsFault(c: Config, k: nat)
    requires k < |CONFIG_CHECKS|
    ensures Validate(c) == Some(CONFIG_CHECKS[k]) <==> HasConfigFault(c, CONFIG_CHECKS[k]) && HasNoFaultBefore(c, k)
    ensures Validate(c) == None <==> HasNoFaultBefore(c, |CONFIG_CHECKS|)
  {
    if 0 <= c.total && HasRatios(c) {
      TooFewMeansNotFitting(c);
    }
    assert HasConfigFault(c, CONFIG_CHECKS[0]) <==> c.total <= 0;
    assert HasConfigFault(c, CONFIG_CHECKS[1]) <==> c.batchSize <= 0;
    assert HasConfigFault(c, CONFIG_CHECKS[2]) <==> c.redisAddr == "";
    assert HasConfigFault(c, CONFIG_CHECKS[3]) <==> c.stream == "";
    assert HasConfigFault(c, CONFIG_CHECKS[4]) <==> c.group == "";
    assert HasConfigFault(c, CONFIG_CHECKS[5]) <==> !HasRatios(c);
    assert HasConfigFault(c, CONFIG_CHECKS[6]) <==> 0 < c.total == RatioCount(c.total, c.duplicateRatio);
    assert HasConfigFault(c, CONFIG_CHECKS[7]) <==> HasConfigFault(c, TooFewUniqueEvents);
  }

  // ----- identifiers and times -----

  function Digit(d: nat): char
    requires d < 10
  {
    ('0' as int + d) as char
  }

  function Digits(n: nat): string {
    if n < 10 then [Digit(n)] else Digits(n / 10) + [Digit(n % 10)]
  }

  function Zeros(n: nat): string {
    if n == 0 then "" else "0" + Zeros(n - 1)
  }

  /** At least nine digits, filled up with zeros. */
  function Padded(n: nat): string {
    var digits := Digits(n);
    (if |digits| < 9 then Zeros(9 - |digits|) else "") + digits
  }

  function Signed(n: int): string {
    if n < 0 then "-" + Digits(-n) else Digits(n)
  }

  function EventIdOf(seed: int, n: nat): EventId {
    EventId("event-" + Signed(seed) + "-" + Padded(n))
  }

  function OrderIdOf(seed: int, n: nat): OrderId {
    OrderId("order-" + Signed(seed) + "-" + Padded(n))
  }

  /** The number a text of digits stands for. */
  function Number(s: string): int
    decreases |s|
  {
    if s == "" then 0 else 10 * Number(s[..|s| - 1]) + (s[|s| - 1] as int - '0' as int)
  }

  lemma {:induction false} NumberOfDigits(n: nat)
    ensures Number(Digits(n)) == n
    decreases n
  {
    if n >= 10 {
      NumberOfDigits(n / 10);
      var front := Digits(n / 10);
      assert (front + [Digit(n % 10)])[..|front|] == front;
    } else {
      assert [Digit(n)][..0] == "";
    }
  }

  lemma {:induction false} LeadingZeros(k: nat, s: string)
    ensures Number(Zeros(k) + s) == Number(s)
    decreases |s|, k
  {
    if s != "" {
      LeadingZeros(k, s[..|s| - 1]);
      assert (Zeros(k) + s)[..|Zeros(k) + s| - 1] == Zeros(k) + s[..|s| - 1];
    } else if k > 0 {
      ZerosEndInZero(k);
      LeadingZeros(k - 1, "");
      assert Zeros(k) + "" == Zeros(k) && Zeros(k - 1) + "" == Zeros(k - 1);
    }
  }

  lemma {:induction false} ZerosEndInZero(k: nat)
    requires k > 0
    ensures |Zeros(k)| > 0 && Zeros(k)[|Zeros(k)| - 1] == '0' && Zeros(k)[..|Zeros(k)| - 1] == Zeros(k - 1)
    decreases k
  {
    if k > 1 {
      ZerosEndInZero(k - 1);
      assert Zeros(k)[..|Zeros(k)| - 1] == "0" + Zeros(k - 1)[..|Zeros(k - 1)| - 1];
    }
  }

  /** No digit is superfluous. */
  lemma {:induction false} DigitsStartInFull(n: nat)
    ensures |Digits(n)| > 0
    ensures Digits(n)[0] == '0' <==> n == 0
    ensures n < 1_000_000_000 ==> |Digits(n)| <= 9
    decreases n
  {
    if n >= 10 {
      DigitsStartInFull(n / 10);
      assert PowerOfTen(3) == 1_000 && PowerOfTen(6) == 1_000_000 && PowerOfTen(9) == 1_000_000_000;
      if n < 1_000_000_000 {
        DigitsAreFew(n, 9);
      }
    }
  }

  function PowerOfTen(k: nat): nat {
    if k == 0 then 1 else 10 * PowerOfTen(k - 1)
  }

  lemma {:induction false} DigitsAreFew(n: nat, k: nat)
    requires 0 < k && n < PowerOfTen(k)
    ensures |Digits(n)| <= k
    decreases k
  {
    if n >= 10 {
      DigitsAreFew(n / 10, k - 1);
    }
  }

  lemma {:induction false} ZerosAreMany(k: nat)
    ensures |Zeros(k)| == k
    decreases k
  {
    if k > 0 {
      ZerosAreMany(k - 1);
    }
  }

  lemma PaddedReads(n: nat)
    ensures Number(Padded(n)) == n
  {
    var digits := Digits(n);
    NumberOfDigits(n);
    if |digits| < 9 {
      LeadingZeros(9 - |digits|, digits);
    } else {
      assert "" + digits == digits;
    }
  }

  lemma PaddedPlaces(n: nat)
    ensures |Padded(n)| == if |Digits(n)| < 9 then 9 else |Digits(n)|
    ensures |Digits(n)| >= 9 ==> Padded(n) == Digits(n)
  {
    if |Digits(n)| < 9 {
      ZerosAreMany(9 - |Digits(n)|);
    } else {
      assert "" + Digits(n) == Digits(n);
    }
  }

  /** Padding gives nine places and reads as the number; longer numbers are not padded. */
  lemma PaddedIsDecimal(n: nat)
    ensures Number(Padded(n)) == n && |Padded(n)| >= 9
    ensures n < 1_000_000_000 ==> |Padded(n)| == 9
    ensures |Padded(n)| > 9 ==> Padded(n)[0] != '0'
  {
    PaddedReads(n);
    PaddedPlaces(n);
    DigitsStartInFull(n);
  }

  lemma PaddedIsInjective(m: nat, n: nat)
    requires Padded(m) == Padded(n)
    ensures m == n
  {
    PaddedIsDecimal(m);
    PaddedIsDecimal(n);
  }

  /** A sign for negative seeds only, and then the digits of the absolute value. */
  lemma SignedIsDecimal(n: int)
    ensures Signed(n) != ""
    ensures if n < 0 then Signed(n)[0] == '-' && Number(Signed(n)[1..]) == -n
            else Signed(n)[0] != '-' && Number(Signed(n)) == n
  {
    NumberOfDigits(if n < 0 then -n else n);
    DigitsAreDigits(if n < 0 then -n else n);
  }

  predicate AreDigits(s: string) {
    forall i :: 0 <= i < |s| ==> '0' <= s[i] <= '9'
  }

  lemma {:induction false} DigitsAreDigits(n: nat)
    ensures |Digits(n)| > 0 && AreDigits(Digits(n))
    decreases n
  {
    if n >= 10 {
      DigitsAreDigits(n / 10);
    }
  }

  lemma PrefixCancels(prefix: string, a: string, b: string)
    requires prefix + a == prefix + b
    ensures a == b
  {
    assert (prefix + a)[|prefix|..] == a && (prefix + b)[|prefix|..] == b;
  }

  predicate StartsOtherwise(s: string) {
    s != "" && !('0' <= s[0] <= '9')
  }

  function LeadingDigits(s: string): nat {
    if s == "" || StartsOtherwise(s) then 0 else 1 + LeadingDigits(s[1..])
  }

  lemma {:induction false} DigitsLead(a: string, x: string)
    requires AreDigits(a) && StartsOtherwise(x)
    ensures LeadingDigits(a + x) == |a|
    decreases |a|
  {
    if a == "" {
      assert a + x == x;
    } else {
      assert (a + x)[1..] == a[1..] + x;
      DigitsLead(a[1..], x);
    }
  }

  /** Digits end where another character begins. */
  lemma DigitsEndThere(a: string, x: string, b: string, y: string)
    requires AreDigits(a) && AreDigits(b) && StartsOtherwise(x) && StartsOtherwise(y) && a + x == b + y
    ensures a == b && x == y
  {
    DigitsLead(a, x);
    DigitsLead(b, y);
    assert (a + x)[..|a|] == a && (b + y)[..|b|] == b;
    PrefixCancels(a, x, y);
  }

  lemma DigitsAreInjective(m: nat, n: nat)
    requires Digits(m) == Digits(n)
    ensures m == n
  {
    NumberOfDigits(m);
    NumberOfDigits(n);
  }

  function Sign(n: int): string {
    if n < 0 then "-" else ""
  }

  function Abs(n: int): nat {
    if n < 0 then -n else n
  }

  lemma SignThenDigits(n: int, x: string)
    ensures Signed(n) + x == Sign(n) + (Digits(Abs(n)) + x)
    ensures (Signed(n) + x)[0] == '-' <==> n < 0
  {
    DigitsAreDigits(Abs(n));
  }

  /** A number with its sign ends where another character begins. */
  lemma SignedEndsThere(m: int, x: string, n: int, y: string)
    requires StartsOtherwise(x) && StartsOtherwise(y) && Signed(m) + x == Signed(n) + y
    ensures m == n && x == y
  {
    SignThenDigits(m, x);
    SignThenDigits(n, y);
    PrefixCancels(Sign(m), Digits(Abs(m)) + x, Digits(Abs(n)) + y);
    DigitsAreDigits(Abs(m));
    DigitsAreDigits(Abs(n));
    DigitsEndThere(Digits(Abs(m)), x, Digits(Abs(n)), y);
    DigitsAreInjective(Abs(m), Abs(n));
  }

  lemma FourParts(a: string, b: string, c: string, d: string)
    ensures a + b + c + d == a + (b + (c + d))
  {
  }

  lemma NameIsInjective(prefix: string, seed: int, m: nat, seed': int, n: nat)
    requires prefix + Signed(seed) + "-" + Padded(m) == prefix + Signed(seed') + "-" + Padded(n)
    ensures seed == seed' && m == n
  {
    FourParts(prefix, Signed(seed), "-", Padded(m));
    FourParts(prefix, Signed(seed'), "-", Padded(n));
    PrefixCancels(prefix, Signed(seed) + ("-" + Padded(m)), Signed(seed') + ("-" + Padded(n)));
    SignedEndsThere(seed, "-" + Padded(m), seed', "-" + Padded(n));
    PrefixCancels("-", Padded(m), Padded(n));
    PaddedIsInjective(m, n);
  }

  /** Formatted ids are as distinct as the seeds and sequence numbers behind them. */
  lemma IdsAreInjective(seed: int, m: nat, seed': int, n: nat)
    ensures EventIdOf(seed, m) == EventIdOf(seed', n) ==> seed == seed' && m == n
    ensures OrderIdOf(seed, m) == OrderIdOf(seed', n) ==> seed == seed' && m == n
  {
    if EventIdOf(seed, m) == EventIdOf(seed', n) {
      NameIsInjective("event-", seed, m, seed', n);
    }
    if OrderIdOf(seed, m) == OrderIdOf(seed', n) {
      NameIsInjective("order-", seed, m, seed', n);
    }
  }

  const SECOND: int := 1_000_000_000
  const EPOCH: int := 63_871_286_400 * SECOND

  /** Durations are 64-bit counts of nanoseconds. */
  function WrapInt64(n: int): int {
    (n + 0x8000_0000_0000_0000) % 0x1_0000_0000_0000_0000 - 0x8000_0000_0000_0000
  }

  function BaseTime(seed: int): int {
    EPOCH + WrapInt64(seed * SECOND)
  }

  function TimeOf(seed: int, index: nat): int {
    BaseTime(seed) + WrapInt64(index * SECOND)
  }

  /** Wrapping gives the 64-bit duration that differs by whole clock ranges. */
  lemma WrappedIsCongruent(n: int)
    ensures -0x8000_0000_0000_0000 <= WrapInt64(n) < 0x8000_0000_0000_0000
    ensures (n - WrapInt64(n)) % 0x1_0000_0000_0000_0000 == 0
    ensures -0x8000_0000_0000_0000 <= n < 0x8000_0000_0000_0000 ==> WrapInt64(n) == n
  {
    var shifted := n + 0x8000_0000_0000_0000;
    var range := 0x1_0000_0000_0000_0000;
    assert n - WrapInt64(n) == shifted - shifted % range == shifted / range * range;
  }

  /** Days from the first day of the year 1 to the first day of a year. */
  function DaysBeforeYear(year: nat): nat
    requires year > 0
  {
    var past := year - 1;
    365 * past + past / 4 - past / 100 + past / 400
  }

  /** The simulated clock of seed 0 starts with the year 2025. */
  lemma EpochIsNewYear()
    ensures BaseTime(0) == DaysBeforeYear(2025) * 24 * 60 * 60 * SECOND
  {
  }

  /** Each further seed starts one second later, exactly within 292 years around the epoch. */
  lemma SeedShiftsTheClock(seed: int)
    ensures BaseTime(seed) == BaseTime(0) + seed * SECOND <==> -MAX_SECONDS <= seed <= MAX_SECONDS
  {
    WrappedIsCongruent(seed * SECOND);
  }

  /** No generated timestamp is the zero time, whatever wraps around. */
  lemma TimeIsPositive(seed: int, index: nat)
    ensures TimeOf(seed, index) > ZERO_TIME
  {
  }

  const ERA: int := 0x1_0000_0000_0000_0000
  const MAX_SECONDS: int := 9_223_372_036

  /** How often the duration of this index has wrapped around. */
  function Era(index: nat): nat {
    (index * SECOND + 0x8000_0000_0000_0000) / ERA
  }

  /** Each wrap-around sets the clock back by an era. */
  lemma TimeByEra(seed: int, index: nat)
    ensures TimeOf(seed, index) == BaseTime(seed) + index * SECOND - Era(index) * ERA
  {
    var n := index * SECOND + 0x8000_0000_0000_0000;
    assert n == n / ERA * ERA + n % ERA;
  }

  /** The time of an index is that many seconds after the base time exactly up to 292 years. */
  lemma TimeIsLinear(seed: int, index: nat)
    ensures TimeOf(seed, index) == BaseTime(seed) + index * SECOND <==> index <= MAX_SECONDS
    ensures Era(index) == 0 <==> index <= MAX_SECONDS
  {
    TimeByEra(seed, index);
  }

  /** Indices close to each other are dated in their order exactly when no wrap-around lies
      between them, and otherwise in the reverse order. */
  lemma DatedInOrder(seed: int, i: nat, j: nat)
    requires i < j <= i + 3
    ensures TimeOf(seed, i) < TimeOf(seed, j) <==> Era(i) == Era(j)
    ensures TimeOf(seed, i) != TimeOf(seed, j)
  {
    TimeByEra(seed, i);
    TimeByEra(seed, j);
    assert Era(i) <= Era(j);
  }

  // ----- scenarios -----

  datatype GeneratedEvent = GeneratedEvent(event: OrderEvent, duplicate: bool, outOfOrder: bool, invalid: bool)

  /** One scenario is the story of one order. */
  datatype Scenario = PaidBeforeCreated | ShippedBeforePaid | CancelledAfterShipped | Lifecycle(statuses: seq<Status>)

  /** The lifecycle that the scenario's events describe, in time order. */
  function Statuses(s: Scenario): seq<Status> {
    match s
    case PaidBeforeCreated => [Created, Paid]
    case ShippedBeforePaid => [Created, Paid, Shipped]
    case CancelledAfterShipped => [Created, Paid, Shipped, Cancelled]
    case Lifecycle(statuses) => statuses
  }

  function PayloadOf(seed: int, status: Status, sequence: nat): Payload {
    JsonObject("{\"generator\":\"load-producer\",\"seed\":" + Signed(seed) + ",\"sequence\":" + Digits(sequence)
               + ",\"status\":\"" + StatusText(status) + "\"}")
  }

  lemma SuffixCancels(a: string, b: string, suffix: string)
    requires a + suffix == b + suffix
    ensures a == b
  {
    assert (a + suffix)[..|a|] == a && (b + suffix)[..|b|] == b;
  }

  lemma SevenParts(a: string, b: string, c: string, d: string, e: string, f: string, g: string)
    ensures a + b + c + d + e + f + g == a + (b + (c + (d + (e + (f + g)))))
  {
    FourParts(a, b, c, d);
    FourParts(a + (b + (c + d)), e, f, g);
    FourParts(a, b + (c + d), e + (f + g), "");
    FourParts(b, c, d, e + (f + g));
    assert e + (f + g) + "" == e + (f + g) && a + (b + (c + d)) + (e + (f + g)) + "" == a + (b + (c + d)) + (e + (f + g));
  }

  /** The payload tells seed, sequence number and status of its event. */
  lemma PayloadIsInjective(seed: int, s: Status, m: nat, seed': int, s': Status, n: nat)
    requires PayloadOf(seed, s, m) == PayloadOf(seed', s', n)
    ensures seed == seed' && m == n && StatusText(s) == StatusText(s')
  {
    var head, next, last := "{\"generator\":\"load-producer\",\"seed\":", ",\"sequence\":", ",\"status\":\"";
    FieldsAreInjective(head, seed, next, m, last, StatusText(s), "\"}", seed', n, StatusText(s'));
  }

  lemma FieldsAreInjective(head: string, seed: int, next: string, m: nat, last: string, text: string, tail: string,
                           seed': int, n: nat, text': string)
    requires StartsOtherwise(next) && StartsOtherwise(last)
    requires head + Signed(seed) + next + Digits(m) + last + text + tail
             == head + Signed(seed') + next + Digits(n) + last + text' + tail
    ensures seed == seed' && m == n && text == text'
  {
    var x, y := last + (text + tail), last + (text' + tail);
    SevenParts(head, Signed(seed), next, Digits(m), last, text, tail);
    SevenParts(head, Signed(seed'), next, Digits(n), last, text', tail);
    PrefixCancels(head, Signed(seed) + (next + (Digits(m) + x)), Signed(seed') + (next + (Digits(n) + y)));
    SignedEndsThere(seed, next + (Digits(m) + x), seed', next + (Digits(n) + y));
    PrefixCancels(next, Digits(m) + x, Digits(n) + y);
    DigitsAreDigits(m);
    DigitsAreDigits(n);
    DigitsEndThere(Digits(m), x, Digits(n), y);
    DigitsAreInjective(m, n);
    PrefixCancels(last, text + tail, text' + tail);
    SuffixCancels(text, text', tail);
  }

  /** How sequence numbers become ids, times and payloads. */
  datatype Naming = Naming(
    eventId: nat -> EventId,
    orderId: nat -> OrderId,
    time: nat -> int,
    payload: (Status, nat) -> Payload)

  function NamesOf(seed: int): Naming {
    Naming((n: nat) => EventIdOf(seed, n), (n: nat) => OrderIdOf(seed, n), (i: nat) => TimeOf(seed, i),
           (s: Status, n: nat) => PayloadOf(seed, s, n))
  }

  /** What the processor needs of the names: distinct, and acceptable to the validation. */
  ghost predicate IsSoundNaming(names: Naming) {
    && (forall m, n :: names.eventId(m) == names.eventId(n) ==> m == n)
    && (forall m, n :: names.orderId(m) == names.orderId(n) ==> m == n)
    && (forall n :: names.eventId(n).text != "" && names.orderId(n).text != "")
    && (forall i :: names.time(i) != ZERO_TIME)
    && (forall s, n :: names.payload(s, n).JsonObject?)
  }

  lemma NamesAreSound(seed: int)
    ensures IsSoundNaming(NamesOf(seed))
  {
    var names := NamesOf(seed);
    forall m, n
      ensures names.eventId(m) == names.eventId(n) ==> m == n
      ensures names.orderId(m) == names.orderId(n) ==> m == n
    {
      IdsAreInjective(seed, m, seed, n);
    }
    forall i
      ensures names.time(i) != ZERO_TIME
    {
      TimeIsPositive(seed, i);
    }
    forall n
      ensures names.eventId(n).text != "" && names.orderId(n).text != ""
    {
      assert |"event-" + Signed(seed) + "-" + Padded(n)| >= |"event-"|;
      assert |"order-" + Signed(seed) + "-" + Padded(n)| >= |"order-"|;
    }
  }

  function NewEvent(names: Naming, order: nat, status: Status, sequence: nat, timeIndex: nat): OrderEvent {
    OrderEvent(names.eventId(sequence), names.orderId(order), status, names.time(timeIndex), names.payload(status, sequence))
  }

  /** The event of step `i` of a scenario whose order has number `order` and whose predecessors
      used up `before` sequence numbers. */
  function StepEvent(names: Naming, s: Scenario, order: nat, before: nat, i: nat): OrderEvent
    requires i < |Statuses(s)|
  {
    NewEvent(names, order, Statuses(s)[i], before + i + 1, before + i)
  }

  function Plain(e: OrderEvent): GeneratedEvent {
    GeneratedEvent(e, false, false, false)
  }

  /** Which step of the story is sent at position `k`: the early event first, then the others. */
  function StepAt(s: Scenario, k: nat): nat
    requires k < |Statuses(s)|
  {
    match s
    case PaidBeforeCreated => 1 - k
    case ShippedBeforePaid => if k == 0 then 2 else k - 1
    case _ => k
  }

  /** The label: the early event is out of order, a cancellation after shipment is invalid. */
  function SentAt(names: Naming, s: Scenario, order: nat, before: nat, k: nat): GeneratedEvent
    requires k < |Statuses(s)|
  {
    GeneratedEvent(StepEvent(names, s, order, before, StepAt(s, k)), false,
                   k == 0 && (s.PaidBeforeCreated? || s.ShippedBeforePaid?),
                   k == 3 && s.CancelledAfterShipped?)
  }

  /** The scenario's events in the order in which they are sent, with their labels. */
  function Sent(names: Naming, s: Scenario, order: nat, before: nat): (sent: seq<GeneratedEvent>)
    ensures |sent| == |Statuses(s)|
  {
    seq(|Statuses(s)|, k requires 0 <= k < |Statuses(s)| => SentAt(names, s, order, before, k))
  }

  function Size(plan: seq<Scenario>): nat
    decreases |plan|
  {
    if plan == [] then 0 else Size(plan[..|plan| - 1]) + |Statuses(plan[|plan| - 1])|
  }

  /** The unique events of a plan, scenario after scenario. */
  function UniqueEvents(names: Naming, plan: seq<Scenario>): (events: seq<GeneratedEvent>)
    ensures |events| == Size(plan)
    decreases |plan|
  {
    if plan == [] then []
    else
      var n := |plan| - 1;
      UniqueEvents(names, plan[..n]) + Sent(names, plan[n], |plan|, Size(plan[..n]))
  }

  function Duplicate(g: GeneratedEvent): GeneratedEvent {
    GeneratedEvent(g.event, true, false, false)
  }

  /** The first `duplicates` events are each followed at once by their duplicate. */
  function WithDuplicates(unique: seq<GeneratedEvent>, duplicates: nat): seq<GeneratedEvent>
    decreases |unique|
  {
    if unique == [] then []
    else
      var n := |unique| - 1;
      WithDuplicates(unique[..n], duplicates) + (if n < duplicates then [unique[n], Duplicate(unique[n])] else [unique[n]])
  }

  // ----- the plan of a configuration -----

  function OutOfOrderPlan(count: nat): seq<Scenario> {
    seq(count, i => if i % 2 == 0 then PaidBeforeCreated else ShippedBeforePaid)
  }

  function InvalidPlan(count: nat): seq<Scenario> {
    seq(count, _ => CancelledAfterShipped)
  }

  const LIFECYCLES: seq<seq<Status>> := [
    [Created],
    [Created, Paid],
    [Created, Cancelled],
    [Created, Paid, Shipped],
    [Created, Paid, Cancelled]]

  /** The lifecycle that a random draw stands for. */
  function Drawn(random: nat -> nat, draw: nat): seq<Status> {
    LIFECYCLES[random(draw) % |LIFECYCLES|]
  }

  /** Picks a lifecycle with a random draw and cuts it to what is still wanted. */
  function Pick(random: nat -> nat, draw: nat, count: nat): (statuses: seq<Status>)
    requires count > 0
    ensures 0 < |statuses| <= count
  {
    var lifecycle := Drawn(random, draw);
    if |lifecycle| > count then lifecycle[..count] else lifecycle
  }

  function NormalPlan(random: nat -> nat, draw: nat, count: nat): seq<Scenario>
    decreases count
  {
    if count == 0 then []
    else
      var statuses := Pick(random, draw, count);
      [Lifecycle(statuses)] + NormalPlan(random, draw + 1, count - |statuses|)
  }

  lemma NormalPlanStarts(random: nat -> nat, draw: nat, count: nat) returns (picked: seq<Status>, rest: seq<Scenario>)
    requires count > 0
    ensures 0 < |picked| <= count && picked == Pick(random, draw, count)
    ensures rest == NormalPlan(random, draw + 1, count - |picked|)
    ensures NormalPlan(random, draw, count) == [Lifecycle(picked)] + rest
  {
    picked := Pick(random, draw, count);
    rest := NormalPlan(random, draw + 1, count - |picked|);
  }

  lemma FirstThenRest(plan: seq<Scenario>, first: Scenario, rest: seq<Scenario>, k: nat)
    requires plan == [first] + rest && 0 < k < |plan|
    ensures plan[k] == rest[k - 1]
    ensures Size(plan[..k]) == |Statuses(first)| + Size(rest[..k - 1])
  {
    assert ([first] + rest)[..k] == [first] + rest[..k - 1];
    SizeConcat([first], rest[..k - 1]);
    assert [first][..0] == [];
  }

  lemma OneMoreSize(plan: seq<Scenario>, k: nat)
    requires k < |plan|
    ensures Size(plan[..k + 1]) == Size(plan[..k]) + |Statuses(plan[k])|
  {
    assert plan[..k + 1][..k] == plan[..k];
  }

  /** Each scenario of a normal plan was picked by the draw that was due, for what was left then. */
  lemma {:induction false} NormalPlanAt(random: nat -> nat, draw: nat, count: nat, plan: seq<Scenario>, k: nat)
    returns (d: nat, n: nat)
    requires plan == NormalPlan(random, draw, count) && k < |plan|
    ensures d == draw + k && n > 0 && plan[k] == Lifecycle(Pick(random, d, n))
    ensures Size(plan[..k]) + n == count
    decreases k
  {
    var picked, rest := NormalPlanStarts(random, draw, count);
    if k == 0 {
      d, n := draw, count;
    } else {
      d, n := NormalPlanAt(random, draw + 1, count - |picked|, rest, k - 1);
      FirstThenRest(plan, Lifecycle(picked), rest, k);
    }
  }

  lemma PickCutsToFit(random: nat -> nat, draw: nat, count: nat)
    requires count > 0
    ensures var drawn, picked := Drawn(random, draw), Pick(random, draw, count);
            picked <= drawn && (|picked| < count ==> picked == drawn)
  {
  }

  /** The k-th draw decides the k-th lifecycle, which is cut short if less is left. */
  lemma DrawnInTurn(random: nat -> nat, draw: nat, count: nat, plan: seq<Scenario>, k: nat) returns (d: nat, n: nat)
    requires plan == NormalPlan(random, draw, count) && k < |plan|
    ensures d == draw + k && 0 < n == count - Size(plan[..k])
    ensures var told := Statuses(plan[k]); told <= Drawn(random, d) && (|told| < n ==> told == Drawn(random, d))
  {
    d, n := NormalPlanAt(random, draw, count, plan, k);
    PickCutsToFit(random, d, n);
  }

  /** No lifecycle but the last one is cut short. */
  lemma OnlyTheLastIsCut(random: nat -> nat, draw: nat, count: nat, plan: seq<Scenario>, k: nat) returns (d: nat)
    requires plan == NormalPlan(random, draw, count) && k < |plan|
    ensures d == draw + k && Statuses(plan[k]) <= Drawn(random, d)
    ensures k + 1 < |plan| ==> Statuses(plan[k]) == Drawn(random, d)
  {
    var n;
    d, n := DrawnInTurn(random, draw, count, plan, k);
    if k + 1 < |plan| {
      var _, left := DrawnInTurn(random, draw, count, plan, k + 1);
      OneMoreSize(plan, k);
    }
  }

  /** A path along the edges of the lifecycle that starts with nothing. */
  ghost predicate IsPath(statuses: seq<Status>) {
    && statuses != []
    && IsEdge(NoStatus, statuses[0])
    && forall i :: 0 < i < |statuses| ==> IsEdge(statuses[i - 1], statuses[i])
  }

  /** The normal lifecycles are all the paths there are, each once, the shorter and the uncancelled
      ones first. */
  lemma LifecyclesAreThePaths(statuses: seq<Status>)
    ensures IsPath(statuses) <==> statuses in LIFECYCLES
    ensures forall i, j :: 0 <= i < j < |LIFECYCLES| ==>
              |LIFECYCLES[i]| < |LIFECYCLES[j]| || (Cancelled !in LIFECYCLES[i] && Cancelled in LIFECYCLES[j])
  {
    if IsPath(statuses) {
      assert |statuses| > 1 ==> IsEdge(statuses[0], statuses[1]);
      assert |statuses| > 2 ==> IsEdge(statuses[1], statuses[2]);
      assert |statuses| > 3 ==> IsEdge(statuses[2], statuses[3]);
      assert |statuses| <= 3;
      assert statuses == if |statuses| == 1 then [Created] else if |statuses| == 2 then [Created, statuses[1]]
                         else [Created, Paid, statuses[2]];
      assert [Created] == LIFECYCLES[0] && [Created, Paid] == LIFECYCLES[1] && [Created, Cancelled] == LIFECYCLES[2];
      assert [Created, Paid, Shipped] == LIFECYCLES[3] && [Created, Paid, Cancelled] == LIFECYCLES[4];
    }
  }

  /** The whole plan: the out-of-order scenarios, the invalid ones, and normal ones to fill up. */
  function PlanOf(t: Counts, random: nat -> nat): seq<Scenario> {
    var first := Specials(t.outOfOrder, t.invalid);
    first + NormalPlan(random, 0, if t.unique >= Size(first) then t.unique - Size(first) else 0)
  }

  function Specials(outOfOrder: nat, invalid: nat): (plan: seq<Scenario>)
    ensures |plan| == outOfOrder + invalid
  {
    OutOfOrderPlan(outOfOrder) + InvalidPlan(invalid)
  }

  function Plan(c: Config, random: nat -> nat): seq<Scenario>
    requires Validate(c) == None
  {
    PlanOf(Targets(c), random)
  }

  // ----- counting -----

  lemma {:induction false} SizeConcat(a: seq<Scenario>, b: seq<Scenario>)
    ensures Size(a + b) == Size(a) + Size(b)
    decreases |b|
  {
    if b == [] {
      assert a + b == a;
    } else {
      var n := |b| - 1;
      assert (a + b)[..|a + b| - 1] == a + b[..n];
      SizeConcat(a, b[..n]);
    }
  }

  lemma OutOfOrderNext(count: nat)
    ensures OutOfOrderScenarioSize(count + 1)
            == OutOfOrderScenarioSize(count) + |Statuses(if count % 2 == 0 then PaidBeforeCreated else ShippedBeforePaid)|
  {
  }

  /** The size used by the validation is what the out-of-order scenarios send. */
  lemma {:induction false} OutOfOrderSize(count: nat)
    ensures Size(OutOfOrderPlan(count)) == OutOfOrderScenarioSize(count)
    decreases count
  {
    if count > 0 {
      OutOfOrderSize(count - 1);
      OutOfOrderNext(count - 1);
      assert OutOfOrderPlan(count)[..count - 1] == OutOfOrderPlan(count - 1);
    }
  }

  lemma {:induction false} InvalidSize(count: nat)
    ensures Size(InvalidPlan(count)) == 4 * count
    decreases count
  {
    if count > 0 {
      InvalidSize(count - 1);
      assert InvalidPlan(count)[..count - 1] == InvalidPlan(count - 1);
    }
  }

  lemma {:induction false} NormalSize(random: nat -> nat, draw: nat, count: nat)
    ensures Size(NormalPlan(random, draw, count)) == count
    decreases count
  {
    if count > 0 {
      var statuses := Pick(random, draw, count);
      NormalSize(random, draw + 1, count - |statuses|);
      SizeConcat([Lifecycle(statuses)], NormalPlan(random, draw + 1, count - |statuses|));
      assert [Lifecycle(statuses)][..0] == [];
    }
  }

  /** The special scenarios fit into the unique events. */
  predicate IsFeasible(t: Counts) {
    OutOfOrderScenarioSize(t.outOfOrder) + 4 * t.invalid <= t.unique
  }

  lemma TargetsAreFeasible(c: Config)
    requires Validate(c) == None
    ensures IsFeasible(Targets(c))
  {
  }

  lemma SpecialsSize(outOfOrder: nat, invalid: nat)
    ensures Size(Specials(outOfOrder, invalid)) == OutOfOrderScenarioSize(outOfOrder) + 4 * invalid
  {
    OutOfOrderSize(outOfOrder);
    InvalidSize(invalid);
    SizeConcat(OutOfOrderPlan(outOfOrder), InvalidPlan(invalid));
  }

  /** The plan consists of the special scenarios and normal ones for what is left. */
  lemma PlanParts(t: Counts, random: nat -> nat) returns (left: nat)
    requires IsFeasible(t)
    ensures PlanOf(t, random) == Specials(t.outOfOrder, t.invalid) + NormalPlan(random, 0, left)
    ensures Size(Specials(t.outOfOrder, t.invalid)) + left == t.unique
  {
    SpecialsSize(t.outOfOrder, t.invalid);
    left := t.unique - Size(Specials(t.outOfOrder, t.invalid));
  }

  /** The plan starts with the out-of-order scenarios, alternating, and goes on with the invalid ones. */
  lemma SpecialsComeFirst(t: Counts, random: nat -> nat, k: nat)
    requires IsFeasible(t) && k < |PlanOf(t, random)|
    ensures var s := PlanOf(t, random)[k];
            && (s.PaidBeforeCreated? <==> k < t.outOfOrder && k % 2 == 0)
            && (s.ShippedBeforePaid? <==> k < t.outOfOrder && k % 2 == 1)
            && (s.CancelledAfterShipped? <==> t.outOfOrder <= k < t.outOfOrder + t.invalid)
  {
    var left := PlanParts(t, random);
    if k >= t.outOfOrder + t.invalid {
      var d, n := NormalPlanAt(random, 0, left, NormalPlan(random, 0, left), k - t.outOfOrder - t.invalid);
    }
  }

  lemma PlanOfSize(t: Counts, random: nat -> nat)
    requires IsFeasible(t)
    ensures Size(PlanOf(t, random)) == t.unique
  {
    var left := PlanParts(t, random);
    NormalSize(random, 0, left);
    SizeConcat(Specials(t.outOfOrder, t.invalid), NormalPlan(random, 0, left));
  }

  /** An accepted configuration gets exactly the unique events it asks for. */
  lemma PlanSize(c: Config, random: nat -> nat)
    requires Validate(c) == None
    ensures Size(Plan(c, random)) == Targets(c).unique
  {
    TargetsAreFeasible(c);
    PlanOfSize(Targets(c), random);
  }

  lemma {:induction false} WithDuplicatesSize(unique: seq<GeneratedEvent>, duplicates: nat)
    ensures |WithDuplicates(unique, duplicates)| == |unique| + if duplicates < |unique| then duplicates else |unique|
    decreases |unique|
  {
    if unique != [] {
      WithDuplicatesSize(unique[..|unique| - 1], duplicates);
    }
  }

  /** The first unique events are each followed at once by their duplicate, the others stand alone. */
  lemma {:induction false} DuplicatesFollow(unique: seq<GeneratedEvent>, duplicates: nat, i: nat)
    requires i < |unique|
    ensures var sent := WithDuplicates(unique, duplicates);
            if i < duplicates then
              2 * i + 1 < |sent| && sent[2 * i] == unique[i] && sent[2 * i + 1] == Duplicate(unique[i])
            else duplicates + i < |sent| && sent[duplicates + i] == unique[i]
    decreases |unique|
  {
    var n := |unique| - 1;
    WithDuplicatesSize(unique, duplicates);
    WithDuplicatesSize(unique[..n], duplicates);
    if i < n {
      DuplicatesFollow(unique[..n], duplicates, i);
    }
  }

  lemma {:induction false} WithDuplicatesPrefix(unique: seq<GeneratedEvent>, k: nat, duplicates: nat)
    requires k <= |unique|
    ensures WithDuplicates(unique[..k], duplicates) <= WithDuplicates(unique, duplicates)
    decreases |unique|
  {
    var n := |unique| - 1;
    if k <= n {
      WithDuplicatesPrefix(unique[..n], k, duplicates);
      assert unique[..n][..k] == unique[..k];
    } else {
      assert unique[..k] == unique;
    }
  }
}
