/** The storage and duration estimates computed beside the classifier:
    `calculate_payload_size`, `calculate_event_count_size` and the arithmetic
    of `calculate_run_duration`. */
module Metrics {
  import opened Wrappers
  import opened History

  /** The attribute fields `calculate_payload_size` tests, in its `if`/`elif` order. */
  const PayloadFields: seq<string> := [
    WorkflowExecutionStartedAttributes,
    StartChildWorkflowInitiatedAttributes,
    ActivityTaskScheduledAttributes,
    WorkflowExecutionSignaledAttributes,
    ChildWorkflowCompletedAttributes,
    ActivityTaskCompletedAttributes,
    WorkflowExecutionCompletedAttributes,
    ActivityTaskFailedAttributes,
    WorkflowExecutionFailedAttributes
  ]

  /** `failure.encodedAttributes`, failing as the source's `.get("failure").get(...)`
      does when there is no `failure` object. */
  function EncodedFailure(a: Attributes): Result<Option<Json>, Error> {
    match a.failure
    case None => Err(MissingFailure)
    case Some(f) => Ok(f.encodedAttributes)
  }

  /** The value `calculate_payload_size` serialises for one event: the
      sub-field of the first attribute field present, in the source's order. */
  function PayloadOf(e: Event): Result<Option<Json>, Error> {
    var attrs := e.attributes;
    if WorkflowExecutionStartedAttributes in attrs then Ok(attrs[WorkflowExecutionStartedAttributes].input)
    else if StartChildWorkflowInitiatedAttributes in attrs then Ok(attrs[StartChildWorkflowInitiatedAttributes].input)
    else if ActivityTaskScheduledAttributes in attrs then Ok(attrs[ActivityTaskScheduledAttributes].input)
    else if WorkflowExecutionSignaledAttributes in attrs then Ok(attrs[WorkflowExecutionSignaledAttributes].input)
    else if ChildWorkflowCompletedAttributes in attrs then Ok(attrs[ChildWorkflowCompletedAttributes].result)
    else if ActivityTaskCompletedAttributes in attrs then Ok(attrs[ActivityTaskCompletedAttributes].result)
    else if WorkflowExecutionCompletedAttributes in attrs then Ok(attrs[WorkflowExecutionCompletedAttributes].result)
    else if ActivityTaskFailedAttributes in attrs then EncodedFailure(attrs[ActivityTaskFailedAttributes])
    else if WorkflowExecutionFailedAttributes in attrs then EncodedFailure(attrs[WorkflowExecutionFailedAttributes])
    else Ok(None)
  }

  /** The sub-field read from the `i`-th payload field: `input` for the first
      four, `result` for the next three, `failure.encodedAttributes` for the last two. */
  function SelectPayload(i: nat, a: Attributes): Result<Option<Json>, Error> {
    if i < 4 then Ok(a.input)
    else if i < 7 then Ok(a.result)
    else EncodedFailure(a)
  }

  /** The `if`/`elif` chain is a first-match search over `PayloadFields`. */
  lemma PayloadOfFirstMatch(e: Event)
    ensures PayloadOf(e) == match FirstPresent(PayloadFields, e.attributes)
                            case None => Ok(None)
                            case Some(i) => SelectPayload(i, e.attributes[PayloadFields[i]])
  {
    var attrs := e.attributes;
    var f := PayloadFields;
    if f[0] in attrs {
    } else if f[1] in attrs {
      assert FirstPresent(f, attrs) == Some(1) by { assert FirstPresent(f[1..], attrs) == Some(0); }
    } else if f[2] in attrs {
      assert FirstPresent(f[2..], attrs) == Some(0);
      assert f[1..][1..] == f[2..];
    } else if f[3] in attrs {
      assert FirstPresent(f, attrs) == Some(3);
    } else if f[4] in attrs {
      assert FirstPresent(f, attrs) == Some(4);
    } else if f[5] in attrs {
      assert FirstPresent(f, attrs) == Some(5);
    } else if f[6] in attrs {
      assert FirstPresent(f, attrs) == Some(6);
    } else if f[7] in attrs {
      assert FirstPresent(f, attrs) == Some(7);
    } else if f[8] in attrs {
      assert FirstPresent(f, attrs) == Some(8);
    } else {
      assert FirstPresent(f, attrs) == None;
    }
  }

  /** The bytes one event contributes, given the serialised size of a JSON value.
      A missing value or a JSON `null` contributes nothing. */
  function EventPayloadSize(e: Event, size: Json -> nat): Result<nat, Error> {
    match PayloadOf(e)
    case Err(err) => Err(err)
    case Ok(None) => Ok(0)
    case Ok(Some(JNull)) => Ok(0)
    case Ok(Some(v)) => Ok(size(v))
  }

  /** An event with none of the payload fields contributes 0. */
  lemma NoPayloadFieldContributesNothing(e: Event, size: Json -> nat)
    requires forall i :: 0 <= i < |PayloadFields| ==> PayloadFields[i] !in e.attributes
    ensures EventPayloadSize(e, size) == Ok(0)
  {
    PayloadOfFirstMatch(e);
  }

  /** The payload total over `events`, failing at the first event that fails. */
  function PayloadTotal(events: seq<Event>, size: Json -> nat): Result<nat, Error>
    decreases |events|
  {
    if events == [] then Ok(0)
    else
      match EventPayloadSize(events[0], size)
      case Err(err) => Err(err)
      case Ok(n) =>
        match PayloadTotal(events[1..], size)
        case Err(err) => Err(err)
        case Ok(rest) => Ok(n + rest)
  }

  /** `calculate_payload_size`, with `json.dumps` and UTF-8 encoding abstracted
      into `size`. */
  method CalculatePayloadSize(events: seq<Event>, size: Json -> nat) returns (r: Result<nat, Error>)
    ensures r == PayloadTotal(events, size)
  {
    var totalSize: nat := 0;
    var i := 0;
    while i < |events|
      invariant 0 <= i <= |events|
      invariant PayloadTotal(events, size)
             == match PayloadTotal(events[i..], size)
                case Err(err) => Err(err)
                case Ok(rest) => Ok(totalSize + rest)
    {
      assert events[i..][0] == events[i] && events[i..][1..] == events[i + 1..];
      var dataInputResult := PayloadOf(events[i]);
      if dataInputResult.Err? {
        return Err(dataInputResult.error);
      }
      if dataInputResult.value.Some? && dataInputResult.value.value != JNull {
        totalSize := totalSize + size(dataInputResult.value.value);
      }
      i := i + 1;
    }
    assert events[i..] == [];
    r := Ok(totalSize);
  }

  /** The total succeeds exactly when every event's contribution does. */
  lemma {:induction false} PayloadTotalOk(events: seq<Event>, size: Json -> nat)
    ensures PayloadTotal(events, size).Ok?
        <==> forall i :: 0 <= i < |events| ==> EventPayloadSize(events[i], size).Ok?
    decreases |events|
  {
    if events != [] {
      PayloadTotalOk(events[1..], size);
      assert forall i :: 1 <= i < |events| ==> events[i] == events[1..][i - 1];
    }
  }

  /** The total of a concatenation is the sum of the totals. */
  lemma {:induction false} PayloadTotalAppend(a: seq<Event>, b: seq<Event>, size: Json -> nat)
    requires PayloadTotal(a, size).Ok? && PayloadTotal(b, size).Ok?
    ensures PayloadTotal(a + b, size) == Ok(PayloadTotal(a, size).value + PayloadTotal(b, size).value)
    decreases |a|
  {
    ConcatFirst(a, b);
    if a != [] {
      PayloadTotalAppend(a[1..], b, size);
    }
  }

  /** Each event contributes no more than the total does. */
  lemma {:induction false} PayloadTotalBoundsEach(events: seq<Event>, size: Json -> nat, i: nat)
    requires i < |events| && PayloadTotal(events, size).Ok?
    ensures EventPayloadSize(events[i], size).Ok?
    ensures EventPayloadSize(events[i], size).value <= PayloadTotal(events, size).value
    decreases |events|
  {
    if i > 0 {
      assert events[1..][i - 1] == events[i];
      PayloadTotalBoundsEach(events[1..], size, i - 1);
    }
  }

  /** The fixed per-event overhead, in bytes. */
  const EventOverhead: nat := 78

  /** `calculate_event_count_size`: 78 bytes per event. */
  function EventCountSize(events: seq<Event>): (r: nat)
    ensures r % EventOverhead == 0 && r / EventOverhead == |events|
  {
    |events| * EventOverhead
  }

  /** The estimate is additive over histories. */
  lemma EventCountSizeAppend(a: seq<Event>, b: seq<Event>)
    ensures EventCountSize(a + b) == EventCountSize(a) + EventCountSize(b)
  {
  }

  const NanosPerSecond: nat := 1_000_000_000
  const NanosPerMinute: nat := 60 * NanosPerSecond

  /** A run duration as whole minutes and the remaining whole seconds. */
  datatype Duration = Duration(minutes: int, seconds: nat)

  /** `int(d // 60)` and `int(d % 60)` of a duration of `nanos` nanoseconds.
      Python's floor division and modulo by a positive divisor agree with
      Dafny's, and the modulo is never negative, so truncating it to an int
      takes the whole seconds below it. */
  function SplitDuration(nanos: int): (d: Duration)
    ensures d.seconds < 60
    ensures d.minutes * NanosPerMinute + d.seconds * NanosPerSecond <= nanos
    ensures nanos < d.minutes * NanosPerMinute + (d.seconds + 1) * NanosPerSecond
  {
    Duration(nanos / NanosPerMinute, (nanos % NanosPerMinute) / NanosPerSecond)
  }

  /** On whole seconds, minutes and seconds recompose the duration. */
  lemma SplitWholeSeconds(total: int)
    ensures var d := SplitDuration(total * NanosPerSecond);
            d.minutes * 60 + d.seconds == total && d.seconds < 60
  {
    var d := SplitDuration(total * NanosPerSecond);
    var k := d.minutes * 60 + d.seconds;
    assert k * NanosPerSecond <= total * NanosPerSecond < (k + 1) * NanosPerSecond;
  }

  /** The decimal digits of `n`, without leading zeros, as Python's `str` writes them. */
  function NatToString(n: nat): (s: string)
    ensures |s| > 0
    ensures forall i :: 0 <= i < |s| ==> '0' <= s[i] <= '9'
    ensures n == 0 ==> s == "0"
    ensures n > 0 ==> s[0] != '0'
    ensures |s| == 1 || s[0] != '0'
    decreases n
  {
    if n < 10 then [('0' as int + n) as char]
    else NatToString(n / 10) + [('0' as int + n % 10) as char]
  }

  /** The number a string of decimal digits denotes. */
  function DigitsValue(s: string): nat
    requires forall i :: 0 <= i < |s| ==> '0' <= s[i] <= '9'
    decreases |s|
  {
    if s == [] then 0 else 10 * DigitsValue(s[..|s| - 1]) + (s[|s| - 1] as int - '0' as int)
  }

  /** Reading the digits back gives the number. */
  lemma {:induction false} NatToStringValue(n: nat)
    ensures DigitsValue(NatToString(n)) == n
    decreases n
  {
    if n >= 10 {
      NatToStringValue(n / 10);
      var s := NatToString(n);
      assert s[..|s| - 1] == NatToString(n / 10);
    }
  }

  /** Python's `str` of an int. */
  function IntToString(n: int): string {
    if n < 0 then "-" + NatToString(-n) else NatToString(n)
  }

  /** `f"{minutes}m{seconds}s"`. */
  function FormatDuration(d: Duration): string {
    IntToString(d.minutes) + "m" + NatToString(d.seconds) + "s"
  }

  /** `calculate_run_duration` once event times are integer nanoseconds. */
  function CalculateRunDuration(events: seq<Event>): (r: string)
    ensures |events| < 2 ==> r == "0m0s"
  {
    if |events| < 2 then "0m0s"
    else FormatDuration(SplitDuration(events[|events| - 1].eventTime - events[0].eventTime))
  }

  /** The default for short histories is the format of a zero duration. */
  lemma ShortHistoryIsZeroDuration(events: seq<Event>)
    requires |events| < 2
    ensures CalculateRunDuration(events) == FormatDuration(SplitDuration(0))
  {
    assert NatToString(0) == "0";
  }

  /** Two events 125 seconds apart last two minutes and five seconds. */
  lemma RunDurationExample(first: Event, last: Event)
    requires last.eventTime - first.eventTime == 125 * NanosPerSecond
    ensures CalculateRunDuration([first, last]) == "2m5s"
  {
    assert SplitDuration(125 * NanosPerSecond) == Duration(2, 5);
    assert NatToString(2) == "2" && NatToString(5) == "5";
  }
}
