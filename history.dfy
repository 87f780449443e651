/** The records a Temporal workflow-history document is made of, reduced to the
    parts that the billing classifier and the size and duration metrics read. */
module History {
  import opened Wrappers

  /** A JSON value. Payload sizes are the only thing that looks inside one, and
      they do so through a serialiser passed in as a parameter. */
  datatype Json =
    | JNull
    | JBool(b: bool)
    | JNumber(n: int)
    | JString(s: string)
    | JArray(items: seq<Json>)
    | JObject(fields: map<string, Json>)

  /** The `failure` object of a failed event; its `encodedAttributes` may be absent. */
  datatype FailureInfo = FailureInfo(encodedAttributes: Option<Json>)

  /** One `*EventAttributes` object, by the keys the core reads from it. A key that
      is missing is `None`. Only the payloads (`input`, `result` and a failure's
      `encodedAttributes`) can hold JSON `null`, as `Some(JNull)`: a payload that
      is missing and one that is `null` both add nothing to the payload size, in
      the source and in the model. */
  datatype Attributes = Attributes(
    markerName: Option<string>,
    attempt: Option<int>,
    input: Option<Json>,
    result: Option<Json>,
    failure: Option<FailureInfo>)

  /** One history event: its raw `eventType` string, its `eventTime` already
      reduced to integer nanoseconds since the epoch, and the attribute objects
      it carries, keyed by their JSON field name. */
  datatype Event = Event(eventType: string, eventTime: int, attributes: map<string, Attributes>)

  /** The decoded history document: a JSON object (which may lack the `events`
      key), a bare JSON array of events, or any other JSON value. */
  datatype Document =
    | ObjectDoc(events: Option<seq<Event>>)
    | ArrayDoc(items: seq<Event>)
    | OtherDoc

  /** The exceptions the core raises on malformed input. */
  datatype Error =
    | UnsupportedFileFormat   // ValueError("Unsupported file format")
    | MissingEventsKey        // KeyError on data["events"]
    | MissingFailure          // AttributeError: a failed event without a `failure` object

  // Attribute field names read by the core.
  const MarkerRecordedAttributes: string := "markerRecordedEventAttributes"
  const ActivityTaskStartedAttributes: string := "activityTaskStartedEventAttributes"
  const ActivityTaskScheduledAttributes: string := "activityTaskScheduledEventAttributes"
  const WorkflowExecutionStartedAttributes: string := "workflowExecutionStartedEventAttributes"
  const WorkflowTaskStartedAttributes: string := "workflowTaskStartedEventAttributes"
  const TimerStartedAttributes: string := "timerStartedEventAttributes"
  const StartChildWorkflowInitiatedAttributes: string := "startChildWorkflowExecutionInitiatedEventAttributes"
  const WorkflowExecutionSignaledAttributes: string := "workflowExecutionSignaledEventAttributes"
  const ChildWorkflowCompletedAttributes: string := "childWorkflowExecutionCompletedEventAttributes"
  const ActivityTaskCompletedAttributes: string := "activityTaskCompletedEventAttributes"
  const WorkflowExecutionCompletedAttributes: string := "workflowExecutionCompletedEventAttributes"
  const ActivityTaskFailedAttributes: string := "activityTaskFailedEventAttributes"
  const WorkflowExecutionFailedAttributes: string := "workflowExecutionFailedEventAttributes"

  /** The index of the first name in `fields` that is a key of `attrs`, if any:
      the first-match search the source writes as an `if`/`elif` chain or as a
      `for` loop with an early `return`. */
  function FirstPresent(fields: seq<string>, attrs: map<string, Attributes>): (r: Option<nat>)
    ensures r.Some? ==> r.value < |fields| && fields[r.value] in attrs
    ensures r.Some? ==> forall j :: 0 <= j < r.value ==> fields[j] !in attrs
    ensures r.None? ==> forall j :: 0 <= j < |fields| ==> fields[j] !in attrs
  {
    if fields == [] then None
    else if fields[0] in attrs then Some(0)
    else
      match FirstPresent(fields[1..], attrs)
      case None => None
      case Some(i) => Some(i + 1)
  }

  /** The head and tail of a concatenation whose left part is non-empty. */
  lemma ConcatFirst<T>(a: seq<T>, b: seq<T>)
    ensures a == [] ==> a + b == b
    ensures a != [] ==> (a + b)[0] == a[0] && (a + b)[1..] == a[1..] + b
  {
  }

  /** Dropping one more element of a sequence. */
  lemma DropFirst<T>(s: seq<T>, i: nat)
    requires i < |s|
    ensures s[i..] != [] && s[i..][0] == s[i] && s[i..][1..] == s[i + 1..]
  {
  }

  /** Splits `s` around position `k`. */
  lemma SplitAt<T>(s: seq<T>, k: nat)
    requires k < |s|
    ensures s == s[..k] + ([s[k]] + s[k + 1..])
    ensures ([s[k]] + s[k + 1..])[0] == s[k]
    ensures ([s[k]] + s[k + 1..])[1..] == s[k + 1..]
  {
  }
}
