/** The two pattern detectors the classifier queries, and the attempt-based
    retry count it reads. None of them changes anything. */
module Detectors {
  import opened Wrappers
  import opened History
  import opened EventTypes

  /** The marker names that local activities record. */
  const LocalActivityMarkerNames: set<Option<string>> := {Some("core_local_activity"), Some("LocalActivity")}

  /** The `markerName` of the event's marker attributes; a missing attributes
      object reads as an empty one. */
  function MarkerName(e: Event): (r: Option<string>)
    ensures r.Some? ==> MarkerRecordedAttributes in e.attributes && r == e.attributes[MarkerRecordedAttributes].markerName
    ensures MarkerRecordedAttributes !in e.attributes ==> r == None
  {
    if MarkerRecordedAttributes in e.attributes then e.attributes[MarkerRecordedAttributes].markerName else None
  }

  /** `is_local_activity_marker`. */
  predicate IsLocalActivityMarker(e: Event)
    ensures IsLocalActivityMarker(e) ==> BillableLabel(Normalize(e.eventType)) == Some(MarkerRecorded)
    ensures IsLocalActivityMarker(e) ==> MarkerRecordedAttributes in e.attributes
  {
    Normalize(e.eventType) == "MarkerRecorded" && MarkerName(e) in LocalActivityMarkerNames
  }

  /** A marker without marker attributes, or whose attributes lack a
      `markerName`, is not a local-activity marker (and is not an error). */
  lemma MarkerWithoutNameIsNotLocalActivity(e: Event)
    requires MarkerRecordedAttributes !in e.attributes || e.attributes[MarkerRecordedAttributes].markerName.None?
    ensures !IsLocalActivityMarker(e)
  {
  }

  /** Both directions: a local-activity marker is a `MarkerRecorded` event
      whose marker attributes are present and name one of the two marker names. */
  lemma LocalActivityMarkerIff(e: Event)
    ensures IsLocalActivityMarker(e)
        <==> Normalize(e.eventType) == "MarkerRecorded"
             && MarkerRecordedAttributes in e.attributes
             && e.attributes[MarkerRecordedAttributes].markerName in {Some("core_local_activity"), Some("LocalActivity")}
  {
  }

  /** `is_signal_with_start`: a purely positional test of the first two events
      of a history of at least three. */
  predicate IsSignalWithStart(events: seq<Event>)
  {
    |events| >= 3
    && Normalize(events[0].eventType) == "WorkflowExecutionStarted"
    && Normalize(events[1].eventType) == "WorkflowExecutionSignaled"
  }

  /** Histories shorter than three events never use the pattern. */
  lemma ShortHistoryIsNotSignalWithStart(events: seq<Event>)
    requires |events| < 3
    ensures !IsSignalWithStart(events)
  {
  }

  /** Only the types of the first two events decide the pattern: any event
      after them, and the third event's type, are irrelevant. */
  lemma {:induction false} SignalWithStartIsPositional(a: seq<Event>, b: seq<Event>)
    requires |a| >= 3 && |b| >= 3
    requires Normalize(a[0].eventType) == Normalize(b[0].eventType)
    requires Normalize(a[1].eventType) == Normalize(b[1].eventType)
    ensures IsSignalWithStart(a) <==> IsSignalWithStart(b)
  {
  }

  /** The attribute fields `get_retry_count` looks in, in order. */
  const RetryFields: seq<string> := [
    ActivityTaskStartedAttributes,
    ActivityTaskScheduledAttributes,
    WorkflowExecutionStartedAttributes,
    WorkflowTaskStartedAttributes,
    TimerStartedAttributes
  ]

  /** `max(0, attempt - 1)` with `attempt` defaulting to 1. */
  function RetriesOf(a: Attributes): (r: nat)
    ensures r == 0 <==> a.attempt.GetOr(1) <= 1
    ensures r > 0 ==> r == a.attempt.GetOr(1) - 1
  {
    var attempt := a.attempt.GetOr(1);
    if attempt - 1 > 0 then attempt - 1 else 0
  }

  /** The loop of `get_retry_count` over `fields`: the first field present
      decides, and no field present gives 0. */
  function RetryCountIn(fields: seq<string>, attrs: map<string, Attributes>): (r: nat)
    ensures (forall j :: 0 <= j < |fields| ==> fields[j] !in attrs) ==> r == 0
    ensures r > 0 ==> exists j :: 0 <= j < |fields| && fields[j] in attrs && r == RetriesOf(attrs[fields[j]])
    decreases |fields|
  {
    if fields == [] then 0
    else if fields[0] in attrs then RetriesOf(attrs[fields[0]])
    else RetryCountIn(fields[1..], attrs)
  }

  /** `get_retry_count`. */
  function RetryCount(e: Event): (r: nat)
    ensures (forall j :: 0 <= j < |RetryFields| ==> RetryFields[j] !in e.attributes) ==> r == 0
  {
    RetryCountIn(RetryFields, e.attributes)
  }

  /** The retry count is read from the first present field of the list, in
      list order, and is 0 when none is present. */
  lemma {:induction false} RetryCountInFirstMatch(fields: seq<string>, attrs: map<string, Attributes>)
    ensures match FirstPresent(fields, attrs)
            case None => RetryCountIn(fields, attrs) == 0
            case Some(i) => RetryCountIn(fields, attrs) == RetriesOf(attrs[fields[i]])
  {
    if fields != [] && fields[0] !in attrs {
      RetryCountInFirstMatch(fields[1..], attrs);
    }
  }

  /** `get_retry_count` of an event, by the first match over its fields. */
  lemma RetryCountFirstMatch(e: Event)
    ensures match FirstPresent(RetryFields, e.attributes)
            case None => RetryCount(e) == 0
            case Some(i) => RetryCount(e) == RetriesOf(e.attributes[RetryFields[i]])
  {
    RetryCountInFirstMatch(RetryFields, e.attributes);
  }
}
