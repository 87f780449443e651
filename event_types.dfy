/** Event-type vocabulary: the billable event types in both spellings, the
    table that rewrites the legacy `EVENT_TYPE_*` spellings to the camel-case
    ones, and the closed set of labels the classifier emits. */
module EventTypes {
  import opened Wrappers

  /** The event types the billing policy charges for, as the source lists them:
      the camel-case names and the older server's `EVENT_TYPE_*` names. */
  const BillableEventTypes: set<string> := {
    "WorkflowExecutionStarted",
    "WorkflowExecutionContinuedAsNew",
    "ActivityTaskScheduled",
    "TimerStarted",
    "WorkflowExecutionSignaled",
    "ExternalWorkflowExecutionSignaled",
    "UpsertWorkflowSearchAttributes",
    "ChildWorkflowExecutionStarted",
    "WorkflowExecutionUpdateAccepted",
    "MarkerRecorded",
    "EVENT_TYPE_WORKFLOW_EXECUTION_STARTED",
    "EVENT_TYPE_WORKFLOW_EXECUTION_CONTINUED_AS_NEW",
    "EVENT_TYPE_ACTIVITY_TASK_SCHEDULED",
    "EVENT_TYPE_TIMER_STARTED",
    "EVENT_TYPE_WORKFLOW_EXECUTION_SIGNALED",
    "EVENT_TYPE_EXTERNAL_WORKFLOW_EXECUTION_SIGNALED",
    "EVENT_TYPE_UPSERT_WORKFLOW_SEARCH_ATTRIBUTES",
    "EVENT_TYPE_CHILD_WORKFLOW_EXECUTION_STARTED",
    "EVENT_TYPE_WORKFLOW_EXECUTION_UPDATE_ACCEPTED",
    "EVENT_TYPE_MARKER_RECORDED"
  }

  /** Legacy spelling to camel-case spelling. */
  const EventTypeMapping: map<string, string> := map[
    "EVENT_TYPE_WORKFLOW_EXECUTION_STARTED" := "WorkflowExecutionStarted",
    "EVENT_TYPE_WORKFLOW_EXECUTION_CONTINUED_AS_NEW" := "WorkflowExecutionContinuedAsNew",
    "EVENT_TYPE_ACTIVITY_TASK_SCHEDULED" := "ActivityTaskScheduled",
    "EVENT_TYPE_TIMER_STARTED" := "TimerStarted",
    "EVENT_TYPE_WORKFLOW_EXECUTION_SIGNALED" := "WorkflowExecutionSignaled",
    "EVENT_TYPE_EXTERNAL_WORKFLOW_EXECUTION_SIGNALED" := "ExternalWorkflowExecutionSignaled",
    "EVENT_TYPE_UPSERT_WORKFLOW_SEARCH_ATTRIBUTES" := "UpsertWorkflowSearchAttributes",
    "EVENT_TYPE_CHILD_WORKFLOW_EXECUTION_STARTED" := "ChildWorkflowExecutionStarted",
    "EVENT_TYPE_WORKFLOW_EXECUTION_UPDATE_ACCEPTED" := "WorkflowExecutionUpdateAccepted",
    "EVENT_TYPE_MARKER_RECORDED" := "MarkerRecorded",
    "EVENT_TYPE_WORKFLOW_TASK_COMPLETED" := "WorkflowTaskCompleted"
  ]

  /** The camel-case names the table produces. */
  const CanonicalTypes: set<string> := {
    "WorkflowExecutionStarted",
    "WorkflowExecutionContinuedAsNew",
    "ActivityTaskScheduled",
    "TimerStarted",
    "WorkflowExecutionSignaled",
    "ExternalWorkflowExecutionSignaled",
    "UpsertWorkflowSearchAttributes",
    "ChildWorkflowExecutionStarted",
    "WorkflowExecutionUpdateAccepted",
    "MarkerRecorded",
    "WorkflowTaskCompleted"
  }

  /** `normalize_event_type`: a legacy spelling becomes its camel-case name,
      every other string is returned as it is. `NormalizeResult`,
      `NormalizeIdempotent` and `NormalizeCanonical` state its properties. */
  function Normalize(eventType: string): string
  {
    if eventType in EventTypeMapping then EventTypeMapping[eventType] else eventType
  }

  /** A legacy spelling becomes a camel-case name, every other string is left
      as it is, and no result is itself a legacy spelling. */
  lemma NormalizeResult(eventType: string)
    ensures eventType in EventTypeMapping ==> Normalize(eventType) in CanonicalTypes
    ensures eventType !in EventTypeMapping ==> Normalize(eventType) == eventType
    ensures Normalize(eventType) !in EventTypeMapping
  {
  }

  /** Normalizing twice is normalizing once. */
  lemma NormalizeIdempotent(eventType: string)
    ensures Normalize(Normalize(eventType)) == Normalize(eventType)
  {
  }

  /** A camel-case name is already canonical. */
  lemma NormalizeCanonical(eventType: string)
    requires eventType in CanonicalTypes
    ensures Normalize(eventType) == eventType
  {
  }

  /** The labels a billable action can carry: one per billable event type, the
      deferred `LocalActivity` charge, and the `ActivityTaskScheduled_retry`
      charge for an activity retry. */
  datatype Label =
    | WorkflowExecutionStarted
    | WorkflowExecutionContinuedAsNew
    | ActivityTaskScheduled
    | TimerStarted
    | WorkflowExecutionSignaled
    | ExternalWorkflowExecutionSignaled
    | UpsertWorkflowSearchAttributes
    | ChildWorkflowExecutionStarted
    | WorkflowExecutionUpdateAccepted
    | MarkerRecorded
    | LocalActivity
    | ActivityTaskScheduledRetry
  {
    /** True of the labels that are named after a billable event type. */
    predicate IsEventLabel() {
      !LocalActivity? && !ActivityTaskScheduledRetry?
    }
  }

  /** The string the source appends for a label. */
  function Name(l: Label): string {
    match l
    case WorkflowExecutionStarted => "WorkflowExecutionStarted"
    case WorkflowExecutionContinuedAsNew => "WorkflowExecutionContinuedAsNew"
    case ActivityTaskScheduled => "ActivityTaskScheduled"
    case TimerStarted => "TimerStarted"
    case WorkflowExecutionSignaled => "WorkflowExecutionSignaled"
    case ExternalWorkflowExecutionSignaled => "ExternalWorkflowExecutionSignaled"
    case UpsertWorkflowSearchAttributes => "UpsertWorkflowSearchAttributes"
    case ChildWorkflowExecutionStarted => "ChildWorkflowExecutionStarted"
    case WorkflowExecutionUpdateAccepted => "WorkflowExecutionUpdateAccepted"
    case MarkerRecorded => "MarkerRecorded"
    case LocalActivity => "LocalActivity"
    case ActivityTaskScheduledRetry => "ActivityTaskScheduled_retry"
  }

  /** The label of a camel-case billable event type, if `eventType` is one. */
  function BillableLabel(eventType: string): (r: Option<Label>)
    ensures r.Some? ==> r.value.IsEventLabel() && Name(r.value) == eventType
  {
    if eventType == "WorkflowExecutionStarted" then Some(WorkflowExecutionStarted)
    else if eventType == "WorkflowExecutionContinuedAsNew" then Some(WorkflowExecutionContinuedAsNew)
    else if eventType == "ActivityTaskScheduled" then Some(ActivityTaskScheduled)
    else if eventType == "TimerStarted" then Some(TimerStarted)
    else if eventType == "WorkflowExecutionSignaled" then Some(WorkflowExecutionSignaled)
    else if eventType == "ExternalWorkflowExecutionSignaled" then Some(ExternalWorkflowExecutionSignaled)
    else if eventType == "UpsertWorkflowSearchAttributes" then Some(UpsertWorkflowSearchAttributes)
    else if eventType == "ChildWorkflowExecutionStarted" then Some(ChildWorkflowExecutionStarted)
    else if eventType == "WorkflowExecutionUpdateAccepted" then Some(WorkflowExecutionUpdateAccepted)
    else if eventType == "MarkerRecorded" then Some(MarkerRecorded)
    else None
  }

  /** Round trip: the label of an event label's name is that label. */
  lemma BillableLabelOfName(l: Label)
    requires l.IsEventLabel()
    ensures BillableLabel(Name(l)) == Some(l)
  {
  }

  /** Distinct labels have distinct names. */
  lemma NameInjective(a: Label, b: Label)
    requires Name(a) == Name(b)
    ensures a == b
  {
    if a.IsEventLabel() && b.IsEventLabel() {
      BillableLabelOfName(a);
      BillableLabelOfName(b);
    } else if a == LocalActivity || b == LocalActivity {
      assert BillableLabel("LocalActivity") == None;
    } else {
      assert BillableLabel("ActivityTaskScheduled_retry") == None;
    }
  }

  /** The two event types the rule engine tests besides the billable ones are
      not the name of any label. */
  lemma NamesAreNotRuleTypes(l: Label)
    ensures Name(l) != "WorkflowTaskCompleted"
    ensures Name(l) != "EVENT_TYPE_ACTIVITY_TASK_STARTED"
  {
  }

  /** On a normalized type, the source's membership test in the billable table
      and the model's label lookup agree. */
  lemma BillableTest(eventType: string)
    ensures Normalize(eventType) in BillableEventTypes <==> BillableLabel(Normalize(eventType)).Some?
  {
  }

  /** The raw retry trigger is not rewritten by normalization and is not billable. */
  lemma ActivityTaskStartedIsRaw(eventType: string)
    ensures Normalize(eventType) == "EVENT_TYPE_ACTIVITY_TASK_STARTED" <==> eventType == "EVENT_TYPE_ACTIVITY_TASK_STARTED"
    ensures BillableLabel("EVENT_TYPE_ACTIVITY_TASK_STARTED") == None
  {
  }
}
