/** The billing classifier: the per-event rule engine `process_event` and the
    single forward pass `parse_workflow_history` that drives it. */
module Classifier {
  import opened Wrappers
  import opened History
  import opened EventTypes
  import opened Detectors

  /** The state threaded through the pass: the billable actions emitted so far,
      the local-activity-pending flag and the local-activity marker counter. */
  datatype ClassifierState = ClassifierState(actions: seq<Label>, pending: bool, localActivityCount: nat)

  /** `n` copies of `l`. */
  function Repeat(l: Label, n: nat): (r: seq<Label>)
    ensures |r| == n
    ensures forall i :: 0 <= i < n ==> r[i] == l
  {
    if n == 0 then [] else Repeat(l, n - 1) + [l]
  }

  /** What `process_event` does to the state for event `e`, rules in their
      fixed precedence. The camel-case billable test is by label lookup;
      `BillableTest` shows it agrees with the source's table lookup. */
  function Step(s: ClassifierState, e: Event, includeRetries: bool): (r: ClassifierState)
    ensures |s.actions| <= |r.actions| && r.actions[..|s.actions|] == s.actions
    ensures s.localActivityCount <= r.localActivityCount <= s.localActivityCount + 1
  {
    var eventType := Normalize(e.eventType);
    if eventType == "WorkflowTaskCompleted" && s.pending then
      s.(actions := s.actions + [LocalActivity], pending := false)
    else
      match BillableLabel(eventType)
      case Some(l) =>
        if l == ChildWorkflowExecutionStarted then s.(actions := s.actions + [l, l])
        else if l == MarkerRecorded then
          if IsLocalActivityMarker(e) then s.(pending := true, localActivityCount := s.localActivityCount + 1)
          else s
        else s.(actions := s.actions + [l])
      case None =>
        if includeRetries && eventType == "EVENT_TYPE_ACTIVITY_TASK_STARTED" then
          s.(actions := s.actions + Repeat(ActivityTaskScheduledRetry, RetryCount(e)))
        else s
  }

  /** `process_event`: appends to the caller's action list and returns the new
      flag and counter. */
  method ProcessEvent(e: Event, hasLocalActivity: bool, localActivityCount: nat, billableActions: seq<Label>,
                      includeRetries: bool)
    returns (hasLocalActivity': bool, localActivityCount': nat, billableActions': seq<Label>)
    ensures ClassifierState(billableActions', hasLocalActivity', localActivityCount')
         == Step(ClassifierState(billableActions, hasLocalActivity, localActivityCount), e, includeRetries)
  {
    hasLocalActivity', localActivityCount', billableActions' := hasLocalActivity, localActivityCount, billableActions;
    var eventType := Normalize(e.eventType);
    BillableTest(e.eventType);
    if eventType == "WorkflowTaskCompleted" && hasLocalActivity {
      billableActions' := billableActions' + [LocalActivity];
      hasLocalActivity' := false;
    } else if eventType in BillableEventTypes {
      var l := BillableLabel(eventType).value;
      if l == ChildWorkflowExecutionStarted {
        billableActions' := billableActions' + [l];
        billableActions' := billableActions' + [l];
      } else if l == MarkerRecorded {
        if IsLocalActivityMarker(e) {
          hasLocalActivity' := true;
          localActivityCount' := localActivityCount' + 1;
        }
      } else {
        billableActions' := billableActions' + [l];
      }
    } else if includeRetries && eventType == "EVENT_TYPE_ACTIVITY_TASK_STARTED" {
      var retryCount := RetryCount(e);
      var k := 0;
      while k < retryCount
        invariant 0 <= k <= retryCount
        invariant billableActions' == billableActions + Repeat(ActivityTaskScheduledRetry, k)
      {
        billableActions' := billableActions' + [ActivityTaskScheduledRetry];
        k := k + 1;
      }
    }
  }

  /** The loop's state: the classifier state and the one-shot flag marking that
      the merged signal-with-start action has been emitted. */
  datatype LoopState = LoopState(cls: ClassifierState, signalWithStartProcessed: bool)

  const Initial: LoopState := LoopState(ClassifierState([], false, 0), false)

  /** One iteration of the loop of `parse_workflow_history`. Once the merged
      start action is out, every later signaled event is dropped. */
  function LoopStep(ls: LoopState, e: Event, signalWithStart: bool, includeRetries: bool): (r: LoopState)
    ensures |ls.cls.actions| <= |r.cls.actions| && r.cls.actions[..|ls.cls.actions|] == ls.cls.actions
    ensures ls.cls.localActivityCount <= r.cls.localActivityCount
    ensures ls.signalWithStartProcessed ==> r.signalWithStartProcessed
  {
    var eventType := Normalize(e.eventType);
    if signalWithStart && eventType == "WorkflowExecutionStarted" && !ls.signalWithStartProcessed then
      LoopState(ls.cls.(actions := ls.cls.actions + [WorkflowExecutionStarted]), true)
    else if signalWithStart && eventType == "WorkflowExecutionSignaled" && ls.signalWithStartProcessed then
      ls
    else
      ls.(cls := Step(ls.cls, e, includeRetries))
  }

  /** The loop run over `events` from state `ls`. */
  function Run(ls: LoopState, events: seq<Event>, signalWithStart: bool, includeRetries: bool): (r: LoopState)
    decreases |events|
  {
    if events == [] then ls
    else Run(LoopStep(ls, events[0], signalWithStart, includeRetries), events[1..], signalWithStart, includeRetries)
  }

  /** The tail of `parse_workflow_history`: a local activity still pending
      after the last event is billed once. */
  function Finish(s: ClassifierState): ClassifierState {
    if s.pending then s.(actions := s.actions + [LocalActivity]) else s
  }

  /** The classifier's two results. */
  datatype Classification = Classification(actions: seq<Label>, localActivityCount: nat)

  /** The classification of a history, as a function of its events. */
  function Classify(events: seq<Event>, includeRetries: bool): Classification {
    var s := Finish(Run(Initial, events, IsSignalWithStart(events), includeRetries).cls);
    Classification(s.actions, s.localActivityCount)
  }

  /** The events of a decoded document: the `events` member of an object or
      the array itself. */
  function EventsOf(doc: Document): (r: Result<seq<Event>, Error>)
    ensures r.Err? <==> doc.OtherDoc? || doc == ObjectDoc(None)
    ensures doc.OtherDoc? ==> r == Err(UnsupportedFileFormat)
    ensures doc == ObjectDoc(None) ==> r == Err(MissingEventsKey)
    ensures doc.ArrayDoc? ==> r == Ok(doc.items)
    ensures doc.ObjectDoc? && doc.events.Some? ==> r == Ok(doc.events.value)
  {
    match doc
    case ObjectDoc(Some(events)) => Ok(events)
    case ObjectDoc(None) => Err(MissingEventsKey)
    case ArrayDoc(events) => Ok(events)
    case OtherDoc => Err(UnsupportedFileFormat)
  }

  /** The loop of `parse_workflow_history` over an event list, with the
      signal-with-start check before it and the pending-charge capture after it. */
  method ClassifyEvents(events: seq<Event>, includeRetries: bool)
    returns (billableActions: seq<Label>, localActivityCount: nat)
    ensures Classification(billableActions, localActivityCount) == Classify(events, includeRetries)
  {
    billableActions := [];
    var hasLocalActivity := false;
    localActivityCount := 0;

    var signalWithStart := IsSignalWithStart(events);
    var signalWithStartProcessed := false;

    var i := 0;
    while i < |events|
      invariant 0 <= i <= |events|
      invariant Run(LoopState(ClassifierState(billableActions, hasLocalActivity, localActivityCount), signalWithStartProcessed),
                    events[i..], signalWithStart, includeRetries)
             == Run(Initial, events, signalWithStart, includeRetries)
    {
      var event := events[i];
      ghost var before := LoopState(ClassifierState(billableActions, hasLocalActivity, localActivityCount), signalWithStartProcessed);
      var eventType := Normalize(event.eventType);
      if signalWithStart && eventType == "WorkflowExecutionStarted" && !signalWithStartProcessed {
        billableActions := billableActions + [WorkflowExecutionStarted];
        signalWithStartProcessed := true;
        assert LoopState(ClassifierState(billableActions, hasLocalActivity, localActivityCount), signalWithStartProcessed)
            == LoopStep(before, event, signalWithStart, includeRetries);
      } else if signalWithStart && eventType == "WorkflowExecutionSignaled" && signalWithStartProcessed {
        // absorbed by the merged start action
        assert before == LoopStep(before, event, signalWithStart, includeRetries);
      } else {
        hasLocalActivity, localActivityCount, billableActions :=
          ProcessEvent(event, hasLocalActivity, localActivityCount, billableActions, includeRetries);
        assert LoopState(ClassifierState(billableActions, hasLocalActivity, localActivityCount), signalWithStartProcessed)
            == LoopStep(before, event, signalWithStart, includeRetries);
      }
      DropFirst(events, i);
      i := i + 1;
    }
    ghost var last := ClassifierState(billableActions, hasLocalActivity, localActivityCount);
    assert last == Run(Initial, events, IsSignalWithStart(events), includeRetries).cls;

    if hasLocalActivity {
      billableActions := billableActions + [LocalActivity];
    }
    assert ClassifierState(billableActions, hasLocalActivity, localActivityCount) == Finish(last);
  }

  /** What `parse_workflow_history` returns. */
  datatype ParsedHistory = ParsedHistory(billableActions: seq<Label>, localActivityCount: nat, events: seq<Event>)

  /** `parse_workflow_history` after the document has been decoded: the shape
      check, then the classification of the events. */
  method ParseWorkflowHistory(doc: Document, includeRetries: bool) returns (r: Result<ParsedHistory, Error>)
    ensures r.Err? <==> EventsOf(doc).Err?
    ensures r.Err? ==> r.error == EventsOf(doc).error
    ensures r.Ok? ==> var c := Classify(EventsOf(doc).value, includeRetries);
                      r.value == ParsedHistory(c.actions, c.localActivityCount, EventsOf(doc).value)
  {
    var events: seq<Event>;
    match doc {
      case ObjectDoc(Some(es)) => events := es;
      case ObjectDoc(None) => return Err(MissingEventsKey);
      case ArrayDoc(es) => events := es;
      case OtherDoc => return Err(UnsupportedFileFormat);
    }
    var billableActions, localActivityCount := ClassifyEvents(events, includeRetries);
    r := Ok(ParsedHistory(billableActions, localActivityCount, events));
  }
}
