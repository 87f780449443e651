# Temporal history billable-action classifier, in Dafny

This project models the core of `temporal_history_action_count`. The tool
reads a Temporal workflow execution history and reports two things:

- how many of its events are billable actions;
- an estimate of the run's storage footprint and duration.

The model covers these parts:

- `normalize_event_type`, the table that maps the older `EVENT_TYPE_*`
  spellings of event types to their camel-case names. It also covers the
  set of billable event types.
- The two pattern detectors: local-activity marker and signal-with-start.
- `get_retry_count`, the retry count derived from an event's `attempt`.
- `process_event`, the rule engine applied to one event. Its rules, in
  precedence order:
  - A `WorkflowTaskCompleted` with a local activity pending bills that
    local activity.
  - A child-workflow start is billed twice.
  - A local-activity marker defers its charge.
  - Any other marker is free.
  - Any other billable type is billed once.
  - With retries on, a raw activity-task-started event bills one
    `ActivityTaskScheduled_retry` per attempt after the first.
- `parse_workflow_history` after the history has been loaded:
  - the dict/list shape check;
  - the single pass that carries the pending-local-activity flag, the
    local-activity counter and the one-shot signal-with-start flag;
  - the trailing charge for a local activity still pending at the end.
- `calculate_payload_size`, with JSON serialisation abstracted to a size
  function.
- `calculate_event_count_size`.
- The guard and the minutes/seconds split of `calculate_run_duration`.

The imperative parts stay imperative. `ProcessEvent` (with its retry loop),
`ClassifyEvents` and `CalculatePayloadSize` are `method`s with `while`
loops. Their postconditions tie the result to a specification function:
`Step`, `Classify` or `PayloadTotal`. `ParseWorkflowHistory` is a `method`
without a loop. It does the shape check, calls `ClassifyEvents` and is
specified through `EventsOf` and `Classify`. The billing
properties are proved as lemmas about those functions.

Files:

| file | module | contents |
|---|---|---|
| `wrappers.dfy` | `Wrappers` | `Option`, `Result` |
| `history.dfy` | `History` | JSON values, attribute records, events, documents, errors, attribute field names, first-match search, sequence helpers |
| `event_types.dfy` | `EventTypes` | billable type table, normalization, the closed set of action labels |
| `detectors.dfy` | `Detectors` | local-activity marker, signal-with-start, retry count |
| `classifier.dfy` | `Classifier` | per-event rules, the history loop, shape check |
| `classifier_properties.dfy` | `ClassifierProperties` | whole-history properties of the classifier |
| `metrics.dfy` | `Metrics` | payload size, event-count size, run duration |

The source's list of label strings becomes the closed datatype
`EventTypes.Label`. `EventTypes.Name` gives the string the source appends for
each label. `BillableTest` proves that the source's membership test in
`BILLABLE_EVENT_TYPES` and the label lookup agree on normalized types.

Signal-with-start is modelled exactly as the code behaves, even though the
pattern's intent suggests that only the second event is absorbed. Once the
merged start has been emitted, the code at `billable_actions.py:214-221`
skips every `WorkflowExecutionSignaled` event in the history, including a
later, unrelated signal. In the model:

- `ClassifierProperties.SignalWithStartMerged` proves that no
  `WorkflowExecutionSignaled` action appears at all in such a history.
- `ClassifierProperties.LaterSignalDropped` shows it on a concrete four-event
  history.

## Model

All source paths are `src/temporal_history_action_count/billable_actions.py`.

| member | source | states |
|---|---|---|
| EventTypes.Normalize | src/temporal_history_action_count/billable_actions.py:43-68 | `normalize_event_type` itself: a lookup in the 11-entry table with the input as the default; it has no `ensures` of its own, and `NormalizeResult`, `NormalizeIdempotent` and `NormalizeCanonical` state its behaviour |
| EventTypes.NormalizeResult | src/temporal_history_action_count/billable_actions.py:43-68 | a legacy spelling maps to one of the 11 camel-case names, any other string is returned unchanged, and no result is itself a legacy key |
| EventTypes.NormalizeIdempotent | src/temporal_history_action_count/billable_actions.py:43-68 | normalizing twice equals normalizing once |
| EventTypes.NormalizeCanonical | src/temporal_history_action_count/billable_actions.py:47-67 | every camel-case value of the table is a fixed point of normalization |
| EventTypes.BillableLabel | src/temporal_history_action_count/billable_actions.py:18-28 | a camel-case billable type has an event label whose appended name is exactly that type |
| EventTypes.BillableLabelOfName | src/temporal_history_action_count/billable_actions.py:18-28 | round trip: looking up an event label's name gives back that label |
| EventTypes.NameInjective | src/temporal_history_action_count/billable_actions.py:114-145 | distinct labels append distinct strings, including `LocalActivity` and `ActivityTaskScheduled_retry` |
| EventTypes.NamesAreNotRuleTypes | src/temporal_history_action_count/billable_actions.py:113-140 | no label's name is `WorkflowTaskCompleted` or `EVENT_TYPE_ACTIVITY_TASK_STARTED`, so the two non-billable rule triggers never add to a label's count |
| EventTypes.BillableTest | src/temporal_history_action_count/billable_actions.py:18-40 | on a normalized type, membership in the 20-entry billable set holds exactly when the type has a label |
| EventTypes.ActivityTaskStartedIsRaw | src/temporal_history_action_count/billable_actions.py:140 | the retry trigger is normalized to itself and from nothing else, and it is not billable |
| History.FirstPresent | src/temporal_history_action_count/billable_actions.py:91-101 | the index found is the first listed field present; none means no listed field is present |
| Detectors.MarkerName | src/temporal_history_action_count/billable_actions.py:75-79 | the `markerName` read through `event.get("markerRecordedEventAttributes", {})`: a name is only ever found in present marker attributes, and missing attributes read as no name |
| Detectors.IsLocalActivityMarker | src/temporal_history_action_count/billable_actions.py:71-82 | a local-activity marker is a billable `MarkerRecorded` event that has marker attributes |
| Detectors.LocalActivityMarkerIff | src/temporal_history_action_count/billable_actions.py:71-82 | both directions: marker type after normalization, marker attributes present, and `markerName` is `core_local_activity` or `LocalActivity` |
| Detectors.MarkerWithoutNameIsNotLocalActivity | src/temporal_history_action_count/billable_actions.py:75-82 | missing marker attributes or a missing `markerName` yields false, not an error |
| Detectors.IsSignalWithStart | src/temporal_history_action_count/billable_actions.py:152-168 | `is_signal_with_start` itself, a positional test of the first two normalized types; it has no `ensures` of its own, and `ShortHistoryIsNotSignalWithStart` and `SignalWithStartIsPositional` state its behaviour |
| Detectors.ShortHistoryIsNotSignalWithStart | src/temporal_history_action_count/billable_actions.py:158-159 | fewer than three events are never signal-with-start |
| Detectors.SignalWithStartIsPositional | src/temporal_history_action_count/billable_actions.py:161-168 | for histories of three or more events, only the normalized types of the first two events decide the pattern |
| Detectors.RetriesOf | src/temporal_history_action_count/billable_actions.py:99-100 | the count is `max(0, attempt - 1)`, with `attempt` defaulting to 1; it is 0 exactly when the attempt is at most 1 |
| Detectors.RetryCountIn | src/temporal_history_action_count/billable_actions.py:91-101 | the loop over the attribute names: 0 when no listed field is present, and a positive count is the retries of some present field (the first one, by `RetryCountInFirstMatch`) |
| Detectors.RetryCount | src/temporal_history_action_count/billable_actions.py:85-101 | `get_retry_count` itself: 0 when none of its five fields is present; `RetryCountFirstMatch` gives the exact first-match value |
| Detectors.RetryCountInFirstMatch | src/temporal_history_action_count/billable_actions.py:91-101 | the loop returns the retries of the first present field in list order, and 0 when none is present |
| Detectors.RetryCountFirstMatch | src/temporal_history_action_count/billable_actions.py:85-101 | `get_retry_count` of an event is decided by the first of its five listed attribute fields that is present |
| Classifier.Repeat | src/temporal_history_action_count/billable_actions.py:144-145 | `n` copies of one label, and nothing else |
| Classifier.Step | src/temporal_history_action_count/billable_actions.py:104-149 | one event only appends: existing actions are kept as a prefix, and the counter grows by at most one and never decreases |
| Classifier.ProcessEvent | src/temporal_history_action_count/billable_actions.py:104-149 | the imperative rule engine, with its in-list billable test and its retry loop, yields exactly the flag, counter and actions of `Step` |
| Classifier.LoopStep | src/temporal_history_action_count/billable_actions.py:201-225 | one loop iteration only appends, never lowers the counter, and never clears the one-shot flag once set |
| Classifier.EventsOf | src/temporal_history_action_count/billable_actions.py:180-187 | an object yields its `events`, an array yields itself, an object without `events` is a missing-key error, and any other value is an unsupported-format error |
| Classifier.ClassifyEvents | src/temporal_history_action_count/billable_actions.py:189-233 | the imperative loop, with its signal-with-start bypass and skip and its trailing local-activity charge, returns exactly `Classify` |
| Classifier.ParseWorkflowHistory | src/temporal_history_action_count/billable_actions.py:180-233 | it fails exactly when the shape check fails, with the same error; otherwise it returns the actions and counter of `Classify` on the extracted events, and those events |
| Classifier.Run | src/temporal_history_action_count/billable_actions.py:197-225 | the `for event in events` loop as a function of the loop state; it has no `ensures` of its own, `ClassifyEvents` is proved equal to it, and `RunGrows`, `RunLabelCount`, `RunCountsMarkers`, `RunRetryCount`, `RunKeepsBound` and `RunAppend` state its behaviour |
| Classifier.Finish | src/temporal_history_action_count/billable_actions.py:227-231 | the trailing charge after the loop; it has no `ensures` of its own, and `TrailingLocalActivity` and `NoTrailingChargeAfterCompletion` state its effect over a history |
| Classifier.Classify | src/temporal_history_action_count/billable_actions.py:189-233 | the billable actions and counter of a history; it has no `ensures` of its own, `ClassifyEvents` and `ParseWorkflowHistory` are proved against it, and the `ClassifierProperties` lemmas state its behaviour |
| ClassifierProperties.RepeatCount | src/temporal_history_action_count/billable_actions.py:144-145 | the retry expansion holds `n` copies of its label and no other label |
| ClassifierProperties.StepResolveLabelCount | src/temporal_history_action_count/billable_actions.py:113-115 | resolving a pending local activity leaves every event label's count unchanged |
| ClassifierProperties.BilledCount | src/temporal_history_action_count/billable_actions.py:119-137 | what a billable event appends holds its label weight-many times and no other label |
| ClassifierProperties.StepBilled | src/temporal_history_action_count/billable_actions.py:118-137 | a billable event, with no local activity to resolve, appends two copies of a child start, nothing for a marker and one copy of any other label |
| ClassifierProperties.StepBillableLabelCount | src/temporal_history_action_count/billable_actions.py:118-137 | a billable event raises its own label's count by its weight (2 for child starts, 0 for markers, 1 otherwise) and no other label's count |
| ClassifierProperties.StepUnbilledLabelCount | src/temporal_history_action_count/billable_actions.py:139-147 | a non-billable event, including a retry expansion, changes no event label's count |
| ClassifierProperties.TaskCompletedResolvesPending | src/temporal_history_action_count/billable_actions.py:113-115 | `WorkflowTaskCompleted` with the flag set appends exactly one `LocalActivity`, clears the flag and keeps the counter |
| ClassifierProperties.ChildStartBilledTwice | src/temporal_history_action_count/billable_actions.py:119-122 | a child-workflow start appends its label exactly twice and changes nothing else |
| ClassifierProperties.LocalActivityMarkerDeferred | src/temporal_history_action_count/billable_actions.py:125-129 | a local-activity marker appends nothing, sets the flag and increments the counter by one |
| ClassifierProperties.OtherMarkerFree | src/temporal_history_action_count/billable_actions.py:130-132 | any other marker leaves actions, flag and counter unchanged |
| ClassifierProperties.BillableTypeBilledOnce | src/temporal_history_action_count/billable_actions.py:133-135 | any other type in the billable set appends its normalized name exactly once and changes nothing else |
| ClassifierProperties.RetriesExpanded | src/temporal_history_action_count/billable_actions.py:140-145 | with retries on, a raw `EVENT_TYPE_ACTIVITY_TASK_STARTED` appends exactly `get_retry_count` copies of `ActivityTaskScheduled_retry`; with retries off it changes nothing |
| ClassifierProperties.UnbillableTypeFree | src/temporal_history_action_count/billable_actions.py:111-149 | an event matched by no rule changes nothing |
| ClassifierProperties.StepLabelCount | src/temporal_history_action_count/billable_actions.py:113-147 | per event, each event label's count rises by its weight exactly when the event normalizes to that label's name |
| ClassifierProperties.LoopStepLabelCount | src/temporal_history_action_count/billable_actions.py:201-225 | the same per-iteration count, through the signal-with-start bypass, for every label except `WorkflowExecutionSignaled` in a signal-with-start history |
| ClassifierProperties.RunLabelCount | src/temporal_history_action_count/billable_actions.py:197-225 | over any stretch of the loop, a label's count rises by its weight times the number of events of its type |
| ClassifierProperties.ClassifyLabelCount | src/temporal_history_action_count/billable_actions.py:189-233 | in the result, each event label other than `WorkflowExecutionSignaled` appears weight times the number of events of its type |
| ClassifierProperties.ChildWorkflowStartsDoubled | src/temporal_history_action_count/billable_actions.py:119-122 | `ChildWorkflowExecutionStarted` entries are exactly twice the number of such events |
| ClassifierProperties.MarkersNeverBilledAsMarkers | src/temporal_history_action_count/billable_actions.py:125-132 | no `MarkerRecorded` action is ever emitted |
| ClassifierProperties.WorkflowStartsBilledOnce | src/temporal_history_action_count/billable_actions.py:204-213 | `WorkflowExecutionStarted` entries equal the number of start events, whether or not the merged start fires |
| ClassifierProperties.LoopStepAfterMergedStart | src/temporal_history_action_count/billable_actions.py:214-225 | one iteration after the merged start keeps the one-shot flag set and adds no `WorkflowExecutionSignaled` action |
| ClassifierProperties.RunAfterMergedStart | src/temporal_history_action_count/billable_actions.py:214-221 | once the merged start has been emitted, the flag stays set and no further `WorkflowExecutionSignaled` action is added |
| ClassifierProperties.RunGrows | src/temporal_history_action_count/billable_actions.py:197-225 | the loop only appends, and the counter never decreases |
| ClassifierProperties.SignalWithStartMerged | src/temporal_history_action_count/billable_actions.py:194-221 | in a signal-with-start history the first action is `WorkflowExecutionStarted` and no `WorkflowExecutionSignaled` action appears at all |
| ClassifierProperties.SignaledBilledWithoutSignalWithStart | src/temporal_history_action_count/billable_actions.py:194-225 | without the pattern, every `WorkflowExecutionSignaled` event is billed once |
| ClassifierProperties.StepBillableKeepsBound | src/temporal_history_action_count/billable_actions.py:118-137 | a billable event keeps the bound "charged local activities plus pending flag ≤ counter" |
| ClassifierProperties.StepKeepsBound | src/temporal_history_action_count/billable_actions.py:104-149 | every event keeps that bound |
| ClassifierProperties.RunKeepsBound | src/temporal_history_action_count/billable_actions.py:197-225 | the loop keeps that bound |
| ClassifierProperties.LoopStepCountsMarker | src/temporal_history_action_count/billable_actions.py:125-129 | one iteration raises the counter by one exactly for a local-activity marker, the signal-with-start bypass included |
| ClassifierProperties.RunCountsMarkers | src/temporal_history_action_count/billable_actions.py:197-225 | over any stretch of the loop the counter rises by exactly the number of local-activity markers in it, billed or not |
| ClassifierProperties.LocalActivityCounterIsMarkers | src/temporal_history_action_count/billable_actions.py:189-233 | the returned counter is the number of local-activity marker events of the history |
| ClassifierProperties.LocalActivityAtMostMarkers | src/temporal_history_action_count/billable_actions.py:189-233 | `LocalActivity` entries never outnumber the local-activity markers of the history, nor the returned counter |
| ClassifierProperties.NoMarkersCounted | src/temporal_history_action_count/billable_actions.py:125-129 | a history with no local-activity marker counts none |
| ClassifierProperties.NoMarkersNoLocalActivity | src/temporal_history_action_count/billable_actions.py:113-129 | a history with no local-activity marker bills no `LocalActivity` at all |
| ClassifierProperties.RunAppend | src/temporal_history_action_count/billable_actions.py:197-225 | running the loop over two consecutive stretches is running it over their concatenation |
| ClassifierProperties.RunKeepsPending | src/temporal_history_action_count/billable_actions.py:197-225 | with no workflow-task completion in a stretch, a pending local activity stays pending through it |
| ClassifierProperties.LoopStepStaysClear | src/temporal_history_action_count/billable_actions.py:125-129 | only a local-activity marker sets the pending flag |
| ClassifierProperties.LoopStepCompletionClears | src/temporal_history_action_count/billable_actions.py:113-115 | a workflow-task completion always leaves the pending flag clear |
| ClassifierProperties.RunStaysClear | src/temporal_history_action_count/billable_actions.py:197-225 | with no local-activity marker in a stretch, a clear flag stays clear through it |
| ClassifierProperties.TrailingLocalActivity | src/temporal_history_action_count/billable_actions.py:227-231 | a local-activity marker with no later workflow-task completion makes the result the loop's actions followed by exactly one `LocalActivity` |
| ClassifierProperties.NoTrailingChargeAfterCompletion | src/temporal_history_action_count/billable_actions.py:227-231 | when a workflow-task completion has no local-activity marker after it, nothing is added after the loop |
| ClassifierProperties.StepBillableRetryCount | src/temporal_history_action_count/billable_actions.py:118-137 | a billable event adds no retry action |
| ClassifierProperties.StepRetryCount | src/temporal_history_action_count/billable_actions.py:139-147 | retry actions grow by `get_retry_count` on a raw activity-started event with retries on, and by nothing otherwise |
| ClassifierProperties.RunRetryCount | src/temporal_history_action_count/billable_actions.py:197-225 | over the loop, retry actions grow by the sum of the retry counts of the raw activity-started events when retries are on |
| ClassifierProperties.RetryActionsCounted | src/temporal_history_action_count/billable_actions.py:189-233 | `ActivityTaskScheduled_retry` entries total the retry counts of the raw activity-started events, or 0 with retries off |
| ClassifierProperties.StepKeepsPending | src/temporal_history_action_count/billable_actions.py:113-147 | while pending, an event other than `WorkflowTaskCompleted` keeps the flag and adds no `LocalActivity` |
| ClassifierProperties.LoopStepKeepsPending | src/temporal_history_action_count/billable_actions.py:201-225 | the same through the signal-with-start bypass |
| ClassifierProperties.LoopStepResolvesPending | src/temporal_history_action_count/billable_actions.py:201-225 | while pending, a `WorkflowTaskCompleted` appends exactly one `LocalActivity` and clears the flag |
| ClassifierProperties.PendingResolvedOnce | src/temporal_history_action_count/billable_actions.py:197-225 | any number of pending local-activity markers up to the next workflow-task completion are charged exactly one `LocalActivity` |
| ClassifierProperties.NormalizedHistory | src/temporal_history_action_count/billable_actions.py:201 | every event with its type rewritten through the normalization table, and nothing else changed |
| ClassifierProperties.LoopStepSpellingIndependent | src/temporal_history_action_count/billable_actions.py:201-225 | rewriting an event's type through the normalization table does not change an iteration; `EVENT_TYPE_ACTIVITY_TASK_STARTED` has no entry in the table and stays as it is |
| ClassifierProperties.RunSpellingIndependent | src/temporal_history_action_count/billable_actions.py:197-225 | the same for the whole loop, for a fixed signal-with-start flag |
| ClassifierProperties.ClassifySpellingIndependent | src/temporal_history_action_count/billable_actions.py:189-233 | rewriting every event type through the normalization table does not change the classification; this is not full spelling independence, because the unmapped retry trigger is kept (see the next row) |
| ClassifierProperties.RetryTriggerSpellingMatters | src/temporal_history_action_count/billable_actions.py:140-147 | with retries on, a raw `EVENT_TYPE_ACTIVITY_TASK_STARTED` at attempt 3 bills two retries, while the same event spelled `ActivityTaskStarted` bills nothing |
| ClassifierProperties.SignalWithStartScenario | src/temporal_history_action_count/billable_actions.py:194-233 | `[Started, Signaled, ActivityTaskScheduled, WorkflowExecutionCompleted]` bills exactly `[WorkflowExecutionStarted, ActivityTaskScheduled]` |
| ClassifierProperties.LaterSignalDropped | src/temporal_history_action_count/billable_actions.py:214-221 | `[Started, Signaled, TimerStarted, Signaled]` bills `[WorkflowExecutionStarted, TimerStarted]`: the later signal is skipped too |
| Metrics.EncodedFailure | src/temporal_history_action_count/billable_actions.py:292-303 | `.get("failure").get("encodedAttributes")`: an error when the failure object is missing, otherwise its encoded attributes, possibly absent; it has no `ensures` of its own and `PayloadOfFirstMatch` uses it |
| Metrics.PayloadOf | src/temporal_history_action_count/billable_actions.py:265-303 | the `if`/`elif` selection of one event; it has no `ensures` of its own, and `PayloadOfFirstMatch` characterises it as a first-match search over the nine fields |
| Metrics.EventPayloadSize | src/temporal_history_action_count/billable_actions.py:305-309 | one event's contribution, 0 for an absent value or JSON `null`; it has no `ensures` of its own, and `NoPayloadFieldContributesNothing` and `PayloadTotalBoundsEach` describe it |
| Metrics.PayloadTotal | src/temporal_history_action_count/billable_actions.py:258-315 | the payload total of a history, failing at the first failing event; it has no `ensures` of its own, `CalculatePayloadSize` is proved equal to it, and `PayloadTotalOk`, `PayloadTotalAppend` and `PayloadTotalBoundsEach` state its behaviour |
| Metrics.PayloadOfFirstMatch | src/temporal_history_action_count/billable_actions.py:265-303 | the `if`/`elif` chain reads `input`, `result` or `failure.encodedAttributes` from the first payload field present, in source order, and nothing when none is |
| Metrics.NoPayloadFieldContributesNothing | src/temporal_history_action_count/billable_actions.py:305-309 | an event with no recognised attribute field contributes 0 |
| Metrics.CalculatePayloadSize | src/temporal_history_action_count/billable_actions.py:258-315 | the loop returns the total of `PayloadTotal`; it fails, as `.get("failure").get(...)` does, on a failed event without a `failure` object |
| Metrics.PayloadTotalOk | src/temporal_history_action_count/billable_actions.py:292-303 | the total fails exactly when some event's selection fails |
| Metrics.PayloadTotalAppend | src/temporal_history_action_count/billable_actions.py:259-315 | the total over a concatenation of histories is the sum of their totals |
| Metrics.PayloadTotalBoundsEach | src/temporal_history_action_count/billable_actions.py:305-309 | no event contributes more than the total |
| Metrics.EventCountSize | src/temporal_history_action_count/billable_actions.py:318-322 | the size is a multiple of 78 whose quotient is the number of events |
| Metrics.EventCountSizeAppend | src/temporal_history_action_count/billable_actions.py:318-322 | the estimate is additive over histories |
| Metrics.SplitDuration | src/temporal_history_action_count/billable_actions.py:345-349 | seconds are below 60, and minutes and seconds bound the duration from below to within one second |
| Metrics.SplitWholeSeconds | src/temporal_history_action_count/billable_actions.py:345-349 | for a whole-second duration d, `minutes * 60 + seconds == d` with `seconds < 60` |
| Metrics.NatToString | src/temporal_history_action_count/billable_actions.py:350 | a non-empty string of decimal digits with no leading zero, `"0"` for zero |
| Metrics.NatToStringValue | src/temporal_history_action_count/billable_actions.py:350 | round trip: the digits read back as the number |
| Metrics.IntToString | src/temporal_history_action_count/billable_actions.py:350 | Python's `str` of an int: a minus sign before the digits of a negative number; it has no `ensures` of its own, and the digits are described by `NatToString` and `NatToStringValue` |
| Metrics.FormatDuration | src/temporal_history_action_count/billable_actions.py:350 | `f"{minutes}m{seconds}s"`; it has no `ensures` of its own, and `ShortHistoryIsZeroDuration` and `RunDurationExample` pin down its output |
| Metrics.CalculateRunDuration | src/temporal_history_action_count/billable_actions.py:336-338 | fewer than two events give `"0m0s"` |
| Metrics.ShortHistoryIsZeroDuration | src/temporal_history_action_count/billable_actions.py:336-338 | that default is the format of a zero duration |
| Metrics.RunDurationExample | src/temporal_history_action_count/billable_actions.py:336-350 | two events 125 seconds apart give `"2m5s"` |

## Left out

- File opening and `json.load` (`billable_actions.py:176-177`) are I/O. The
  model starts from an already-parsed `History.Document`, and its `events`
  are already `History.Event` records.
- Debug tracing (`debug` and every `print` in the classifier) has no effect
  on the returned values, with one exception the model does not capture. With
  `debug` on, `billable_actions.py:199` reads `event['eventId']`, so an event
  without an `eventId` raises `KeyError` where a run without debug returns.
  The model has no `eventId` field and drops the `debug` parameter.
- `display_billable_summary` (`billable_actions.py:236-255`) and `main`
  (`billable_actions.py:353-384`) only print, sort for display and handle
  `sys.argv` and `sys.exit`.
- `parse_event_time` (`billable_actions.py:325-333`): float seconds and ISO
  timestamp parsing. An event's time is an integer number of nanoseconds in
  the model.
- Metrics.CalculateRunDuration: does not model float rounding of the
  duration. The split uses exact integer nanoseconds. Python's floor `//`
  and `%` by the positive 60 agree with Dafny's Euclidean operators, so only
  the float error is lost.
- Metrics.CalculatePayloadSize: `json.dumps` and UTF-8 encoding are a
  foreign serialiser. They become a `size` function parameter from JSON
  values to natural numbers.
- The unused `event_count` counter in `calculate_payload_size` has no effect
  on the result.
- `warnings.filterwarnings` (`billable_actions.py:13-15`) is module
  environment setup.
- Missing required keys: the model covers only the `events` key of an
  object document (`History.Error.MissingEventsKey`). The record types rule
  out a missing `eventType` or `eventTime`.
- Input types the model does not represent, each of which makes the source
  raise or behave on a value the model cannot hold:
  - a non-integer `attempt`, including a `null` one: `.get("attempt", 1)` at
    `billable_actions.py:99` returns `None`, and `None - 1` raises
    `TypeError`, while a missing `attempt` counts as 1;
  - an attributes object that is `null`, which raises `AttributeError` at
    `billable_actions.py:79`, `billable_actions.py:99` and in
    `billable_actions.py:267-303`;
  - an `events` member that is not an array: `billable_actions.py:182`
    accepts any value, and `len` at `billable_actions.py:158` then runs on it;
  - a `markerName` that is not a string: an unhashable value raises
    `TypeError` in the set test at `billable_actions.py:79`;
  - the same attribute field appearing more than once.
- The package `__init__.py` re-exports names and has no logic.
- `tests/test_billable_actions.py` depends on fixture files. The fixtures
  are not part of this model.
