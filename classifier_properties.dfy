/** What the classifier promises over whole histories: per-label counts,
    the signal-with-start merge, the local-activity counter and trailing
    charge, retry charges, and invariance under the normalization table. */
module ClassifierProperties {
  import opened Wrappers
  import opened History
  import opened EventTypes
  import opened Detectors
  import opened Classifier

  /** The number of events of `events` whose normalized type is `eventType`. */
  function CountType(events: seq<Event>, eventType: string): nat
    decreases |events|
  {
    if events == [] then 0
    else (if Normalize(events[0].eventType) == eventType then 1 else 0) + CountType(events[1..], eventType)
  }

  /** The retry charges the raw `EVENT_TYPE_ACTIVITY_TASK_STARTED` events of `events` carry. */
  function RetryTotal(events: seq<Event>): nat
    decreases |events|
  {
    if events == [] then 0
    else (if events[0].eventType == "EVENT_TYPE_ACTIVITY_TASK_STARTED" then RetryCount(events[0]) else 0)
         + RetryTotal(events[1..])
  }

  /** How many actions one event of a label's type is billed: child starts
      twice, markers never (they bill as `LocalActivity`), the rest once. */
  function Weight(l: Label): nat {
    if l == ChildWorkflowExecutionStarted then 2
    else if l == MarkerRecorded then 0
    else 1
  }

  lemma {:induction false} RepeatCount(l: Label, n: nat, x: Label)
    ensures multiset(Repeat(l, n))[x] == if x == l then n else 0
  {
    if n > 0 {
      RepeatCount(l, n - 1, x);
    }
  }

  lemma StepResolveLabelCount(s: ClassifierState, e: Event, includeRetries: bool, l: Label)
    requires l.IsEventLabel()
    requires Normalize(e.eventType) == "WorkflowTaskCompleted" && s.pending
    ensures multiset(Step(s, e, includeRetries).actions)[l] == multiset(s.actions)[l]
    ensures Normalize(e.eventType) != Name(l)
  {
    NamesAreNotRuleTypes(l);
    assert Step(s, e, includeRetries).actions == s.actions + [LocalActivity];
  }

  /** What a billable event of label `m` appends. */
  function Billed(m: Label): seq<Label> {
    if m == ChildWorkflowExecutionStarted then [m, m]
    else if m == MarkerRecorded then []
    else [m]
  }

  lemma BilledCount(m: Label, l: Label)
    ensures multiset(Billed(m))[l] == if m == l then Weight(m) else 0
  {
  }

  lemma StepBilled(s: ClassifierState, e: Event, includeRetries: bool)
    requires !(Normalize(e.eventType) == "WorkflowTaskCompleted" && s.pending)
    requires BillableLabel(Normalize(e.eventType)).Some?
    ensures Step(s, e, includeRetries).actions == s.actions + Billed(BillableLabel(Normalize(e.eventType)).value)
  {
    var m := BillableLabel(Normalize(e.eventType)).value;
    if m == MarkerRecorded {
      assert s.actions + Billed(m) == s.actions;
    }
  }

  lemma StepBillableLabelCount(s: ClassifierState, e: Event, includeRetries: bool, l: Label)
    requires l.IsEventLabel()
    requires !(Normalize(e.eventType) == "WorkflowTaskCompleted" && s.pending)
    requires BillableLabel(Normalize(e.eventType)).Some?
    ensures multiset(Step(s, e, includeRetries).actions)[l]
         == multiset(s.actions)[l] + (if Normalize(e.eventType) == Name(l) then Weight(l) else 0)
  {
    var m := BillableLabel(Normalize(e.eventType)).value;
    StepBilled(s, e, includeRetries);
    BilledCount(m, l);
    assert multiset(s.actions + Billed(m)) == multiset(s.actions) + multiset(Billed(m));
    if Normalize(e.eventType) == Name(l) {
      NameInjective(m, l);
    }
  }

  lemma StepUnbilledLabelCount(s: ClassifierState, e: Event, includeRetries: bool, l: Label)
    requires l.IsEventLabel()
    requires !(Normalize(e.eventType) == "WorkflowTaskCompleted" && s.pending)
    requires BillableLabel(Normalize(e.eventType)).None?
    ensures multiset(Step(s, e, includeRetries).actions)[l] == multiset(s.actions)[l]
    ensures Normalize(e.eventType) != Name(l)
  {
    BillableLabelOfName(l);
    RepeatCount(ActivityTaskScheduledRetry, RetryCount(e), l);
  }

  // The outcomes of `process_event`, one per rule, in precedence order.

  /** A workflow-task completion with a local activity pending bills it once
      and clears the flag. */
  lemma TaskCompletedResolvesPending(s: ClassifierState, e: Event, includeRetries: bool)
    requires Normalize(e.eventType) == "WorkflowTaskCompleted" && s.pending
    ensures Step(s, e, includeRetries) == ClassifierState(s.actions + [LocalActivity], false, s.localActivityCount)
  {
  }

  /** A child-workflow start is billed twice. */
  lemma ChildStartBilledTwice(s: ClassifierState, e: Event, includeRetries: bool)
    requires Normalize(e.eventType) == "ChildWorkflowExecutionStarted"
    ensures Step(s, e, includeRetries)
         == s.(actions := s.actions + [ChildWorkflowExecutionStarted, ChildWorkflowExecutionStarted])
  {
  }

  /** A local-activity marker bills nothing yet: it sets the flag and counts. */
  lemma LocalActivityMarkerDeferred(s: ClassifierState, e: Event, includeRetries: bool)
    requires IsLocalActivityMarker(e)
    ensures Step(s, e, includeRetries) == s.(pending := true, localActivityCount := s.localActivityCount + 1)
  {
  }

  /** Any other marker (side effect, version, ...) changes nothing. */
  lemma OtherMarkerFree(s: ClassifierState, e: Event, includeRetries: bool)
    requires Normalize(e.eventType) == "MarkerRecorded" && !IsLocalActivityMarker(e)
    ensures Step(s, e, includeRetries) == s
  {
  }

  /** Any other type in the billable table is billed once, under its
      camel-case name. */
  lemma BillableTypeBilledOnce(s: ClassifierState, e: Event, includeRetries: bool)
    requires Normalize(e.eventType) in BillableEventTypes
    requires Normalize(e.eventType) != "ChildWorkflowExecutionStarted" && Normalize(e.eventType) != "MarkerRecorded"
    ensures BillableLabel(Normalize(e.eventType)).Some?
    ensures var l := BillableLabel(Normalize(e.eventType)).value;
            Name(l) == Normalize(e.eventType) && Step(s, e, includeRetries) == s.(actions := s.actions + [l])
  {
    BillableTest(e.eventType);
  }

  /** With retries on, a raw activity-task-started event is billed one retry
      action per attempt after the first. */
  lemma RetriesExpanded(s: ClassifierState, e: Event)
    requires e.eventType == "EVENT_TYPE_ACTIVITY_TASK_STARTED"
    ensures Step(s, e, true) == s.(actions := s.actions + Repeat(ActivityTaskScheduledRetry, RetryCount(e)))
    ensures Step(s, e, false) == s
  {
    ActivityTaskStartedIsRaw(e.eventType);
  }

  /** Every other event changes nothing. */
  lemma UnbillableTypeFree(s: ClassifierState, e: Event, includeRetries: bool)
    requires Normalize(e.eventType) !in BillableEventTypes
    requires !(Normalize(e.eventType) == "WorkflowTaskCompleted" && s.pending)
    requires !(includeRetries && e.eventType == "EVENT_TYPE_ACTIVITY_TASK_STARTED")
    ensures Step(s, e, includeRetries) == s
  {
    BillableTest(e.eventType);
    ActivityTaskStartedIsRaw(e.eventType);
  }

  /** Per event, `process_event` adds `Weight(l)` actions labelled `l` exactly
      when the event's type is `l`'s type, and none otherwise. */
  lemma StepLabelCount(s: ClassifierState, e: Event, includeRetries: bool, l: Label)
    requires l.IsEventLabel()
    ensures multiset(Step(s, e, includeRetries).actions)[l]
         == multiset(s.actions)[l] + (if Normalize(e.eventType) == Name(l) then Weight(l) else 0)
  {
    if Normalize(e.eventType) == "WorkflowTaskCompleted" && s.pending {
      StepResolveLabelCount(s, e, includeRetries, l);
    } else if BillableLabel(Normalize(e.eventType)).Some? {
      StepBillableLabelCount(s, e, includeRetries, l);
    } else {
      StepUnbilledLabelCount(s, e, includeRetries, l);
    }
  }

  /** The same per iteration of the loop, except for signaled events of a
      signal-with-start history. */
  lemma LoopStepLabelCount(ls: LoopState, e: Event, signalWithStart: bool, includeRetries: bool, l: Label)
    requires l.IsEventLabel()
    requires signalWithStart ==> l != WorkflowExecutionSignaled
    ensures multiset(LoopStep(ls, e, signalWithStart, includeRetries).cls.actions)[l]
         == multiset(ls.cls.actions)[l] + (if Normalize(e.eventType) == Name(l) then Weight(l) else 0)
  {
    var eventType := Normalize(e.eventType);
    if signalWithStart && eventType == "WorkflowExecutionStarted" && !ls.signalWithStartProcessed {
      if eventType == Name(l) {
        NameInjective(l, WorkflowExecutionStarted);
      }
    } else if signalWithStart && eventType == "WorkflowExecutionSignaled" && ls.signalWithStartProcessed {
      if eventType == Name(l) {
        NameInjective(l, WorkflowExecutionSignaled);
      }
    } else {
      StepLabelCount(ls.cls, e, includeRetries, l);
    }
  }

  lemma {:induction false} RunLabelCount(ls: LoopState, events: seq<Event>, signalWithStart: bool, includeRetries: bool, l: Label)
    requires l.IsEventLabel()
    requires signalWithStart ==> l != WorkflowExecutionSignaled
    ensures multiset(Run(ls, events, signalWithStart, includeRetries).cls.actions)[l]
         == multiset(ls.cls.actions)[l] + Weight(l) * CountType(events, Name(l))
    decreases |events|
  {
    if events != [] {
      var next := LoopStep(ls, events[0], signalWithStart, includeRetries);
      LoopStepLabelCount(ls, events[0], signalWithStart, includeRetries, l);
      RunLabelCount(next, events[1..], signalWithStart, includeRetries, l);
    }
  }

  /** Every label named after an event type, other than the signaled one,
      appears `Weight(l)` times per event of that type, whatever the history. */
  lemma ClassifyLabelCount(events: seq<Event>, includeRetries: bool, l: Label)
    requires l.IsEventLabel() && l != WorkflowExecutionSignaled
    ensures multiset(Classify(events, includeRetries).actions)[l] == Weight(l) * CountType(events, Name(l))
  {
    RunLabelCount(Initial, events, IsSignalWithStart(events), includeRetries, l);
  }

  /** Child-workflow starts are billed exactly twice each. */
  lemma ChildWorkflowStartsDoubled(events: seq<Event>, includeRetries: bool)
    ensures multiset(Classify(events, includeRetries).actions)[ChildWorkflowExecutionStarted]
         == 2 * CountType(events, "ChildWorkflowExecutionStarted")
  {
    ClassifyLabelCount(events, includeRetries, ChildWorkflowExecutionStarted);
    assert Weight(ChildWorkflowExecutionStarted) == 2
        && Name(ChildWorkflowExecutionStarted) == "ChildWorkflowExecutionStarted";
  }

  /** Markers never appear as actions themselves. */
  lemma MarkersNeverBilledAsMarkers(events: seq<Event>, includeRetries: bool)
    ensures MarkerRecorded !in multiset(Classify(events, includeRetries).actions)
  {
    ClassifyLabelCount(events, includeRetries, MarkerRecorded);
    assert Weight(MarkerRecorded) == 0;
  }

  /** Every workflow start is billed once, the merged signal-with-start one included. */
  lemma WorkflowStartsBilledOnce(events: seq<Event>, includeRetries: bool)
    ensures multiset(Classify(events, includeRetries).actions)[WorkflowExecutionStarted]
         == CountType(events, "WorkflowExecutionStarted")
  {
    ClassifyLabelCount(events, includeRetries, WorkflowExecutionStarted);
    assert Weight(WorkflowExecutionStarted) == 1 && Name(WorkflowExecutionStarted) == "WorkflowExecutionStarted";
  }

  /** One iteration after the merged start keeps the flag and adds no signaled action. */
  lemma LoopStepAfterMergedStart(ls: LoopState, e: Event, includeRetries: bool)
    requires ls.signalWithStartProcessed
    ensures LoopStep(ls, e, true, includeRetries).signalWithStartProcessed
    ensures multiset(LoopStep(ls, e, true, includeRetries).cls.actions)[WorkflowExecutionSignaled]
         == multiset(ls.cls.actions)[WorkflowExecutionSignaled]
  {
    if Normalize(e.eventType) == "WorkflowExecutionSignaled" {
      assert LoopStep(ls, e, true, includeRetries) == ls;
    } else {
      StepLabelCount(ls.cls, e, includeRetries, WorkflowExecutionSignaled);
      assert Name(WorkflowExecutionSignaled) == "WorkflowExecutionSignaled";
    }
  }

  /** After the merged start action, no signaled action is emitted again. */
  lemma {:induction false} RunAfterMergedStart(ls: LoopState, events: seq<Event>, includeRetries: bool)
    requires ls.signalWithStartProcessed
    ensures Run(ls, events, true, includeRetries).signalWithStartProcessed
    ensures multiset(Run(ls, events, true, includeRetries).cls.actions)[WorkflowExecutionSignaled]
         == multiset(ls.cls.actions)[WorkflowExecutionSignaled]
    decreases |events|
  {
    if events != [] {
      LoopStepAfterMergedStart(ls, events[0], includeRetries);
      RunAfterMergedStart(LoopStep(ls, events[0], true, includeRetries), events[1..], includeRetries);
    }
  }

  /** The pass only ever appends. */
  lemma {:induction false} RunGrows(ls: LoopState, events: seq<Event>, signalWithStart: bool, includeRetries: bool)
    ensures var r := Run(ls, events, signalWithStart, includeRetries);
            |ls.cls.actions| <= |r.cls.actions| && r.cls.actions[..|ls.cls.actions|] == ls.cls.actions
            && ls.cls.localActivityCount <= r.cls.localActivityCount
    decreases |events|
  {
    if events != [] {
      var next := LoopStep(ls, events[0], signalWithStart, includeRetries);
      RunGrows(next, events[1..], signalWithStart, includeRetries);
      var r := Run(ls, events, signalWithStart, includeRetries);
      assert r.cls.actions[..|next.cls.actions|][..|ls.cls.actions|] == r.cls.actions[..|ls.cls.actions|];
    }
  }

  /** A signal-with-start history is billed one merged start action first, and
      no signaled action at all: every later signaled event is dropped, not
      only the second event of the history. */
  lemma SignalWithStartMerged(events: seq<Event>, includeRetries: bool)
    requires IsSignalWithStart(events)
    ensures var c := Classify(events, includeRetries);
            |c.actions| > 0 && c.actions[0] == WorkflowExecutionStarted
            && WorkflowExecutionSignaled !in multiset(c.actions)
  {
    var first := LoopStep(Initial, events[0], true, includeRetries);
    assert first == LoopState(ClassifierState([WorkflowExecutionStarted], false, 0), true);
    assert Run(Initial, events, true, includeRetries) == Run(first, events[1..], true, includeRetries);
    RunAfterMergedStart(first, events[1..], includeRetries);
    RunGrows(first, events[1..], true, includeRetries);
  }

  /** Without the signal-with-start prefix, every signaled event is billed once. */
  lemma SignaledBilledWithoutSignalWithStart(events: seq<Event>, includeRetries: bool)
    requires !IsSignalWithStart(events)
    ensures multiset(Classify(events, includeRetries).actions)[WorkflowExecutionSignaled]
         == CountType(events, "WorkflowExecutionSignaled")
  {
    var signalWithStart := IsSignalWithStart(events);
    RunLabelCount(Initial, events, signalWithStart, includeRetries, WorkflowExecutionSignaled);
    var last := Run(Initial, events, signalWithStart, includeRetries).cls;
    assert Classify(events, includeRetries).actions == Finish(last).actions;
    assert multiset(Finish(last).actions)[WorkflowExecutionSignaled] == multiset(last.actions)[WorkflowExecutionSignaled];
    assert Weight(WorkflowExecutionSignaled) == 1 && Name(WorkflowExecutionSignaled) == "WorkflowExecutionSignaled";
  }

  /** The local-activity invariant: billed local activities plus the pending
      one never exceed the markers counted. */
  ghost predicate LocalActivityBounded(s: ClassifierState) {
    multiset(s.actions)[LocalActivity] + (if s.pending then 1 else 0) <= s.localActivityCount
  }

  lemma StepBillableKeepsBound(s: ClassifierState, e: Event, includeRetries: bool)
    requires LocalActivityBounded(s)
    requires !(Normalize(e.eventType) == "WorkflowTaskCompleted" && s.pending)
    requires BillableLabel(Normalize(e.eventType)).Some?
    ensures LocalActivityBounded(Step(s, e, includeRetries))
  {
    var m := BillableLabel(Normalize(e.eventType)).value;
    var r := Step(s, e, includeRetries);
    if m == ChildWorkflowExecutionStarted {
      assert r.actions == s.actions + [m, m];
    } else if m == MarkerRecorded {
      assert r.actions == s.actions;
    } else {
      assert r.actions == s.actions + [m];
    }
  }

  lemma StepKeepsBound(s: ClassifierState, e: Event, includeRetries: bool)
    requires LocalActivityBounded(s)
    ensures LocalActivityBounded(Step(s, e, includeRetries))
  {
    var eventType := Normalize(e.eventType);
    if eventType == "WorkflowTaskCompleted" && s.pending {
      assert Step(s, e, includeRetries).actions == s.actions + [LocalActivity];
    } else if BillableLabel(eventType).Some? {
      StepBillableKeepsBound(s, e, includeRetries);
    } else {
      RepeatCount(ActivityTaskScheduledRetry, RetryCount(e), LocalActivity);
    }
  }

  lemma {:induction false} RunKeepsBound(ls: LoopState, events: seq<Event>, signalWithStart: bool, includeRetries: bool)
    requires LocalActivityBounded(ls.cls)
    ensures LocalActivityBounded(Run(ls, events, signalWithStart, includeRetries).cls)
    decreases |events|
  {
    if events != [] {
      var e := events[0];
      var eventType := Normalize(e.eventType);
      if !(signalWithStart && eventType == "WorkflowExecutionStarted" && !ls.signalWithStartProcessed)
         && !(signalWithStart && eventType == "WorkflowExecutionSignaled" && ls.signalWithStartProcessed) {
        StepKeepsBound(ls.cls, e, includeRetries);
      }
      RunKeepsBound(LoopStep(ls, e, signalWithStart, includeRetries), events[1..], signalWithStart, includeRetries);
    }
  }

  /** The number of local-activity markers in `events`. */
  function CountMarkers(events: seq<Event>): nat
    decreases |events|
  {
    if events == [] then 0
    else (if IsLocalActivityMarker(events[0]) then 1 else 0) + CountMarkers(events[1..])
  }

  /** One iteration counts a local-activity marker and nothing else. */
  lemma LoopStepCountsMarker(ls: LoopState, e: Event, signalWithStart: bool, includeRetries: bool)
    ensures LoopStep(ls, e, signalWithStart, includeRetries).cls.localActivityCount
         == ls.cls.localActivityCount + (if IsLocalActivityMarker(e) then 1 else 0)
  {
  }

  /** Over any stretch of the loop the counter rises by the number of
      local-activity markers in it, whether they are billed later or not. */
  lemma {:induction false} RunCountsMarkers(ls: LoopState, events: seq<Event>, signalWithStart: bool, includeRetries: bool)
    ensures Run(ls, events, signalWithStart, includeRetries).cls.localActivityCount
         == ls.cls.localActivityCount + CountMarkers(events)
    decreases |events|
  {
    if events != [] {
      LoopStepCountsMarker(ls, events[0], signalWithStart, includeRetries);
      RunCountsMarkers(LoopStep(ls, events[0], signalWithStart, includeRetries), events[1..], signalWithStart, includeRetries);
    }
  }

  /** The returned counter is the number of local-activity markers of the history. */
  lemma LocalActivityCounterIsMarkers(events: seq<Event>, includeRetries: bool)
    ensures Classify(events, includeRetries).localActivityCount == CountMarkers(events)
  {
    RunCountsMarkers(Initial, events, IsSignalWithStart(events), includeRetries);
  }

  /** `LocalActivity` actions never outnumber the local-activity markers of the
      history, nor therefore the returned counter. */
  lemma LocalActivityAtMostMarkers(events: seq<Event>, includeRetries: bool)
    ensures var c := Classify(events, includeRetries);
            multiset(c.actions)[LocalActivity] <= c.localActivityCount
            && multiset(c.actions)[LocalActivity] <= CountMarkers(events)
  {
    RunKeepsBound(Initial, events, IsSignalWithStart(events), includeRetries);
    LocalActivityCounterIsMarkers(events, includeRetries);
  }

  /** Running the loop over `a + b` is running it over `a`, then over `b`. */
  lemma {:induction false} RunAppend(ls: LoopState, a: seq<Event>, b: seq<Event>, signalWithStart: bool, includeRetries: bool)
    ensures Run(ls, a + b, signalWithStart, includeRetries)
         == Run(Run(ls, a, signalWithStart, includeRetries), b, signalWithStart, includeRetries)
    decreases |a|
  {
    ConcatFirst(a, b);
    if a != [] {
      RunAppend(LoopStep(ls, a[0], signalWithStart, includeRetries), a[1..], b, signalWithStart, includeRetries);
    }
  }

  /** With no workflow-task completion in `events`, a pending flag survives them. */
  lemma {:induction false} RunKeepsPending(ls: LoopState, events: seq<Event>, signalWithStart: bool, includeRetries: bool)
    requires ls.cls.pending
    requires forall j :: 0 <= j < |events| ==> Normalize(events[j].eventType) != "WorkflowTaskCompleted"
    ensures Run(ls, events, signalWithStart, includeRetries).cls.pending
    decreases |events|
  {
    if events != [] {
      LoopStepKeepsPending(ls, events[0], signalWithStart, includeRetries);
      RunKeepsPending(LoopStep(ls, events[0], signalWithStart, includeRetries), events[1..], signalWithStart, includeRetries);
    }
  }

  /** Only a local-activity marker sets the flag. */
  lemma LoopStepStaysClear(ls: LoopState, e: Event, signalWithStart: bool, includeRetries: bool)
    requires !ls.cls.pending && !IsLocalActivityMarker(e)
    ensures !LoopStep(ls, e, signalWithStart, includeRetries).cls.pending
  {
  }

  /** A workflow-task completion always leaves the flag clear. */
  lemma LoopStepCompletionClears(ls: LoopState, e: Event, signalWithStart: bool, includeRetries: bool)
    requires Normalize(e.eventType) == "WorkflowTaskCompleted"
    ensures !LoopStep(ls, e, signalWithStart, includeRetries).cls.pending
  {
    if ls.cls.pending {
      LoopStepResolvesPending(ls, e, signalWithStart, includeRetries);
    } else {
      UnbillableTypeFree(ls.cls, e, includeRetries);
    }
  }

  /** With no local-activity marker in `events`, a clear flag stays clear. */
  lemma {:induction false} RunStaysClear(ls: LoopState, events: seq<Event>, signalWithStart: bool, includeRetries: bool)
    requires !ls.cls.pending
    requires forall j :: 0 <= j < |events| ==> !IsLocalActivityMarker(events[j])
    ensures !Run(ls, events, signalWithStart, includeRetries).cls.pending
    decreases |events|
  {
    if events != [] {
      LoopStepStaysClear(ls, events[0], signalWithStart, includeRetries);
      RunStaysClear(LoopStep(ls, events[0], signalWithStart, includeRetries), events[1..], signalWithStart, includeRetries);
    }
  }

  /** A local-activity marker with no later workflow-task completion is billed
      by the trailing charge: the actions are the loop's, then exactly one
      `LocalActivity`. */
  lemma TrailingLocalActivity(events: seq<Event>, k: nat, includeRetries: bool)
    requires k < |events| && IsLocalActivityMarker(events[k])
    requires forall j :: k < j < |events| ==> Normalize(events[j].eventType) != "WorkflowTaskCompleted"
    ensures var loop := Run(Initial, events, IsSignalWithStart(events), includeRetries).cls;
            Classify(events, includeRetries).actions == loop.actions + [LocalActivity]
  {
    var sws := IsSignalWithStart(events);
    var tail := events[k + 1..];
    SplitAt(events, k);
    RunAppend(Initial, events[..k], [events[k]] + tail, sws, includeRetries);
    var mid := Run(Initial, events[..k], sws, includeRetries);
    LocalActivityMarkerDeferred(mid.cls, events[k], includeRetries);
    forall j | 0 <= j < |tail|
      ensures Normalize(tail[j].eventType) != "WorkflowTaskCompleted"
    {
      assert tail[j] == events[k + 1 + j];
    }
    RunKeepsPending(LoopStep(mid, events[k], sws, includeRetries), tail, sws, includeRetries);
  }

  /** A history whose last workflow-task completion at `k` is followed by no
      local-activity marker gets no trailing charge. */
  lemma NoTrailingChargeAfterCompletion(events: seq<Event>, k: nat, includeRetries: bool)
    requires k < |events| && Normalize(events[k].eventType) == "WorkflowTaskCompleted"
    requires forall j :: k < j < |events| ==> !IsLocalActivityMarker(events[j])
    ensures Classify(events, includeRetries).actions
         == Run(Initial, events, IsSignalWithStart(events), includeRetries).cls.actions
  {
    var sws := IsSignalWithStart(events);
    var tail := events[k + 1..];
    SplitAt(events, k);
    RunAppend(Initial, events[..k], [events[k]] + tail, sws, includeRetries);
    var mid := Run(Initial, events[..k], sws, includeRetries);
    LoopStepCompletionClears(mid, events[k], sws, includeRetries);
    forall j | 0 <= j < |tail|
      ensures !IsLocalActivityMarker(tail[j])
    {
      assert tail[j] == events[k + 1 + j];
    }
    RunStaysClear(LoopStep(mid, events[k], sws, includeRetries), tail, sws, includeRetries);
  }

  /** A history without local-activity markers bills no `LocalActivity` at all. */
  lemma NoMarkersNoLocalActivity(events: seq<Event>, includeRetries: bool)
    requires forall j :: 0 <= j < |events| ==> !IsLocalActivityMarker(events[j])
    ensures LocalActivity !in multiset(Classify(events, includeRetries).actions)
  {
    RunStaysClear(Initial, events, IsSignalWithStart(events), includeRetries);
    RunKeepsBound(Initial, events, IsSignalWithStart(events), includeRetries);
    RunCountsMarkers(Initial, events, IsSignalWithStart(events), includeRetries);
    NoMarkersCounted(events);
  }

  lemma {:induction false} NoMarkersCounted(events: seq<Event>)
    requires forall j :: 0 <= j < |events| ==> !IsLocalActivityMarker(events[j])
    ensures CountMarkers(events) == 0
    decreases |events|
  {
    if events != [] {
      assert forall j :: 0 <= j < |events[1..]| ==> events[1..][j] == events[j + 1];
      NoMarkersCounted(events[1..]);
    }
  }

  lemma StepBillableRetryCount(s: ClassifierState, e: Event, includeRetries: bool)
    requires !(Normalize(e.eventType) == "WorkflowTaskCompleted" && s.pending)
    requires BillableLabel(Normalize(e.eventType)).Some?
    ensures multiset(Step(s, e, includeRetries).actions)[ActivityTaskScheduledRetry]
         == multiset(s.actions)[ActivityTaskScheduledRetry]
  {
    var m := BillableLabel(Normalize(e.eventType)).value;
    var r := Step(s, e, includeRetries);
    if m == ChildWorkflowExecutionStarted {
      assert r.actions == s.actions + [m, m];
    } else if m == MarkerRecorded {
      assert r.actions == s.actions;
    } else {
      assert r.actions == s.actions + [m];
    }
  }

  lemma StepRetryCount(s: ClassifierState, e: Event, includeRetries: bool)
    ensures multiset(Step(s, e, includeRetries).actions)[ActivityTaskScheduledRetry]
         == multiset(s.actions)[ActivityTaskScheduledRetry]
            + (if includeRetries && e.eventType == "EVENT_TYPE_ACTIVITY_TASK_STARTED" then RetryCount(e) else 0)
  {
    var eventType := Normalize(e.eventType);
    ActivityTaskStartedIsRaw(e.eventType);
    if eventType == "WorkflowTaskCompleted" && s.pending {
      assert Step(s, e, includeRetries).actions == s.actions + [LocalActivity];
    } else if BillableLabel(eventType).Some? {
      StepBillableRetryCount(s, e, includeRetries);
    } else {
      RepeatCount(ActivityTaskScheduledRetry, RetryCount(e), ActivityTaskScheduledRetry);
    }
  }

  lemma {:induction false} RunRetryCount(ls: LoopState, events: seq<Event>, signalWithStart: bool, includeRetries: bool)
    ensures multiset(Run(ls, events, signalWithStart, includeRetries).cls.actions)[ActivityTaskScheduledRetry]
         == multiset(ls.cls.actions)[ActivityTaskScheduledRetry] + (if includeRetries then RetryTotal(events) else 0)
    decreases |events|
  {
    if events != [] {
      var e := events[0];
      ActivityTaskStartedIsRaw(e.eventType);
      StepRetryCount(ls.cls, e, includeRetries);
      RunRetryCount(LoopStep(ls, e, signalWithStart, includeRetries), events[1..], signalWithStart, includeRetries);
    }
  }

  /** With retries on, each raw activity-task-started event adds its retry
      count of `ActivityTaskScheduled_retry` actions; with retries off, none. */
  lemma RetryActionsCounted(events: seq<Event>, includeRetries: bool)
    ensures multiset(Classify(events, includeRetries).actions)[ActivityTaskScheduledRetry]
         == if includeRetries then RetryTotal(events) else 0
  {
    RunRetryCount(Initial, events, IsSignalWithStart(events), includeRetries);
  }

  /** One event that is not a workflow-task completion leaves a pending local
      activity pending and unbilled. */
  lemma StepKeepsPending(s: ClassifierState, e: Event, includeRetries: bool)
    requires s.pending
    requires Normalize(e.eventType) != "WorkflowTaskCompleted"
    ensures var r := Step(s, e, includeRetries);
            r.pending && multiset(r.actions)[LocalActivity] == multiset(s.actions)[LocalActivity]
  {
    var eventType := Normalize(e.eventType);
    if BillableLabel(eventType).Some? {
      var m := BillableLabel(eventType).value;
      var r := Step(s, e, includeRetries);
      if m == ChildWorkflowExecutionStarted {
        assert r.actions == s.actions + [m, m];
      } else if m == MarkerRecorded {
        assert r.actions == s.actions;
      } else {
        assert r.actions == s.actions + [m];
      }
    } else {
      RepeatCount(ActivityTaskScheduledRetry, RetryCount(e), LocalActivity);
    }
  }

  lemma LoopStepKeepsPending(ls: LoopState, e: Event, signalWithStart: bool, includeRetries: bool)
    requires ls.cls.pending
    requires Normalize(e.eventType) != "WorkflowTaskCompleted"
    ensures var r := LoopStep(ls, e, signalWithStart, includeRetries);
            r.cls.pending && multiset(r.cls.actions)[LocalActivity] == multiset(ls.cls.actions)[LocalActivity]
  {
    var eventType := Normalize(e.eventType);
    if !(signalWithStart && eventType == "WorkflowExecutionStarted" && !ls.signalWithStartProcessed)
       && !(signalWithStart && eventType == "WorkflowExecutionSignaled" && ls.signalWithStartProcessed) {
      StepKeepsPending(ls.cls, e, includeRetries);
    }
  }

  lemma LoopStepResolvesPending(ls: LoopState, e: Event, signalWithStart: bool, includeRetries: bool)
    requires ls.cls.pending
    requires Normalize(e.eventType) == "WorkflowTaskCompleted"
    ensures var r := LoopStep(ls, e, signalWithStart, includeRetries);
            !r.cls.pending && r.cls.actions == ls.cls.actions + [LocalActivity]
  {
    NamesAreNotRuleTypes(WorkflowExecutionStarted);
    NamesAreNotRuleTypes(WorkflowExecutionSignaled);
  }

  /** A pending local activity stays pending, and is not billed, across any
      events that are not workflow-task completions; the completion that
      follows bills it exactly once. */
  lemma {:induction false} PendingResolvedOnce(ls: LoopState, middle: seq<Event>, completed: Event,
                                               signalWithStart: bool, includeRetries: bool)
    requires ls.cls.pending
    requires forall i :: 0 <= i < |middle| ==> Normalize(middle[i].eventType) != "WorkflowTaskCompleted"
    requires Normalize(completed.eventType) == "WorkflowTaskCompleted"
    ensures var r := Run(ls, middle + [completed], signalWithStart, includeRetries);
            !r.cls.pending && multiset(r.cls.actions)[LocalActivity] == multiset(ls.cls.actions)[LocalActivity] + 1
    decreases |middle|
  {
    var events := middle + [completed];
    if middle == [] {
      assert events[1..] == [];
      LoopStepResolvesPending(ls, completed, signalWithStart, includeRetries);
    } else {
      var next := LoopStep(ls, middle[0], signalWithStart, includeRetries);
      LoopStepKeepsPending(ls, middle[0], signalWithStart, includeRetries);
      assert events[0] == middle[0] && events[1..] == middle[1..] + [completed];
      PendingResolvedOnce(next, middle[1..], completed, signalWithStart, includeRetries);
    }
  }

  /** The event with its type rewritten to the camel-case spelling. */
  function NormalizedEvent(e: Event): Event {
    e.(eventType := Normalize(e.eventType))
  }

  function NormalizedHistory(events: seq<Event>): (r: seq<Event>)
    ensures |r| == |events|
    ensures forall i :: 0 <= i < |events| ==> r[i] == NormalizedEvent(events[i])
    decreases |events|
  {
    if events == [] then [] else [NormalizedEvent(events[0])] + NormalizedHistory(events[1..])
  }

  lemma LoopStepSpellingIndependent(ls: LoopState, e: Event, signalWithStart: bool, includeRetries: bool)
    ensures LoopStep(ls, NormalizedEvent(e), signalWithStart, includeRetries) == LoopStep(ls, e, signalWithStart, includeRetries)
  {
    NormalizeIdempotent(e.eventType);
    ActivityTaskStartedIsRaw(e.eventType);
    assert IsLocalActivityMarker(NormalizedEvent(e)) == IsLocalActivityMarker(e);
    assert RetryCount(NormalizedEvent(e)) == RetryCount(e);
  }

  lemma {:induction false} RunSpellingIndependent(ls: LoopState, events: seq<Event>, signalWithStart: bool, includeRetries: bool)
    ensures Run(ls, NormalizedHistory(events), signalWithStart, includeRetries) == Run(ls, events, signalWithStart, includeRetries)
    decreases |events|
  {
    if events != [] {
      LoopStepSpellingIndependent(ls, events[0], signalWithStart, includeRetries);
      assert NormalizedHistory(events)[1..] == NormalizedHistory(events[1..]);
      RunSpellingIndependent(LoopStep(ls, events[0], signalWithStart, includeRetries), events[1..], signalWithStart, includeRetries);
    }
  }

  /** Rewriting every event type through the normalization table does not
      change the classification. The table has no entry for
      `EVENT_TYPE_ACTIVITY_TASK_STARTED`, so that spelling is kept, and
      `RetryTriggerSpellingMatters` shows it is not interchangeable with
      `ActivityTaskStarted`. */
  lemma ClassifySpellingIndependent(events: seq<Event>, includeRetries: bool)
    ensures Classify(NormalizedHistory(events), includeRetries) == Classify(events, includeRetries)
  {
    var normalized := NormalizedHistory(events);
    if |events| >= 3 {
      NormalizeIdempotent(events[0].eventType);
      NormalizeIdempotent(events[1].eventType);
    }
    assert IsSignalWithStart(normalized) == IsSignalWithStart(events);
    RunSpellingIndependent(Initial, events, IsSignalWithStart(events), includeRetries);
  }

  /** With retries on, a raw `EVENT_TYPE_ACTIVITY_TASK_STARTED` on its third
      attempt bills two retries, while the same event spelled
      `ActivityTaskStarted` bills nothing: the retry rule tests the raw type. */
  lemma RetryTriggerSpellingMatters()
    ensures var a := Attributes(None, Some(3), None, None, None);
            var raw := Event("EVENT_TYPE_ACTIVITY_TASK_STARTED", 0, map[ActivityTaskStartedAttributes := a]);
            var camel := Event("ActivityTaskStarted", 0, map[ActivityTaskStartedAttributes := a]);
            Classify([raw], true).actions == [ActivityTaskScheduledRetry, ActivityTaskScheduledRetry]
            && Classify([camel], true).actions == []
  {
    var a := Attributes(None, Some(3), None, None, None);
    var raw := Event("EVENT_TYPE_ACTIVITY_TASK_STARTED", 0, map[ActivityTaskStartedAttributes := a]);
    var camel := Event("ActivityTaskStarted", 0, map[ActivityTaskStartedAttributes := a]);
    assert RetryCount(raw) == 2;
    assert Repeat(ActivityTaskScheduledRetry, 2) == [ActivityTaskScheduledRetry, ActivityTaskScheduledRetry];
    assert Run(Initial, [raw], false, true) == Run(LoopStep(Initial, raw, false, true), [], false, true);
    assert Run(Initial, [camel], false, true) == Run(LoopStep(Initial, camel, false, true), [], false, true);
  }

  /** An event of type `eventType` with no attributes. */
  function Bare(eventType: string, eventTime: int): Event {
    Event(eventType, eventTime, map[])
  }

  /** Start, signal, activity scheduled, completion: the merged start and the
      activity are billed, the signal is absorbed and the completion is free. */
  lemma SignalWithStartScenario(includeRetries: bool)
    ensures Classify([Bare("WorkflowExecutionStarted", 0), Bare("WorkflowExecutionSignaled", 1),
                      Bare("ActivityTaskScheduled", 2), Bare("WorkflowExecutionCompleted", 3)], includeRetries).actions
         == [WorkflowExecutionStarted, ActivityTaskScheduled]
  {
    var events := [Bare("WorkflowExecutionStarted", 0), Bare("WorkflowExecutionSignaled", 1),
                   Bare("ActivityTaskScheduled", 2), Bare("WorkflowExecutionCompleted", 3)];
    assert IsSignalWithStart(events);
    var s1 := LoopStep(Initial, events[0], true, includeRetries);
    assert s1 == LoopState(ClassifierState([WorkflowExecutionStarted], false, 0), true);
    var s2 := LoopStep(s1, events[1], true, includeRetries);
    assert s2 == s1;
    var s3 := LoopStep(s2, events[2], true, includeRetries);
    assert s3 == LoopState(ClassifierState([WorkflowExecutionStarted, ActivityTaskScheduled], false, 0), true);
    var s4 := LoopStep(s3, events[3], true, includeRetries);
    assert s4 == s3;
    assert events[1..][1..][1..][1..] == [];
  }

  /** As written, a signal later in a signal-with-start history is dropped
      too, not only the one that follows the start. */
  lemma LaterSignalDropped(includeRetries: bool)
    ensures Classify([Bare("WorkflowExecutionStarted", 0), Bare("WorkflowExecutionSignaled", 1),
                      Bare("TimerStarted", 2), Bare("WorkflowExecutionSignaled", 3)], includeRetries).actions
         == [WorkflowExecutionStarted, TimerStarted]
  {
    var events := [Bare("WorkflowExecutionStarted", 0), Bare("WorkflowExecutionSignaled", 1),
                   Bare("TimerStarted", 2), Bare("WorkflowExecutionSignaled", 3)];
    assert IsSignalWithStart(events);
    var s1 := LoopStep(Initial, events[0], true, includeRetries);
    assert s1 == LoopState(ClassifierState([WorkflowExecutionStarted], false, 0), true);
    var s2 := LoopStep(s1, events[1], true, includeRetries);
    assert s2 == s1;
    var s3 := LoopStep(s2, events[2], true, includeRetries);
    assert s3 == LoopState(ClassifierState([WorkflowExecutionStarted, TimerStarted], false, 0), true);
    var s4 := LoopStep(s3, events[3], true, includeRetries);
    assert s4 == s3;
    assert events[1..][1..][1..][1..] == [];
  }
}
