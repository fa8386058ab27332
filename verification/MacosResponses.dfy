/**
  What each event does to the captures of the macOS supervisor.

  Bindings are pinned, as `pin_devices` makes them. A stop is answered within the event that asks
  for it, so what a device event must achieve is reached in one step.
*/
module MacosResponses {
  import opened Prelude
  import opened Rebinding
  import opened RebindingMoves
  import RebindingHistory
  import opened RebindingResponses
  import opened MacosModel
  import opened MacosProofs
  import opened MacosStreams

  // ---- Reports of the capture itself ------------------------------------------------

  /** An error takes the worker out of the table and its binding out of Starting or Running, counts
      one failure and schedules one retry until the cap is passed, and touches no other binding. */
  lemma ErrorTakesWorker(s: Supervisor, k: BindingKind, error: string)
    requires SupervisorOk(s) && k in s.workers
    ensures k in s.state.bindings
    ensures var s' := Step(s, StreamError(k, error), []);
            var b := s.state.bindings[k];
            var n := b.retryAttempt + 1;
            && s'.workers == s.workers - {k}
            && s'.timers == s.timers + (if n <= 5 then multiset{(k, n)} else multiset{})
            && s'.state.shutdown == s.state.shutdown && s'.state.defaultRoutes == s.state.defaultRoutes
            && s'.state.bindings == s.state.bindings[k := b.(
                 lifecycle := if n <= 5 then Waiting(RetryableFailure(n)) else Failed(n, error),
                 retryAttempt := n)]
  {
    assert TableOk(s, k);
    hide SupervisorOk, TableOk, Execute, Reconcile, OnWorkerFailed, AwaitsSiblings;
    var o := OnWorkerFailed(s.state, k, s.workers[k].operationId, error);
    FailureDecided(s.state, k, s.workers[k].operationId, error);
    var m := s.(state := o.state, workers := s.workers - {k});
    FailedExecutes(m, k, o);
    ReconcileKeepsTable(Execute(m, o.effects));
  }

  lemma ReconcileKeepsTable(s: Supervisor)
    ensures var s' := Reconcile(s); s'.state == s.state && s'.workers == s.workers && s'.timers == s.timers
  {
  }

  lemma FailureDecided(s: State, k: BindingKind, op: nat, error: string)
    requires k in s.bindings && s.bindings[k].lifecycle.Live() && s.bindings[k].lifecycle.operationId == op
    ensures var o, b := OnWorkerFailed(s, k, op, error), s.bindings[k];
            var n := b.retryAttempt + 1;
            && o.state.shutdown == s.shutdown && o.state.defaultRoutes == s.defaultRoutes
            && o.state.bindings == s.bindings[k := b.(
                 lifecycle := if n <= 5 then Waiting(RetryableFailure(n)) else Failed(n, error), retryAttempt := n)]
            && |o.effects| == (if n <= 5 then 1 else 0)
            && (n <= 5 ==> o.effects[0].ScheduleRetry? && o.effects[0].binding == k && o.effects[0].retryId == n)
  {
  }

  /** A stop on request, and a report of a capture that is not in the table, change nothing. */
  lemma StrayReport(s: Supervisor, event: Event, orders: seq<seq<BindingKind>>)
    requires |orders| == |Batch(event)|
    requires event.StreamStopped? || ((event.StreamError? || event.StreamStarted?) && event.stream !in s.workers)
    ensures Step(s, event, orders) == s
  {
  }

  /** A start report makes the binding of a registered worker run where it was started, with its
      failures forgotten, and changes nothing else. */
  lemma StartReportConfirms(s: Supervisor, k: BindingKind)
    requires SupervisorOk(s) && k in s.workers
    ensures k in s.state.bindings
    ensures var w, b := s.workers[k], s.state.bindings[k];
            Step(s, StreamStarted(k), [])
            == s.(state := s.state.(bindings := s.state.bindings[k := if b.lifecycle.Running? then b else b.(
                    lifecycle := Running(w.operationId, w.epoch, w.target), retryAttempt := 0)]))
  {
    hide WellFormed, ThreadsAccounted, Execute;
    assert TableOk(s, k);
    var w := s.workers[k];
    var o := OnWorkerStarted(s.state, k, w.operationId, w.epoch, w.target);
    assert o.effects == [];
    NothingExecutes(s.(state := o.state));
    if s.state.bindings[k].lifecycle.Running? {
      assert s.state.bindings[k := s.state.bindings[k]] == s.state.bindings;
    }
  }

  // ---- Batches of device events and start requests ----------------------------------

  ghost predicate BatchInput(input: DecisionInput) {
    || input.UserStart?
    || (input.Observed? && (input.observation.EndpointRemoved? || input.observation.EndpointAdded?))
  }

  /** The inputs of a batch that a binding answers to. */
  ghost predicate Answers(input: DecisionInput, k: BindingKind, b: CaptureBinding) {
    match b.lifecycle
    case Running(_, _, target) =>
      input.Observed? && input.observation.EndpointRemoved? && target == EndpointTarget(input.observation.endpointId)
    case Stopped => input == UserStart(k)
    case Waiting(_) =>
      || input == UserStart(k)
      || (input.Observed? && input.observation.EndpointAdded?
          && b.selection == Endpoint(Pinned(input.observation.endpointId)))
    case _ => false
  }

  /** What the first input that a binding answers to makes of it. */
  ghost predicate Answered(s: State, b: CaptureBinding, b': CaptureBinding, id: EndpointId) {
    if b.lifecycle.Running? then
      b' == b.(lifecycle := Stopping(b.lifecycle.operationId, b.lifecycle.epoch, WaitForRecovery(DeviceUnavailable)))
    else
      && b'.lifecycle.Starting? && b'.lifecycle.target == EndpointTarget(id)
      && b'.lifecycle.operationId >= s.nextOperationId && b'.lifecycle.epoch >= s.nextStreamEpoch
      && b' == b.(lifecycle := b'.lifecycle)
  }

  lemma OneAnswer(s: State, input: DecisionInput, order: seq<BindingKind>, k: BindingKind, id: EndpointId)
    requires Visits(order, s.bindings.Keys) && k in s.bindings && k != ProcessLoopback
    requires s.bindings[k].selection == Endpoint(Pinned(id)) && !s.shutdown && BatchInput(input)
    ensures var s', b := Decide(s, input, order).state, s.bindings[k];
            && k in s'.bindings
            && if Answers(input, k, b) then Answered(s, b, s'.bindings[k], id) else s'.bindings[k] == b
  {
    hide Decide;
    match input
    case UserStart(j) =>
      var target := UserStartStarts(s, j, order, k);
      assert target == Some(EndpointTarget(id));
    case Observed(obs) =>
      match obs
      case EndpointRemoved(gone) => RemovalStops(s, gone, order, k);
      case EndpointAdded(added) => AdditionStarts(s, added, order, k);
  }

  ghost predicate SomeAnswer(inputs: seq<DecisionInput>, k: BindingKind, b: CaptureBinding) {
    exists i :: 0 <= i < |inputs| && Answers(inputs[i], k, b)
  }

  lemma DecideKeepsShutdown(s: State, input: DecisionInput, order: seq<BindingKind>)
    requires BatchInput(input)
    ensures Decide(s, input, order).state.shutdown == s.shutdown
  {
    hide ReactAll, Selected;
    match input
    case UserStart(_) =>
    case Observed(obs) =>
      ReactAllFrames(s, StartNow, Selected(s, obs, order));
      ReactAllFrames(s, StopThen(WaitForRecovery(DeviceUnavailable)), Selected(s, obs, order));
  }

  lemma {:induction false} BatchAnswers(s: State, inputs: seq<DecisionInput>, orders: seq<seq<BindingKind>>,
                                        k: BindingKind, id: EndpointId)
    requires BatchReady(s, inputs, orders) && (forall i :: 0 <= i < |inputs| ==> BatchInput(inputs[i]))
    requires k in s.bindings && k != ProcessLoopback && s.bindings[k].selection == Endpoint(Pinned(id)) && !s.shutdown
    requires !s.bindings[k].lifecycle.Stopping?
    ensures var s', b := DecideAll(s, inputs, orders).state, s.bindings[k];
            && k in s'.bindings && !s'.shutdown
            && if SomeAnswer(inputs, k, b) then Answered(s, b, s'.bindings[k], id) else s'.bindings[k] == b
  {
    hide Decide, WellFormed, Visits, PinnedOnly, NoRestart;
    if inputs != [] {
      var n := |inputs| - 1;
      var before := DecideAll(s, inputs[..n], orders[..n]).state;
      BatchAnswers(s, inputs[..n], orders[..n], k, id);
      BatchFrames(s, inputs[..n], orders[..n]);
      OneAnswer(before, inputs[n], orders[n], k, id);
      DecideKeepsShutdown(before, inputs[n], orders[n]);
      var b := s.bindings[k];
      assert SomeAnswer(inputs, k, b) <==> SomeAnswer(inputs[..n], k, b) || Answers(inputs[n], k, b);
    }
  }

  // ---- Events -----------------------------------------------------------------------

  /** The events that tell a running binding that its endpoint is gone. */
  ghost predicate TakesAway(event: Event, id: EndpointId) {
    match event
    case DeviceChange(obs) => obs == EndpointRemoved(id)
    case DeviceList(removed, _) => id in removed
    case _ => false
  }

  /** The events that tell a waiting binding that its endpoint is there, or ask it to start. */
  ghost predicate BringsBack(event: Event, k: BindingKind, id: EndpointId) {
    match event
    case DeviceChange(obs) => obs == EndpointAdded(id)
    case DeviceList(_, added) => id in added
    case StartAll => k != ProcessLoopback
    case _ => false
  }

  ghost predicate DeviceEvent(event: Event) {
    || event.DeviceList? || event.StartAll?
    || (event.DeviceChange? && (event.observation.EndpointRemoved? || event.observation.EndpointAdded?))
  }

  lemma BatchMeans(event: Event, k: BindingKind, b: CaptureBinding, id: EndpointId)
    requires DeviceEvent(event) && k != ProcessLoopback && b.selection == Endpoint(Pinned(id))
    ensures forall i :: 0 <= i < |Batch(event)| ==> BatchInput(Batch(event)[i])
    ensures b.lifecycle.Running? && b.lifecycle.target.EndpointTarget? ==>
              (SomeAnswer(Batch(event), k, b) <==> TakesAway(event, b.lifecycle.target.id))
    ensures b.lifecycle.Waiting? ==> (SomeAnswer(Batch(event), k, b) <==> BringsBack(event, k, id))
    ensures b.lifecycle.Stopped? ==> (SomeAnswer(Batch(event), k, b) <==> event.StartAll?)
  {
    hide Answers;
    if event.DeviceList? {
      ListMeans(event.removed, event.added, k, b, id);
    } else {
      SmallBatchMeans(event, k, b, id);
    }
  }

  lemma SmallBatchMeans(event: Event, k: BindingKind, b: CaptureBinding, id: EndpointId)
    requires DeviceEvent(event) && !event.DeviceList? && k != ProcessLoopback && b.selection == Endpoint(Pinned(id))
    ensures b.lifecycle.Running? && b.lifecycle.target.EndpointTarget? ==>
              (SomeAnswer(Batch(event), k, b) <==> TakesAway(event, b.lifecycle.target.id))
    ensures b.lifecycle.Waiting? ==> (SomeAnswer(Batch(event), k, b) <==> BringsBack(event, k, id))
    ensures b.lifecycle.Stopped? ==> (SomeAnswer(Batch(event), k, b) <==> event.StartAll?)
  {
    var inputs := Batch(event);
    assert SomeAnswer(inputs, k, b) <==>
             Answers(inputs[0], k, b) || (|inputs| == 2 && Answers(inputs[1], k, b));
  }

  lemma ListMeans(removed: seq<EndpointId>, added: seq<EndpointId>, k: BindingKind, b: CaptureBinding, id: EndpointId)
    requires k != ProcessLoopback && b.selection == Endpoint(Pinned(id))
    ensures var inputs := Removals(removed) + Additions(added);
            && (b.lifecycle.Running? && b.lifecycle.target.EndpointTarget? ==>
                  (SomeAnswer(inputs, k, b) <==> b.lifecycle.target.id in removed))
            && (b.lifecycle.Waiting? ==> (SomeAnswer(inputs, k, b) <==> id in added))
            && (b.lifecycle.Stopped? ==> !SomeAnswer(inputs, k, b))
  {
    var inputs := Removals(removed) + Additions(added);
    assert forall i :: 0 <= i < |removed| ==> inputs[i] == Observed(EndpointRemoved(removed[i]));
    assert forall i :: 0 <= i < |added| ==> inputs[|removed| + i] == Observed(EndpointAdded(added[i]));
    if SomeAnswer(inputs, k, b) {
      var i :| 0 <= i < |inputs| && Answers(inputs[i], k, b);
      assert i < |removed| || inputs[i] == Observed(EndpointAdded(added[i - |removed|]));
    }
    if b.lifecycle.Running? && b.lifecycle.target.EndpointTarget? && b.lifecycle.target.id in removed {
      var i :| 0 <= i < |removed| && removed[i] == b.lifecycle.target.id;
      assert Answers(inputs[i], k, b);
    }
    if b.lifecycle.Waiting? && id in added {
      var i :| 0 <= i < |added| && added[i] == id;
      assert Answers(inputs[|removed| + i], k, b);
    }
  }

  /** A pinned binding, and an event that concerns it before shutdown. */
  ghost predicate Concerns(s: Supervisor, event: Event, orders: seq<seq<BindingKind>>, k: BindingKind, id: EndpointId) {
    && PinnedOk(s) && Enabled(s, event) && Orders(s, event, orders) && !s.state.shutdown
    && k in s.state.bindings && s.state.bindings[k].selection == Endpoint(Pinned(id))
  }

  /** What the decisions of the event make of the binding, once their stops are reported. */
  lemma EventAnswers(s: Supervisor, event: Event, orders: seq<seq<BindingKind>>, k: BindingKind, id: EndpointId)
    returns (decided: CaptureBinding)
    requires Concerns(s, event, orders, k, id) && DeviceEvent(event)
    ensures k != ProcessLoopback && k in Step(s, event, orders).state.bindings
    ensures Step(s, event, orders).state.bindings[k].lifecycle == RestOf(decided.lifecycle)
    ensures var b := s.state.bindings[k];
            if SomeAnswer(Batch(event), k, b) then Answered(s.state, b, decided, id) else decided == b
  {
    assert EndpointsOnly(s.state);
    hide PinnedOk, EndpointsOnly, DecideAll, Step, Answered, Answers, SomeAnswer, BatchInput, WellFormed, RestOf;
    ReadyToDecide(s, event, orders);
    assert NotStopping(s, k);
    BatchMeans(event, k, s.state.bindings[k], id);
    BatchAnswers(s.state, Batch(event), orders, k, id);
    BatchRests(s, event, orders, k);
    decided := DecideAll(s.state, Batch(event), orders).state.bindings[k];
  }

  lemma TableAfter(s: Supervisor, event: Event, orders: seq<seq<BindingKind>>, k: BindingKind)
    requires PinnedOk(s) && Enabled(s, event) && Orders(s, event, orders)
    ensures TableOk(Step(s, event, orders), k)
  {
    hide Step, ThreadsAccounted, TableOk, NotStopping, TimerOk, StreamOk;
    StepKeeps(s, event, orders);
  }

  /** A device that goes away takes its capture away, which then waits for it. */
  lemma RemovedDeviceParks(s: Supervisor, event: Event, orders: seq<seq<BindingKind>>, k: BindingKind, id: EndpointId,
                           gone: EndpointId)
    requires Concerns(s, event, orders, k, id) && TakesAway(event, gone)
    requires RunsOn(s.state, k, EndpointTarget(gone))
    ensures var s' := Step(s, event, orders);
            && k !in s'.workers && k in s'.state.bindings
            && s'.state.bindings[k].lifecycle == Waiting(DeviceUnavailable)
  {
    hide PinnedOk, Step, SomeAnswer;
    var decided := EventAnswers(s, event, orders, k, id);
    BatchMeans(event, k, s.state.bindings[k], id);
    TableAfter(s, event, orders, k);
  }

  /** A device that is back, or a start request, gets a waiting or stopped binding a worker on the
      endpoint it is pinned to, under ids that no decision had handed out before. */
  lemma AddedDeviceStarts(s: Supervisor, event: Event, orders: seq<seq<BindingKind>>, k: BindingKind, id: EndpointId)
    requires Concerns(s, event, orders, k, id) && BringsBack(event, k, id)
    requires var lc := s.state.bindings[k].lifecycle; lc.Waiting? || (lc.Stopped? && event.StartAll?)
    ensures StartedOn(s, Step(s, event, orders), k, id)
  {
    hide PinnedOk, Step, SomeAnswer;
    var decided := EventAnswers(s, event, orders, k, id);
    BatchMeans(event, k, s.state.bindings[k], id);
    TableAfter(s, event, orders, k);
  }

  ghost predicate StartedOn(s: Supervisor, s': Supervisor, k: BindingKind, id: EndpointId) {
    && k in s'.workers
    && s'.workers[k].target == EndpointTarget(id)
    && s'.workers[k].operationId >= s.state.nextOperationId && s'.workers[k].epoch >= s.state.nextStreamEpoch
    && k in s'.state.bindings
    && s'.state.bindings[k].lifecycle
       == Starting(s'.workers[k].operationId, s'.workers[k].epoch, EndpointTarget(id))
  }

  /** A retry that is due starts the binding that waits for it. */
  lemma RetryDueStarts(s: Supervisor, n: nat, orders: seq<seq<BindingKind>>, k: BindingKind, id: EndpointId)
    requires Concerns(s, RetryDue(k, n), orders, k, id)
    requires s.state.bindings[k].lifecycle == Waiting(RetryableFailure(n))
    ensures StartedOn(s, Step(s, RetryDue(k, n), orders), k, id)
  {
    hide PinnedOk, Step, Decide, DecideAll;
    assert orders == [orders[0]];
    DecidesOne(s.state, RetryTimerFired(k, n), orders[0]);
    assert BindingOk(s.state, k) by { PinnedBindingOk(s, k); }
    var target := RetryStarts(s.state, k, n, orders[0], k);
    assert target == Some(EndpointTarget(id));
    BatchRests(s, RetryDue(k, n), orders, k);
    TableAfter(s, RetryDue(k, n), orders, k);
  }

  lemma PinnedBindingOk(s: Supervisor, k: BindingKind)
    requires PinnedOk(s) && k in s.state.bindings
    ensures BindingOk(s.state, k)
  {
  }

  /** A worker leaves the table if and only if its capture reports an error, the endpoint it runs on
      goes away, or shutdown finds it running. */
  lemma WorkerLeavesExactly(s: Supervisor, event: Event, orders: seq<seq<BindingKind>>, k: BindingKind)
    requires PinnedOk(s) && Enabled(s, event) && Orders(s, event, orders) && k in s.workers
    ensures k in s.state.bindings
    ensures k !in Step(s, event, orders).workers <==>
              (event.StreamError? && event.stream == k) || HaltedByEvent(event, s.state.bindings[k].lifecycle)
  {
    assert TableOk(s, k);
    hide PinnedOk, Step, OnWorkerStarted, OnWorkerFailed;
    TableAfter(s, event, orders, k);
    if IsBatch(event) {
      BatchKeepsLive(s, event, orders, k);
    } else {
      ReportKeepsTable(s, event, orders, k);
    }
  }

  lemma ReportKeepsTable(s: Supervisor, event: Event, orders: seq<seq<BindingKind>>, k: BindingKind)
    requires PinnedOk(s) && Orders(s, event, orders) && k in s.workers && !IsBatch(event)
    ensures k !in Step(s, event, orders).workers <==> event.StreamError? && event.stream == k
  {
    hide StreamOk, Fail, Execute;
    match event
    case StreamError(j, error) => if j in s.workers { ErrorTakesWorker(s, j, error); }
        else { StrayReport(s, event, orders); }
    case StreamStarted(j) => if j in s.workers { StartReportConfirms(s, j); }
    case StreamStopped =>
    case JoinDone(_) =>
  }

  lemma BatchKeepsLive(s: Supervisor, event: Event, orders: seq<seq<BindingKind>>, k: BindingKind)
    requires PinnedOk(s) && Enabled(s, event) && Orders(s, event, orders) && IsBatch(event)
    requires k in s.state.bindings && s.state.bindings[k].lifecycle.Live()
    ensures k in Step(s, event, orders).state.bindings
    ensures Step(s, event, orders).state.bindings[k].lifecycle.Live()
            <==> !HaltedByEvent(event, s.state.bindings[k].lifecycle)
  {
    hide PinnedOk, DecideAll, Step;
    ReadyToDecide(s, event, orders);
    BatchStops(s.state, Batch(event), orders, k);
    BatchStaysStarting(s.state, Batch(event), orders, k);
    HaltsInBatch(event, s.state.bindings[k].lifecycle);
    BatchRests(s, event, orders, k);
  }

  /** A start under way is not disturbed by any batch. */
  lemma {:induction false} BatchStaysStarting(s: State, inputs: seq<DecisionInput>, orders: seq<seq<BindingKind>>,
                                              k: BindingKind)
    requires BatchReady(s, inputs, orders) && k in s.bindings && s.bindings[k].lifecycle.Live()
    ensures var s' := DecideAll(s, inputs, orders).state;
            && k in s'.bindings
            && (s.bindings[k].lifecycle.Starting? ==> s'.bindings[k].lifecycle == s.bindings[k].lifecycle)
  {
    hide Decide, WellFormed, Visits, PinnedOnly, NoRestart, Moves;
    if inputs != [] {
      var n := |inputs| - 1;
      BatchStaysStarting(s, inputs[..n], orders[..n], k);
      BatchFrames(s, inputs[..n], orders[..n]);
      var before := DecideAll(s, inputs[..n], orders[..n]).state;
      DecideMoves(before, inputs[n], orders[n], k);
      StartingStays(before, Decide(before, inputs[n], orders[n]), inputs[n], k);
    }
  }

  lemma StartingStays(s: State, o: Outcome, input: DecisionInput, k: BindingKind)
    requires k in s.bindings && k in o.state.bindings && MacosInput(input)
    requires Moves(s, o.state, input, k, EffectsFor(o.effects, k))
    ensures s.bindings[k].lifecycle.Starting? ==> o.state.bindings[k].lifecycle == s.bindings[k].lifecycle
  {
    hide EffectsFor;
  }

  // ---- Timers -----------------------------------------------------------------------

  ghost predicate NoRetries(effects: seq<Effect>) {
    forall i :: 0 <= i < |effects| ==> !effects[i].ScheduleRetry?
  }

  lemma PendingNeverRetries(s: Supervisor, effects: seq<Effect>)
    requires PendingOk(s, effects)
    ensures NoRetries(effects)
  {
    hide EffectsFor;
    forall i | 0 <= i < |effects| ensures !effects[i].ScheduleRetry? {
      var k := effects[i].binding;
      ActsInBatch(effects, i);
      assert Agrees(s, k, EffectsFor(effects, k));
      RebindingHistory.OnlyEffect(effects, i);
    }
  }

  lemma {:induction false} ExecuteKeepsTimers(s: Supervisor, effects: seq<Effect>)
    requires NoRetries(effects)
    ensures Execute(s, effects).timers == s.timers
    decreases StopCount(effects), |effects|, 1
  {
    hide ApplyAll;
    ApplyKeepsTimers(s, effects);
    ReconcileKeepsTable(ApplyAll(s, effects));
  }

  lemma {:induction false} ApplyKeepsTimers(s: Supervisor, effects: seq<Effect>)
    requires NoRetries(effects)
    ensures ApplyAll(s, effects).timers == s.timers
    decreases StopCount(effects), |effects|, 0
  {
    hide Execute, OnWorkerStopped, NoRetries;
    if effects != [] {
      var e, rest := effects[0], effects[1..];
      RetriesFirst(effects);
      match e
      case StartCapture(_, k, op, epoch, target) =>
        ApplyKeepsTimers(s.(workers := s.workers[k := Worker(op, epoch, target)]), rest);
      case StopCapture(_, k, op, epoch) =>
        var o := OnWorkerStopped(s.state, k, op, epoch);
        StopsAnswerWithoutStops(s.state, k, op, epoch);
        StopAnswerNeverRetries(s.state, k, op, epoch);
        var m := s.(workers := s.workers - {k}, state := o.state);
        ExecuteKeepsTimers(m, o.effects);
        ApplyKeepsTimers(Execute(m, o.effects), rest);
    }
  }

  lemma RetriesFirst(effects: seq<Effect>)
    requires NoRetries(effects) && effects != []
    ensures !effects[0].ScheduleRetry? && NoRetries(effects[1..])
  {
  }

  lemma StopAnswerNeverRetries(s: State, k: BindingKind, op: nat, epoch: nat)
    ensures NoRetries(OnWorkerStopped(s, k, op, epoch).effects)
  {
  }

  /** Only an error schedules a timer, and only its own firing takes one away. */
  lemma TimersExactly(s: Supervisor, event: Event, orders: seq<seq<BindingKind>>)
    requires PinnedOk(s) && Enabled(s, event) && Orders(s, event, orders)
    requires event.StreamError? ==> event.stream !in s.workers
    ensures Step(s, event, orders).timers
            == s.timers - (if event.RetryDue? then multiset{(event.binding, event.retryId)} else multiset{})
  {
    hide PinnedOk, DecideAll, Execute, PendingOk;
    match event
    case StreamStarted(k) =>
      if k in s.workers {
        StartedKeepsTimers(s, k);
      }
    case StreamError(_, _) =>
    case StreamStopped =>
    case JoinDone(_) =>
    case _ =>
      BatchIsPending(s, event, orders);
      PendingNeverRetries(Decided(s, event, orders), DecideAll(s.state, Batch(event), orders).effects);
      ExecuteKeepsTimers(Decided(s, event, orders), DecideAll(s.state, Batch(event), orders).effects);
  }

  lemma StartedKeepsTimers(s: Supervisor, k: BindingKind)
    requires PinnedOk(s) && k in s.workers
    ensures Step(s, StreamStarted(k), []).timers == s.timers
  {
    hide StreamOk, Step;
    StartReportConfirms(s, k);
  }
}
