/**
  What each capture event does to the workers of the Windows supervisor.

  Three events say that a capture has died; every other one leaves the worker alone, unless it
  asks for a stop. The statements are about the worker table, the joiners, the timers and the
  bindings, event by event and over runs.
*/
module WindowsResponses {
  import opened Prelude
  import opened Rebinding
  import opened RebindingMoves
  import opened RebindingHistory
  import opened RebindingResponses
  import opened WindowsModel
  import opened WindowsProofs

  // ---- Deaths -----------------------------------------------------------------------

  /** The events by which a capture dies on its own. */
  ghost predicate Dies(event: Event, k: BindingKind) {
    match event
    case StreamError(j, _) => j == k
    case StreamStopped(j, deviceLost) => j == k && deviceLost
    case SessionDisconnected(j, _) => j == k
    case _ => false
  }

  /** The error a death is reported with. */
  ghost function CauseOf(event: Event): string {
    match event
    case StreamError(_, error) => error
    case SessionDisconnected(_, reason) => "audio session disconnected (reason=" + reason + ")"
    case _ => "worker stopped unexpectedly (exit=DeviceLost)"
  }

  /** A death takes the worker out of the table and hands its thread to a joiner, takes the binding
      out of Starting or Running, counts one failure and schedules one retry until the cap is
      passed, and changes nothing else. */
  lemma DeathTakesWorker(s: Supervisor, event: Event, order: seq<BindingKind>, k: BindingKind)
    requires SupervisorOk(s) && k in s.workers && Dies(event, k)
    ensures k in s.state.bindings
    ensures var s' := Step(s, event, order);
            var w, b := s.workers[k], s.state.bindings[k];
            var n := b.retryAttempt + 1;
            && s'.workers == s.workers - {k}
            && s'.joiners == s.joiners[w.thread := Joiner(k, w.operationId, w.epoch)]
            && s'.pendingJoins == s.pendingJoins + 1
            && s'.joined == s.joined && s'.nextThread == s.nextThread && s'.forwarded == s.forwarded
            && s'.timers == s.timers + (if n <= 5 then multiset{(k, n)} else multiset{})
            && s'.state.shutdown == s.state.shutdown && s'.state.defaultRoutes == s.state.defaultRoutes
            && s'.state.bindings == s.state.bindings[k := b.(
                 lifecycle := if n <= 5 then Waiting(RetryableFailure(n)) else Failed(n, CauseOf(event)),
                 retryAttempt := n)]
  {
    hide Decide, Deliver, CoreOk;
    FailureInDetail(s, k, CauseOf(event), order);
    assert TableOk(s, k);
    FailureReportRetries(s.state, k, s.workers[k].operationId, CauseOf(event), order, k);
  }

  /** A stop on request, a stall, and a death of a capture that is not in the table change nothing. */
  lemma NoDeath(s: Supervisor, event: Event, order: seq<BindingKind>, k: BindingKind)
    requires || event.StreamStalled?
             || (event.StreamStopped? && !event.deviceLost)
             || (k !in s.workers && (Dies(event, k) || event == StreamStarted(k)))
    ensures Step(s, event, order) == s
  {
  }

  // ---- What a decision does to one worker -------------------------------------------

  /** A worker that no effect is about stays as it is. */
  lemma {:induction false} ExecuteLeaves(s: Supervisor, effects: seq<Effect>, k: BindingKind)
    requires EffectsFor(effects, k) == []
    ensures k in Execute(s, effects).workers <==> k in s.workers
    ensures k in s.workers ==> Execute(s, effects).workers[k] == s.workers[k]
    decreases |effects|
  {
    if effects != [] {
      ExecuteLeaves(ExecuteOne(s, effects[0]), effects[1..], k);
    }
  }

  lemma DeliverLeaves(s: Supervisor, input: DecisionInput, order: seq<BindingKind>, k: BindingKind)
    requires EffectsFor(Decide(s.state, input, order).effects, k) == []
    ensures var s' := Deliver(s, input, order);
            && (k in s'.workers <==> k in s.workers)
            && (k in s.workers ==> s'.workers[k] == s.workers[k])
  {
    hide Decide;
    var o := Decide(s.state, input, order);
    ExecuteLeaves(s.(state := o.state), o.effects, k);
  }

  lemma {:induction false} ExecuteKeepsJoiners(s: Supervisor, effects: seq<Effect>)
    requires PendingOk(s, effects)
    ensures forall t :: t in s.joiners ==> t in Execute(s, effects).joiners
                                           && Execute(s, effects).joiners[t] == s.joiners[t]
    decreases |effects|
  {
    hide CoreOk, ExecuteOne;
    if effects != [] {
      assert effects == [effects[0]] + effects[1..];
      ExecuteOneKeeps(s, effects[0], effects[1..]);
      ExecuteKeepsJoiners(ExecuteOne(s, effects[0]), effects[1..]);
      OneKeepsJoiners(s, effects[0]);
    }
  }

  lemma OneKeepsJoiners(s: Supervisor, e: Effect)
    requires CoreOk(s)
    ensures forall t :: t in s.joiners ==> t in ExecuteOne(s, e).joiners && ExecuteOne(s, e).joiners[t] == s.joiners[t]
  {
    CoreParts(s);
    hide CoreOk, WellFormed, EndpointsOnly, FramesOk, OperationsAccounted;
  }

  /** The worker a stop is for leaves the table, and its thread goes to a joiner that carries the
      ids of the stop. */
  lemma {:induction false} ExecuteHandsOver(s: Supervisor, effects: seq<Effect>, k: BindingKind, stop: Effect)
    requires PendingOk(s, effects) && k in s.workers
    requires EffectsFor(effects, k) == [stop] && stop.StopCapture?
    ensures var s' := Execute(s, effects);
            var t := s.workers[k].thread;
            && k !in s'.workers
            && t in s'.joiners && s'.joiners[t] == Joiner(k, stop.operationId, stop.epoch)
    decreases |effects|
  {
    hide CoreOk, Agrees, Buildable;
    var e, rest := effects[0], effects[1..];
    assert effects == [e] + rest;
    var m := ExecuteOne(s, e);
    ExecuteOneKeeps(s, e, rest);
    if e.binding == k {
      var es := EffectsFor(rest, k);
      assert [stop] == [e] + es && |[e] + es| == 1 + |es| && ([e] + es)[0] == e;
      ExecuteKeepsJoiners(m, rest);
      ExecuteLeaves(m, rest, k);
    } else {
      ExecuteHandsOver(m, rest, k, stop);
    }
  }

  lemma DeliverHandsOver(s: Supervisor, input: DecisionInput, order: seq<BindingKind>, k: BindingKind,
                         plan: AfterStop)
    requires SupervisorOk(s) && Visits(order, s.state.bindings.Keys) && k in s.workers
    requires k in s.state.bindings && s.state.bindings[k].lifecycle.Running?
    requires IsStopped(s.state, Decide(s.state, input, order), k, plan)
    requires !(input.Observed? && (input.observation.WorkerFailed? || input.observation.WorkerStarted?))
    ensures HandsOver(s, Deliver(s, input, order), k, plan)
  {
    hide Decide, CoreOk, ReadyFor, PendingOk, Execute;
    assert TableOk(s, k);
    var o := Decide(s.state, input, order);
    SettledIsReady(s, input);
    DecidePends(s, input, order);
    DeliverDecides(s, input, order);
    var es := EffectsFor(o.effects, k);
    assert es == [es[0]];
    ExecuteHandsOver(s.(state := o.state), o.effects, k, es[0]);
  }

  /** The worker is out of the table, with a joiner of its own ids, and its binding waits for it. */
  ghost predicate HandsOver(s: Supervisor, s': Supervisor, k: BindingKind, plan: AfterStop)
    requires k in s.workers
  {
    var w := s.workers[k];
    && k !in s'.workers
    && w.thread in s'.joiners && s'.joiners[w.thread] == Joiner(k, w.operationId, w.epoch)
    && k in s'.state.bindings && s'.state.bindings[k].lifecycle == Stopping(w.operationId, w.epoch, plan)
  }

  // ---- When a worker leaves ---------------------------------------------------------

  /** The events that ask for a capture that runs to be stopped. */
  ghost predicate AsksToStop(s: Supervisor, event: Event, k: BindingKind, plan: AfterStop) {
    && k in s.state.bindings && s.state.bindings[k].lifecycle.Running?
    && var target := s.state.bindings[k].lifecycle.target;
       match event
       case ShutdownSignal => plan == RemainStopped
       case DeviceChange(EndpointRemoved(id)) =>
         target == EndpointTarget(id) && plan == WaitForRecovery(DeviceUnavailable)
       case DeviceChange(DefaultEndpointChanged(flow, role, id)) =>
         Follows(s.state, k, flow, role) && Some(target) != TargetOf(id) && plan == ResolveAndStart
       case _ => false
  }

  ghost predicate Stays(s: Supervisor, s': Supervisor, k: BindingKind)
    requires k in s.workers
  {
    k in s'.workers && s'.workers[k] == s.workers[k]
  }

  lemma StopLeaves(s: Supervisor, event: Event, order: seq<BindingKind>, k: BindingKind, plan: AfterStop)
    requires SupervisorOk(s) && Visits(order, s.state.bindings.Keys) && k in s.workers
    requires Enabled(s, event) && AsksToStop(s, event, k, plan)
    ensures HandsOver(s, Step(s, event, order), k, plan)
  {
    hide Decide, Deliver, CoreOk, HandsOver;
    assert EndpointsOnly(s.state) by { CoreParts(s); }
    match event
    case ShutdownSignal =>
      ShutdownStops(s.state, order, k);
      DeliverHandsOver(s, ShutdownRequested, order, k, plan);
    case DeviceChange(obs) =>
      match obs {
        case EndpointRemoved(id) => RemovalStops(s.state, id, order, k);
        case DefaultEndpointChanged(flow, role, id) => NewDefaultMoves(s.state, flow, role, id, order, k);
      }
      DeliverHandsOver(s, Observed(obs), order, k, plan);
  }

  /** Every other event leaves the worker exactly as it is. */
  lemma OthersLeave(s: Supervisor, event: Event, order: seq<BindingKind>, k: BindingKind)
    requires SupervisorOk(s) && Visits(order, s.state.bindings.Keys) && k in s.workers
    requires Enabled(s, event) && !Dies(event, k)
    requires forall plan :: !AsksToStop(s, event, k, plan)
    ensures Stays(s, Step(s, event, order), k)
  {
    hide Decide, Deliver, CoreOk, Fail, PointsAt;
    assert TableOk(s, k);
    match event
    case Frame(_, _) =>
    case StreamStarted(j) =>
      if j in s.workers {
        var w := s.workers[j];
        StartReportRuns(s.state, j, w.operationId, w.epoch, w.target, order, k);
        DeliverLeaves(s, Observed(WorkerStarted(j, w.operationId, w.epoch, w.target)), order, k);
      }
    case StreamError(j, _) => OtherDeathLeaves(s, event, order, j, k);
    case StreamStalled(_) =>
    case StreamStopped(j, lost) => if lost { OtherDeathLeaves(s, event, order, j, k); }
    case SessionDisconnected(j, _) => OtherDeathLeaves(s, event, order, j, k);
    case DeviceChange(obs) => ChangeLeaves(s, obs, order, k);
    case JoinDone(t) =>
      var j := s.joiners[t];
      var _ := StopReportFollowsPlan(s.state, j.binding, j.operationId, j.epoch, order, k);
      DeliverLeaves(JoinReported(s, t), Observed(WorkerStopped(j.binding, j.operationId, j.epoch)), order, k);
    case RetryDue(j, n) =>
      assert BindingOk(s.state, k) by { CoreParts(s); OkOf(s.state, k); }
      var _ := RetryStarts(s.state, j, n, order, k);
      DeliverLeaves(s.(timers := s.timers - multiset{(j, n)}), RetryTimerFired(j, n), order, k);
    case StartRequest(j) =>
      var _ := UserStartStarts(s.state, j, order, k);
      DeliverLeaves(s, UserStart(j), order, k);
    case ShutdownSignal =>
      assert !AsksToStop(s, event, k, RemainStopped);
      ShutdownStops(s.state, order, k);
      DeliverLeaves(s, ShutdownRequested, order, k);
  }

  lemma OtherDeathLeaves(s: Supervisor, event: Event, order: seq<BindingKind>, j: BindingKind, k: BindingKind)
    requires SupervisorOk(s) && k in s.workers && j != k && Dies(event, j)
    ensures Stays(s, Step(s, event, order), k)
  {
    hide Decide, Deliver, CoreOk, Fail;
    if j in s.workers {
      DeathTakesWorker(s, event, order, j);
    } else {
      NoDeath(s, event, order, j);
    }
  }

  lemma ChangeLeaves(s: Supervisor, obs: Observation, order: seq<BindingKind>, k: BindingKind)
    requires SupervisorOk(s) && Visits(order, s.state.bindings.Keys) && k in s.workers && IsDeviceChange(obs)
    requires forall plan :: !AsksToStop(s, DeviceChange(obs), k, plan)
    ensures Stays(s, Step(s, DeviceChange(obs), order), k)
  {
    hide Decide, Deliver, CoreOk;
    assert TableOk(s, k);
    match obs {
      case EndpointRemoved(id) =>
        assert !AsksToStop(s, DeviceChange(obs), k, WaitForRecovery(DeviceUnavailable));
        RemovalStops(s.state, id, order, k);
      case EndpointAdded(id) => AdditionStarts(s.state, id, order, k);
      case DefaultEndpointChanged(flow, role, id) =>
        assert !AsksToStop(s, DeviceChange(obs), k, ResolveAndStart);
        NewDefaultMoves(s.state, flow, role, id, order, k);
    }
    assert EndpointsOnly(s.state) by { CoreParts(s); }
    DeliverLeaves(s, Observed(obs), order, k);
  }

  ghost predicate Leaves(s: Supervisor, event: Event, k: BindingKind) {
    Dies(event, k) || exists plan :: AsksToStop(s, event, k, plan)
  }

  /** A worker leaves the table if and only if its capture dies or is asked to stop, and otherwise
      it is not replaced either. */
  lemma WorkerLeavesExactly(s: Supervisor, event: Event, order: seq<BindingKind>, k: BindingKind)
    requires SupervisorOk(s) && Visits(order, s.state.bindings.Keys) && k in s.workers && Enabled(s, event)
    ensures k !in Step(s, event, order).workers <==> Leaves(s, event, k)
    ensures k in Step(s, event, order).workers ==> Stays(s, Step(s, event, order), k)
  {
    hide Step, SupervisorOk, AsksToStop;
    if Dies(event, k) {
      DeathTakesWorker(s, event, order, k);
    } else if exists plan :: AsksToStop(s, event, k, plan) {
      var plan :| AsksToStop(s, event, k, plan);
      StopLeaves(s, event, order, k, plan);
    } else {
      OthersLeave(s, event, order, k);
    }
  }

  /** Over any run, a worker stays in the table, the same one, for as long as its capture neither
      dies nor is asked to stop. */
  lemma {:induction false} WorkerStays(trace: seq<Supervisor>, deliveries: seq<Delivery>, i: nat, j: nat,
                                       k: BindingKind)
    requires IsRun(trace, deliveries) && JustPinned(trace[0]) && i <= j <= |deliveries|
    requires k in trace[i].workers
    requires forall m :: i <= m < j ==> !Leaves(trace[m], deliveries[m].event, k)
    ensures k in trace[j].workers && trace[j].workers[k] == trace[i].workers[k]
  {
    hide Step, JustPinned, Leaves, SupervisorOk;
    if i < j {
      WorkerStays(trace, deliveries, i, j - 1, k);
      RunsStayOk(trace, deliveries, j - 1);
      var d := deliveries[j - 1];
      assert IsStep(trace[j - 1], d, trace[j]);
      WorkerLeavesExactly(trace[j - 1], d.event, d.order, k);
    }
  }

  // ---- Starts and frames ------------------------------------------------------------

  /** A worker for `k` on endpoint `id`, under ids that no decision had handed out before. */
  ghost predicate StartedOn(s: Supervisor, s': Supervisor, k: BindingKind, id: EndpointId) {
    && k in s'.workers
    && s'.workers[k].target == EndpointTarget(id)
    && s'.workers[k].operationId >= s.state.nextOperationId && s'.workers[k].epoch >= s.state.nextStreamEpoch
    && k in s'.state.bindings
    && s'.state.bindings[k].lifecycle
       == Starting(s'.workers[k].operationId, s'.workers[k].epoch, EndpointTarget(id))
  }

  /** Before shutdown a pinned binding at rest gets a worker on its endpoint when it is asked to
      start, when its endpoint comes back, and when its retry is due. */
  lemma PinnedStarts(s: Supervisor, event: Event, order: seq<BindingKind>, k: BindingKind, id: EndpointId)
    requires SupervisorOk(s) && Visits(order, s.state.bindings.Keys) && Enabled(s, event) && !s.state.shutdown
    requires k in s.state.bindings && s.state.bindings[k].selection == Endpoint(Pinned(id))
    requires var lc := s.state.bindings[k].lifecycle;
             || (event == StartRequest(k) && (lc.Stopped? || lc.Waiting?))
             || (event == DeviceChange(EndpointAdded(id)) && lc.Waiting?)
             || (event.RetryDue? && event.binding == k && lc == Waiting(RetryableFailure(event.retryId)))
    ensures StartedOn(s, Step(s, event, order), k, id)
  {
    hide Decide, Deliver, CoreOk;
    StepKeeps(s, event, order);
    assert TableOk(Step(s, event, order), k);
    assert BindingOk(s.state, k) by { CoreParts(s); OkOf(s.state, k); }
    match event
    case StartRequest(_) =>
      var target := UserStartStarts(s.state, k, order, k);
      assert target == Some(EndpointTarget(id));
      DeliverDecides(s, UserStart(k), order);
    case DeviceChange(obs) =>
      AdditionStarts(s.state, id, order, k);
      DeliverDecides(s, Observed(obs), order);
    case RetryDue(_, n) =>
      var target := RetryStarts(s.state, k, n, order, k);
      assert target == Some(EndpointTarget(id));
      DeliverDecides(s.(timers := s.timers - multiset{(k, n)}), RetryTimerFired(k, n), order);
  }

  /** A start report makes the binding of a registered worker run where it was started, with its
      failures forgotten, and leaves worker, threads and timers alone. */
  lemma StartReportConfirms(s: Supervisor, order: seq<BindingKind>, k: BindingKind)
    requires SupervisorOk(s) && k in s.workers
    ensures k in s.state.bindings
    ensures var w, b := s.workers[k], s.state.bindings[k];
            Step(s, StreamStarted(k), order)
            == s.(state := s.state.(bindings := s.state.bindings[k := if b.lifecycle.Running? then b else b.(
                    lifecycle := Running(w.operationId, w.epoch, w.target), retryAttempt := 0)]))
  {
    assert TableOk(s, k);
    hide CoreOk;
    var w := s.workers[k];
    var o := Decide(s.state, Observed(WorkerStarted(k, w.operationId, w.epoch, w.target)), order);
    assert o.effects == [];
    if s.state.bindings[k].lifecycle.Running? {
      assert s.state.bindings[k := s.state.bindings[k]] == s.state.bindings;
    }
  }

  /** The frames that arrived while their binding was running under their epoch, in order. */
  ghost function Accepted(trace: seq<Supervisor>, deliveries: seq<Delivery>, n: nat): seq<(BindingKind, nat)>
    requires |trace| == |deliveries| + 1 && n <= |deliveries|
  {
    if n == 0 then []
    else
      var before, bindings := Accepted(trace, deliveries, n - 1), trace[n - 1].state.bindings;
      match deliveries[n - 1].event
      case Frame(k, epoch) =>
        if k in bindings && bindings[k].lifecycle.Running? && bindings[k].lifecycle.epoch == epoch
        then before + [(k, epoch)] else before
      case _ => before
  }

  lemma {:induction false} ExecuteKeepsFrames(s: Supervisor, effects: seq<Effect>)
    ensures Execute(s, effects).forwarded == s.forwarded
    decreases |effects|
  {
    if effects != [] {
      ExecuteKeepsFrames(ExecuteOne(s, effects[0]), effects[1..]);
    }
  }

  lemma DeliverKeepsFrames(s: Supervisor, input: DecisionInput, order: seq<BindingKind>)
    ensures Deliver(s, input, order).forwarded == s.forwarded
  {
    hide Decide;
    var o := Decide(s.state, input, order);
    ExecuteKeepsFrames(s.(state := o.state), o.effects);
  }

  lemma OnlyFramesForward(s: Supervisor, event: Event, order: seq<BindingKind>)
    requires Enabled(s, event) && !event.Frame?
    ensures Step(s, event, order).forwarded == s.forwarded
  {
    hide Decide, Deliver;
    match event
    case StreamStarted(k) =>
      if k in s.workers {
        var w := s.workers[k];
        DeliverKeepsFrames(s, Observed(WorkerStarted(k, w.operationId, w.epoch, w.target)), order);
      }
    case StreamError(k, error) => FailKeepsFrames(s, k, error, order);
    case StreamStalled(_) =>
    case StreamStopped(k, _) => FailKeepsFrames(s, k, "worker stopped unexpectedly (exit=DeviceLost)", order);
    case SessionDisconnected(k, reason) =>
      FailKeepsFrames(s, k, "audio session disconnected (reason=" + reason + ")", order);
    case DeviceChange(obs) => DeliverKeepsFrames(s, Observed(obs), order);
    case JoinDone(t) =>
      var j := s.joiners[t];
      DeliverKeepsFrames(JoinReported(s, t), Observed(WorkerStopped(j.binding, j.operationId, j.epoch)), order);
    case RetryDue(k, n) =>
      DeliverKeepsFrames(s.(timers := s.timers - multiset{(k, n)}), RetryTimerFired(k, n), order);
    case StartRequest(k) => DeliverKeepsFrames(s, UserStart(k), order);
    case ShutdownSignal => DeliverKeepsFrames(s, ShutdownRequested, order);
  }

  lemma FailKeepsFrames(s: Supervisor, k: BindingKind, error: string, order: seq<BindingKind>)
    ensures Fail(s, k, error, order).forwarded == s.forwarded
  {
    hide Decide, Deliver;
    if k in s.workers {
      DeliverKeepsFrames(s, Observed(WorkerFailed(k, s.workers[k].operationId, error)), order);
    }
  }

  /** Over any run, the frames passed on are exactly those that arrived while their binding was
      running under their epoch. */
  lemma {:induction false} FramesExactly(trace: seq<Supervisor>, deliveries: seq<Delivery>, n: nat)
    requires IsRun(trace, deliveries) && n <= |deliveries|
    ensures trace[n].forwarded == trace[0].forwarded + Accepted(trace, deliveries, n)
  {
    hide Decide, Deliver, Fail, Visits, Enabled;
    if n > 0 {
      var d := deliveries[n - 1];
      FramesExactly(trace, deliveries, n - 1);
      assert IsStep(trace[n - 1], d, trace[n]);
      if !d.event.Frame? {
        OnlyFramesForward(trace[n - 1], d.event, d.order);
      }
    }
  }

  // ---- Timers -----------------------------------------------------------------------

  ghost predicate NoRetries(effects: seq<Effect>) {
    forall i :: 0 <= i < |effects| ==> !effects[i].ScheduleRetry?
  }

  lemma OnlyFailuresRetry(s: State, input: DecisionInput, order: seq<BindingKind>)
    requires WellFormed(s) && Visits(order, s.bindings.Keys)
    requires !(input.Observed? && input.observation.WorkerFailed?)
    ensures NoRetries(Decide(s, input, order).effects)
  {
    hide Decide, WellFormed;
    var o := Decide(s, input, order);
    forall i | 0 <= i < |o.effects| ensures !o.effects[i].ScheduleRetry? {
      EffectMeans(s, input, order, i);
      DecideMoves(s, input, order, o.effects[i].binding);
    }
  }

  lemma {:induction false} ExecuteKeepsTimers(s: Supervisor, effects: seq<Effect>)
    requires NoRetries(effects)
    ensures Execute(s, effects).timers == s.timers
    decreases |effects|
  {
    if effects != [] {
      ExecuteKeepsTimers(ExecuteOne(s, effects[0]), effects[1..]);
    }
  }

  lemma DeliverKeepsTimers(s: Supervisor, input: DecisionInput, order: seq<BindingKind>)
    requires WellFormed(s.state) && Visits(order, s.state.bindings.Keys)
    requires !(input.Observed? && input.observation.WorkerFailed?)
    ensures Deliver(s, input, order).timers == s.timers
  {
    hide Decide, WellFormed;
    OnlyFailuresRetry(s.state, input, order);
    var o := Decide(s.state, input, order);
    ExecuteKeepsTimers(s.(state := o.state), o.effects);
  }

  /** Only a death schedules a timer, and only its own firing takes one away. */
  lemma TimersExactly(s: Supervisor, event: Event, order: seq<BindingKind>)
    requires SupervisorOk(s) && Visits(order, s.state.bindings.Keys) && Enabled(s, event)
    requires forall k :: k in s.workers ==> !Dies(event, k)
    ensures Step(s, event, order).timers
            == s.timers - (if event.RetryDue? then multiset{(event.binding, event.retryId)} else multiset{})
  {
    CoreParts(s);
    hide Decide, Deliver, SupervisorOk, Dies, WellFormed;
    match event
    case StreamStarted(k) =>
      if k in s.workers {
        var w := s.workers[k];
        DeliverKeepsTimers(s, Observed(WorkerStarted(k, w.operationId, w.epoch, w.target)), order);
      }
    case DeviceChange(obs) => DeliverKeepsTimers(s, Observed(obs), order);
    case JoinDone(t) =>
      var j := s.joiners[t];
      DeliverKeepsTimers(JoinReported(s, t), Observed(WorkerStopped(j.binding, j.operationId, j.epoch)), order);
    case RetryDue(k, n) =>
      DeliverKeepsTimers(s.(timers := s.timers - multiset{(k, n)}), RetryTimerFired(k, n), order);
    case StartRequest(k) => DeliverKeepsTimers(s, UserStart(k), order);
    case ShutdownSignal => DeliverKeepsTimers(s, ShutdownRequested, order);
    case Frame(_, _) =>
    case _ => UnknownDeath(s, event, order);
  }

  lemma UnknownDeath(s: Supervisor, event: Event, order: seq<BindingKind>)
    requires event.StreamError? || event.StreamStalled? || event.StreamStopped? || event.SessionDisconnected?
    requires forall k :: k in s.workers ==> !Dies(event, k)
    ensures Step(s, event, order) == s
  {
    if !event.StreamStalled? && event.stream in s.workers {
      assert !Dies(event, event.stream);
    }
  }
}
