/**
  What each input must achieve, from the event to the capture that follows it.

  The first part says what one decision does to one binding, input by input. The second part
  follows a binding over a run: from the event that stops it, through whatever is reported
  meanwhile, to the matching stop report and the next start. Statements are about events,
  bindings and effects only.
*/
module RebindingResponses {
  import opened Prelude
  import opened Rebinding
  import opened RebindingMoves
  import opened RebindingHistory
  import opened IterationOrder

  // ---- The ways a binding can answer ------------------------------------------------

  ghost predicate Untouched(s: State, o: Outcome, k: BindingKind)
    requires k in s.bindings
  {
    k in o.state.bindings && o.state.bindings[k] == s.bindings[k] && EffectsFor(o.effects, k) == []
  }

  /** The binding is now `b`, and nothing was asked of its worker. */
  ghost predicate Becomes(o: Outcome, k: BindingKind, b: CaptureBinding) {
    k in o.state.bindings && o.state.bindings[k] == b && EffectsFor(o.effects, k) == []
  }

  /** A running binding is stopped by one request that carries its own ids. */
  ghost predicate IsStopped(s: State, o: Outcome, k: BindingKind, plan: AfterStop)
    requires k in s.bindings && s.bindings[k].lifecycle.Running?
  {
    var b := s.bindings[k];
    var es := EffectsFor(o.effects, k);
    && k in o.state.bindings
    && o.state.bindings[k] == b.(lifecycle := Stopping(b.lifecycle.operationId, b.lifecycle.epoch, plan))
    && |es| == 1 && es[0] == StopCapture(es[0].effectId, k, b.lifecycle.operationId, b.lifecycle.epoch)
  }

  /** The binding is started on `target` by one request that carries ids never used before. */
  ghost predicate IsStarted(s: State, o: Outcome, k: BindingKind, target: ResolvedTarget)
    requires k in s.bindings
  {
    var es := EffectsFor(o.effects, k);
    && k in o.state.bindings
    && |es| == 1 && es[0].StartCapture? && es[0].binding == k
    && es[0].target == target
    && s.nextOperationId <= es[0].operationId < o.state.nextOperationId
    && s.nextStreamEpoch <= es[0].epoch < o.state.nextStreamEpoch
    && o.state.bindings[k] == s.bindings[k].(lifecycle := Starting(es[0].operationId, es[0].epoch, target))
  }

  /** Started on `target`, or without one left waiting for a device. */
  ghost predicate IsStartedOn(s: State, o: Outcome, k: BindingKind, target: Option<ResolvedTarget>)
    requires k in s.bindings
  {
    if target.Some? then IsStarted(s, o, k, target.value)
    else Becomes(o, k, s.bindings[k].(lifecycle := Waiting(DeviceUnavailable)))
  }

  /** Where a selection points: a pinned id at itself, a follower at the default of its flow and
      role, a process at its pid. */
  ghost predicate PointsAt(selection: BindingSelection, routes: Routes, target: Option<ResolvedTarget>) {
    && (forall id :: selection == Endpoint(Pinned(id)) ==> target == Some(EndpointTarget(id)))
    && (forall flow, role :: selection == Endpoint(FollowDefault(flow, role)) ==>
          && (forall id :: (flow, role) in routes && routes[(flow, role)] == Some(id) ==>
                target == Some(EndpointTarget(id)))
          && ((flow, role) !in routes || routes[(flow, role)] == None ==> target == None))
    && (forall exe, pid :: selection == Process(exe, Some(pid)) ==> target == Some(ProcessTarget(pid)))
    && (forall exe :: selection == Process(exe, None) ==> target == None)
  }

  ghost predicate CanStart(s: State, k: BindingKind)
    requires k in s.bindings
  {
    !s.shutdown && (s.bindings[k].lifecycle.Stopped? || s.bindings[k].lifecycle.Waiting?)
  }

  ghost predicate RunsOn(s: State, k: BindingKind, target: ResolvedTarget)
    requires k in s.bindings
  {
    s.bindings[k].lifecycle.Running? && s.bindings[k].lifecycle.target == target
  }

  // ---- Device events ----------------------------------------------------------------

  lemma PassLeaves(s: State, reaction: Reaction, kinds: seq<BindingKind>, k: BindingKind)
    requires k in s.bindings && k !in kinds
    ensures Untouched(s, ReactAll(s, reaction, kinds), k)
  {
    hide ReactAll, EffectsFor;
    ReactAllFrames(s, reaction, kinds);
  }

  lemma VisitedOnly(s: State, obs: Observation, order: seq<BindingKind>)
    requires Visits(order, s.bindings.Keys)
    ensures Distinct(Selected(s, obs, order)) && forall k :: k in Selected(s, obs, order) ==> k in s.bindings
    ensures forall k :: k in s.bindings ==> (k in Selected(s, obs, order) <==> Selects(s, obs, k))
  {
    SelectedIsSound(s, obs, order);
  }

  lemma PassStops(s: State, plan: AfterStop, kinds: seq<BindingKind>, k: BindingKind)
    requires Distinct(kinds) && k in kinds && forall j :: j in kinds ==> j in s.bindings
    requires s.bindings[k].lifecycle.Running?
    ensures IsStopped(s, ReactAll(s, StopThen(plan), kinds), k, plan)
  {
    hide ReactAll;
    PassInClosedForm(s, StopThen(plan), kinds, k);
    SameEffect(EffectsFor(ReactAll(s, StopThen(plan), kinds).effects, k),
               React(Shifted(s, 0), StopThen(plan), k).effects);
  }

  lemma SameEffect(xs: seq<Effect>, ys: seq<Effect>)
    requires Unnumbered(xs) == Unnumbered(ys)
    ensures |xs| == |ys|
    ensures |xs| == 1 ==> xs[0] == ys[0].(effectId := xs[0].effectId)
  {
    assert |Unnumbered(xs)| == |xs| && |Unnumbered(ys)| == |ys|;
    if |xs| == 1 {
      assert Unnumbered(xs)[0] == Unnumbered(ys)[0];
    }
  }

  lemma PassStarts(s: State, reaction: Reaction, kinds: seq<BindingKind>, k: BindingKind)
    requires Distinct(kinds) && k in kinds && forall j :: j in kinds ==> j in s.bindings
    requires reaction.StartNow? || (reaction.Rebind? && s.bindings[k].lifecycle.Waiting?)
    requires CanStart(s, k)
    ensures IsStartedOn(s, ReactAll(s, reaction, kinds), k, ResolveTarget(s.bindings[k].selection, s.defaultRoutes))
  {
    hide ReactAll;
    var o := ReactAll(s, reaction, kinds);
    PassInClosedForm(s, reaction, kinds, k);
    ReactAllFrames(s, reaction, kinds);
    PassCounts(s, reaction, kinds);
    var n := if Starts(s, reaction, k) then IndexOf(Starters(s, reaction, kinds), k) else 0;
    SameEffect(EffectsFor(o.effects, k), React(Shifted(s, n), reaction, k).effects);
  }

  /** A removed endpoint stops what runs on it, to wait for it, and nothing else. */
  lemma RemovalStops(s: State, id: EndpointId, order: seq<BindingKind>, k: BindingKind)
    requires Visits(order, s.bindings.Keys) && k in s.bindings
    ensures var o := Decide(s, Observed(EndpointRemoved(id)), order);
            if k != ProcessLoopback && RunsOn(s, k, EndpointTarget(id))
            then IsStopped(s, o, k, WaitForRecovery(DeviceUnavailable))
            else Untouched(s, o, k)
  {
    hide ReactAll, Selected, IsStopped, Untouched;
    var obs := EndpointRemoved(id);
    VisitedOnly(s, obs, order);
    if Selects(s, obs, k) {
      PassStops(s, WaitForRecovery(DeviceUnavailable), Selected(s, obs, order), k);
    } else {
      PassLeaves(s, StopThen(WaitForRecovery(DeviceUnavailable)), Selected(s, obs, order), k);
    }
  }

  /** A plugged-in endpoint starts whatever waits and is pinned to it, and nothing else. */
  lemma AdditionStarts(s: State, id: EndpointId, order: seq<BindingKind>, k: BindingKind)
    requires Visits(order, s.bindings.Keys) && k in s.bindings
    ensures var o := Decide(s, Observed(EndpointAdded(id)), order);
            if !s.shutdown && s.bindings[k].lifecycle.Waiting? && s.bindings[k].selection == Endpoint(Pinned(id))
            then IsStarted(s, o, k, EndpointTarget(id))
            else Untouched(s, o, k)
  {
    hide ReactAll, Selected, IsStarted, Untouched;
    var obs := EndpointAdded(id);
    var picked := Selected(s, obs, order);
    VisitedOnly(s, obs, order);
    if !Selects(s, obs, k) {
      PassLeaves(s, StartNow, picked, k);
    } else if s.shutdown {
      PassIdles(s, StartNow, picked, k);
    } else {
      PassStarts(s, StartNow, picked, k);
    }
  }

  lemma PassIdles(s: State, reaction: Reaction, kinds: seq<BindingKind>, k: BindingKind)
    requires Distinct(kinds) && k in kinds && forall j :: j in kinds ==> j in s.bindings
    requires React(s, reaction, k) == Outcome(s, []) && React(Shifted(s, 0), reaction, k) == Outcome(Shifted(s, 0), [])
    ensures Untouched(s, ReactAll(s, reaction, kinds), k)
  {
    hide ReactAll, React;
    PassInClosedForm(s, reaction, kinds, k);
    SameEffect(EffectsFor(ReactAll(s, reaction, kinds).effects, k), []);
  }

  ghost predicate Follows(s: State, k: BindingKind, flow: DataFlow, role: DeviceRole)
    requires k in s.bindings
  {
    s.bindings[k].selection == Endpoint(FollowDefault(flow, role))
  }

  ghost function TargetOf(id: Option<EndpointId>): Option<ResolvedTarget> {
    if id.Some? then Some(EndpointTarget(id.value)) else None
  }

  /** A new default moves a running follower that is not on it, leaves one that is, starts a
      waiting one, and touches nothing else. */
  lemma NewDefaultMoves(s: State, flow: DataFlow, role: DeviceRole, id: Option<EndpointId>, order: seq<BindingKind>,
                        k: BindingKind)
    requires Visits(order, s.bindings.Keys) && k in s.bindings
    ensures var o := Decide(s, Observed(DefaultEndpointChanged(flow, role, id)), order);
            if Follows(s, k, flow, role) && s.bindings[k].lifecycle.Running?
               && TargetOf(id) != Some(s.bindings[k].lifecycle.target)
            then IsStopped(s, o, k, ResolveAndStart)
            else if Follows(s, k, flow, role) && s.bindings[k].lifecycle.Waiting? && !s.shutdown
            then IsStartedOn(s, o, k, TargetOf(id))
            else Untouched(s, o, k)
  {
    hide ReactAll, Selected, IsStarted, IsStopped, Untouched;
    var obs := DefaultEndpointChanged(flow, role, id);
    var m := s.(defaultRoutes := s.defaultRoutes[(flow, role) := id]);
    var picked := Selected(m, obs, order);
    VisitedOnly(m, obs, order);
    SameStart(s, m, ReactAll(m, Rebind, picked), k);
    if !Selects(m, obs, k) {
      PassLeaves(m, Rebind, picked, k);
    } else if s.bindings[k].lifecycle.Running? && TargetOf(id) != Some(s.bindings[k].lifecycle.target) {
      PassMovesOn(m, picked, k);
    } else if s.bindings[k].lifecycle.Waiting? && !s.shutdown {
      PassStarts(m, Rebind, picked, k);
    } else {
      PassIdles(m, Rebind, picked, k);
    }
  }

  lemma SameStart(s: State, m: State, o: Outcome, k: BindingKind)
    requires k in s.bindings && s.bindings == m.bindings
    requires s.nextOperationId == m.nextOperationId && s.nextStreamEpoch == m.nextStreamEpoch
    ensures Untouched(s, o, k) == Untouched(m, o, k)
    ensures forall target :: IsStartedOn(s, o, k, target) == IsStartedOn(m, o, k, target)
    ensures s.bindings[k].lifecycle.Running? ==>
              forall plan :: IsStopped(s, o, k, plan) == IsStopped(m, o, k, plan)
  {
  }

  lemma PassMovesOn(s: State, kinds: seq<BindingKind>, k: BindingKind)
    requires Distinct(kinds) && k in kinds && forall j :: j in kinds ==> j in s.bindings
    requires s.bindings[k].lifecycle.Running?
    requires ResolveTarget(s.bindings[k].selection, s.defaultRoutes) != Some(s.bindings[k].lifecycle.target)
    ensures IsStopped(s, ReactAll(s, Rebind, kinds), k, ResolveAndStart)
  {
    hide ReactAll;
    PassInClosedForm(s, Rebind, kinds, k);
    SameEffect(EffectsFor(ReactAll(s, Rebind, kinds).effects, k), React(Shifted(s, 0), Rebind, k).effects);
  }

  /** Shutdown stops what runs, for good, and touches nothing else. */
  lemma ShutdownStops(s: State, order: seq<BindingKind>, k: BindingKind)
    requires Visits(order, s.bindings.Keys) && k in s.bindings
    ensures var o := Decide(s, ShutdownRequested, order);
            if s.bindings[k].lifecycle.Running? then IsStopped(s, o, k, RemainStopped) else Untouched(s, o, k)
  {
    hide ReactAll, IsStopped, Untouched;
    var m := s.(shutdown := true);
    SameStart(s, m, ReactAll(m, StopThen(RemainStopped), order), k);
    if s.bindings[k].lifecycle.Running? {
      PassStops(m, RemainStopped, order, k);
    } else {
      PassIdles(m, StopThen(RemainStopped), order, k);
    }
  }

  // ---- Processes --------------------------------------------------------------------

  /** The process's exit stops the capture that runs on it, to wait for it, and nothing else. */
  lemma ExitStops(s: State, pid: nat, order: seq<BindingKind>, k: BindingKind)
    requires k in s.bindings
    ensures var o := Decide(s, Observed(ProcessExited(pid)), order);
            if k == ProcessLoopback && RunsOn(s, k, ProcessTarget(pid))
            then IsStopped(s, o, k, WaitForRecovery(ProcessNotFound))
            else Untouched(s, o, k)
  {
  }

  /** A restarted process is followed under its new pid. */
  lemma RestartMoves(s: State, oldPid: nat, newPid: nat, order: seq<BindingKind>, k: BindingKind)
    requires k in s.bindings
    ensures var o := Decide(s, Observed(ProcessRestarted(oldPid, newPid)), order);
            if k == ProcessLoopback && RunsOn(s, k, ProcessTarget(oldPid))
            then IsMovedTo(s, o, k, newPid)
            else Untouched(s, o, k)
  {
  }

  ghost predicate IsMovedTo(s: State, o: Outcome, k: BindingKind, pid: nat)
    requires k in s.bindings && s.bindings[k].lifecycle.Running?
  {
    var b := s.bindings[k];
    var es := EffectsFor(o.effects, k);
    && k in o.state.bindings
    && o.state.bindings[k].lifecycle == Stopping(b.lifecycle.operationId, b.lifecycle.epoch, ResolveAndStart)
    && o.state.bindings[k].retryAttempt == b.retryAttempt
    && (forall exe, before :: b.selection == Process(exe, before) ==>
          o.state.bindings[k].selection == Process(exe, Some(pid)))
    && |es| == 1 && es[0] == StopCapture(es[0].effectId, k, b.lifecycle.operationId, b.lifecycle.epoch)
  }

  // ---- The user and the workers -----------------------------------------------------

  /** A start request starts what is stopped or waiting, and nothing else. */
  lemma UserStartStarts(s: State, kind: BindingKind, order: seq<BindingKind>, k: BindingKind)
    returns (target: Option<ResolvedTarget>)
    requires k in s.bindings
    ensures PointsAt(s.bindings[k].selection, s.defaultRoutes, target)
    ensures var o := Decide(s, UserStart(kind), order);
            if k == kind && CanStart(s, k) then IsStartedOn(s, o, k, target) else Untouched(s, o, k)
  {
    hide StartBinding, IsStartedOn, Untouched, PointsAt, EffectsFor;
    target := TargetNow(s, k);
    StartAnswers(s, kind, k);
  }

  lemma StartAnswers(s: State, kind: BindingKind, k: BindingKind)
    requires k in s.bindings
    ensures var o := StartBinding(s, kind);
            if k == kind && CanStart(s, k)
            then IsStartedOn(s, o, k, ResolveTarget(s.bindings[k].selection, s.defaultRoutes))
            else Untouched(s, o, k)
  {
    hide IsStartedOn, Untouched;
    StartLeaves(s, s, kind, k);
    Unaffected(s, k);
    if CanStart(s, k) { StartsAfresh(s, s, k); }
  }

  /** A stop request stops what runs, for good, and nothing else. */
  lemma UserStopStops(s: State, kind: BindingKind, order: seq<BindingKind>, k: BindingKind)
    requires k in s.bindings
    ensures var o := Decide(s, UserStop(kind), order);
            if k == kind && s.bindings[k].lifecycle.Running? then IsStopped(s, o, k, RemainStopped)
            else Untouched(s, o, k)
  {
  }

  /** The retry timer of the attempt being waited for starts the binding, any other does nothing. */
  lemma RetryStarts(s: State, kind: BindingKind, retryId: nat, order: seq<BindingKind>, k: BindingKind)
    returns (target: Option<ResolvedTarget>)
    requires k in s.bindings && BindingOk(s, k)
    ensures PointsAt(s.bindings[k].selection, s.defaultRoutes, target)
    ensures var o := Decide(s, RetryTimerFired(kind, retryId), order);
            if k == kind && !s.shutdown && s.bindings[k].lifecycle == Waiting(RetryableFailure(retryId))
            then IsStartedOn(s, o, k, target)
            else Untouched(s, o, k)
  {
    hide StartBinding, IsStartedOn, Untouched, PointsAt, EffectsFor;
    target := TargetNow(s, k);
    StartAnswers(s, kind, k);
    Unaffected(s, k);
  }

  /** A start report of the start under way makes the binding run where the worker says, and
      clears its count of failures. */
  lemma StartReportRuns(s: State, kind: BindingKind, op: nat, epoch: nat, target: ResolvedTarget,
                        order: seq<BindingKind>, k: BindingKind)
    requires k in s.bindings
    ensures var o := Decide(s, Observed(WorkerStarted(kind, op, epoch, target)), order);
            var b := s.bindings[k];
            if k == kind && b.lifecycle.Starting? && b.lifecycle.operationId == op && b.lifecycle.epoch == epoch
            then Becomes(o, k, b.(lifecycle := Running(op, epoch, target), retryAttempt := 0))
            else Untouched(s, o, k)
  {
  }

  /** A failure report of the operation under way counts one failure and asks for one retry, until
      the cap is passed. */
  lemma FailureReportRetries(s: State, kind: BindingKind, op: nat, error: string, order: seq<BindingKind>,
                             k: BindingKind)
    requires k in s.bindings
    ensures var o := Decide(s, Observed(WorkerFailed(kind, op, error)), order);
            var b := s.bindings[k];
            var n, es := b.retryAttempt + 1, EffectsFor(o.effects, k);
            if k == kind && (b.lifecycle.Starting? || b.lifecycle.Running?) && b.lifecycle.operationId == op then
              if n <= 5 then
                && k in o.state.bindings
                && o.state.bindings[k] == b.(lifecycle := Waiting(RetryableFailure(n)), retryAttempt := n)
                && |es| == 1 && es[0] == ScheduleRetry(es[0].effectId, k, n, n)
              else Becomes(o, k, b.(lifecycle := Failed(n, error), retryAttempt := n))
            else Untouched(s, o, k)
  {
  }

  /** The stop report of the stop under way carries out what was planned for it. */
  lemma StopReportFollowsPlan(s: State, kind: BindingKind, op: nat, epoch: nat, order: seq<BindingKind>,
                              k: BindingKind)
    returns (target: Option<ResolvedTarget>)
    requires k in s.bindings
    ensures PointsAt(s.bindings[k].selection, s.defaultRoutes, target)
    ensures var o := Decide(s, Observed(WorkerStopped(kind, op, epoch)), order);
            var b := s.bindings[k];
            if k == kind && b.lifecycle.Stopping? && b.lifecycle.operationId == op && b.lifecycle.epoch == epoch
            then
              match b.lifecycle.next
              case RemainStopped => Becomes(o, k, b.(lifecycle := Stopped))
              case WaitForRecovery(why) => Becomes(o, k, b.(lifecycle := Waiting(why)))
              case ResolveAndStart =>
                if s.shutdown then Becomes(o, k, b.(lifecycle := Stopped)) else IsStartedOn(s, o, k, target)
            else Untouched(s, o, k)
  {
    hide StartBinding, IsStartedOn, Becomes, Untouched, PointsAt, EffectsFor;
    target := TargetNow(s, k);
    Unaffected(s, k);
    RestsAs(s, kind, Stopped, k);
    StartsAfresh(s, s.WithLifecycle(k, Stopped), k);
    if kind in s.bindings && s.bindings[kind].lifecycle.Stopping? {
      match s.bindings[kind].lifecycle.next
      case RemainStopped =>
      case WaitForRecovery(why) => RestsAs(s, kind, Waiting(why), k);
      case ResolveAndStart => StartLeaves(s, s.WithLifecycle(kind, Stopped), kind, k);
    }
  }

  lemma TargetNow(s: State, k: BindingKind) returns (target: Option<ResolvedTarget>)
    requires k in s.bindings
    ensures target == ResolveTarget(s.bindings[k].selection, s.defaultRoutes)
    ensures PointsAt(s.bindings[k].selection, s.defaultRoutes, target)
  {
    target := ResolveTarget(s.bindings[k].selection, s.defaultRoutes);
  }

  lemma Unaffected(s: State, k: BindingKind)
    requires k in s.bindings
    ensures Untouched(s, Outcome(s, []), k)
  {
  }

  lemma RestsAs(s: State, kind: BindingKind, lifecycle: Lifecycle, k: BindingKind)
    requires k in s.bindings
    ensures kind in s.bindings ==>
              var o := Outcome(s.WithLifecycle(kind, lifecycle), []);
              if k == kind then Becomes(o, k, s.bindings[k].(lifecycle := lifecycle)) else Untouched(s, o, k)
  {
  }

  /** A start of `k`, from the state `m` in which it may have been put to rest first. */
  lemma StartsAfresh(s: State, m: State, k: BindingKind)
    requires k in s.bindings && (m == s || m == s.WithLifecycle(k, Stopped))
    requires m.bindings[k].lifecycle.Stopped? || m.bindings[k].lifecycle.Waiting?
    ensures s.shutdown ==> StartBinding(m, k) == Outcome(m, []) && Becomes(StartBinding(m, k), k, m.bindings[k])
    ensures !s.shutdown ==>
              IsStartedOn(s, StartBinding(m, k), k, ResolveTarget(s.bindings[k].selection, s.defaultRoutes))
  {
  }

  lemma StartLeaves(s: State, m: State, kind: BindingKind, k: BindingKind)
    requires k in s.bindings && k in m.bindings && (k != kind ==> m.bindings[k] == s.bindings[k])
    ensures k != kind ==> Untouched(s, StartBinding(m, kind), k)
  {
  }
}
