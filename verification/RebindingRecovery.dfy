/**
  What a capture comes back to, over runs.

  A binding that is stopped, for whatever reason, is followed through everything that may be
  reported meanwhile: to the stop report of its own generation, to what it then waits for, and
  to the event that starts it again.
*/
module RebindingRecovery {
  import opened Prelude
  import opened Rebinding
  import opened RebindingMoves
  import opened RebindingHistory
  import opened RebindingResponses

  // ---- Routes and shutdown, from the inputs alone -----------------------------------

  /** The default routes, from the inputs alone. */
  ghost function Reported(routes: Routes, turns: seq<Turn>): Routes {
    if turns == [] then routes
    else
      var before := Reported(routes, turns[..|turns| - 1]);
      match turns[|turns| - 1].input
      case Observed(DefaultEndpointChanged(flow, role, id)) => before[(flow, role) := id]
      case _ => before
  }

  ghost predicate ShutdownAmong(turns: seq<Turn>) {
    exists i :: 0 <= i < |turns| && turns[i].input.ShutdownRequested?
  }

  lemma DecisionFlags(s: State, input: DecisionInput, order: seq<BindingKind>)
    ensures var s' := Decide(s, input, order).state;
            && s'.shutdown == (s.shutdown || input.ShutdownRequested?)
            && s'.defaultRoutes == Reported(s.defaultRoutes, [Turn(input, order)])
  {
    hide ReactAll, Selected;
    var turns := [Turn(input, order)];
    assert Reported(s.defaultRoutes, turns[..0]) == s.defaultRoutes;
    assert forall m, reaction, kinds :: var o := ReactAll(m, reaction, kinds);
             o.state.shutdown == m.shutdown && o.state.defaultRoutes == m.defaultRoutes by {
      forall m, reaction, kinds
        ensures var o := ReactAll(m, reaction, kinds);
                o.state.shutdown == m.shutdown && o.state.defaultRoutes == m.defaultRoutes
      {
        ReactAllFrames(m, reaction, kinds);
      }
    }
  }

  /** The routes are what was last reported, and shutdown is as it was requested. */
  lemma {:induction false} FlagsFollowInputs(s: State, turns: seq<Turn>)
    ensures After(s, turns).defaultRoutes == Reported(s.defaultRoutes, turns)
    ensures After(s, turns).shutdown <==> s.shutdown || ShutdownAmong(turns)
  {
    hide Decide;
    if turns != [] {
      var front, last := turns[..|turns| - 1], turns[|turns| - 1];
      FlagsFollowInputs(s, front);
      var m := After(s, front);
      DecisionFlags(m, last.input, last.order);
      var one := [Turn(last.input, last.order)];
      assert one[..0] == [] && one[0] == last;
      assert ShutdownAmong(turns) <==> ShutdownAmong(front) || last.input.ShutdownRequested?;
    }
  }

  // ---- Rest -------------------------------------------------------------------------

  /** The inputs that a binding at rest answers to. */
  ghost predicate Disturbs(input: DecisionInput, k: BindingKind, b: CaptureBinding) {
    match b.lifecycle
    case Stopped => input == UserStart(k)
    case Stopping(op, epoch, _) => input == Observed(WorkerStopped(k, op, epoch))
    case Waiting(why) => Wakes(input, k, b) || (why.RetryableFailure? && input == RetryTimerFired(k, why.attempt))
    case Failed(_, _) => false
    case _ => true
  }

  /** A start request, the device that the binding is pinned to, or a change of the default that
      it follows. */
  ghost predicate Wakes(input: DecisionInput, k: BindingKind, b: CaptureBinding) {
    match input
    case UserStart(j) => j == k
    case Observed(EndpointAdded(id)) => b.selection == Endpoint(Pinned(id))
    case Observed(DefaultEndpointChanged(flow, role, _)) => b.selection == Endpoint(FollowDefault(flow, role))
    case _ => false
  }

  lemma RestingIsLeft(s: State, input: DecisionInput, order: seq<BindingKind>, k: BindingKind)
    requires Visits(order, s.bindings.Keys) && k in s.bindings && BindingOk(s, k)
    requires !Disturbs(input, k, s.bindings[k])
    ensures Untouched(s, Decide(s, input, order), k)
  {
    hide Decide, Untouched, IsStopped, IsStarted, IsStartedOn, Becomes, PointsAt;
    match input
    case ShutdownRequested => ShutdownStops(s, order, k);
    case UserStart(j) => var _ := UserStartStarts(s, j, order, k);
    case UserStop(j) => UserStopStops(s, j, order, k);
    case RetryTimerFired(j, n) => var _ := RetryStarts(s, j, n, order, k);
    case Observed(obs) =>
      match obs
      case EndpointRemoved(id) => RemovalStops(s, id, order, k);
      case EndpointAdded(id) => AdditionStarts(s, id, order, k);
      case DefaultEndpointChanged(flow, role, id) => NewDefaultMoves(s, flow, role, id, order, k);
      case ProcessExited(pid) => ExitStops(s, pid, order, k);
      case ProcessRestarted(oldPid, newPid) => RestartMoves(s, oldPid, newPid, order, k);
      case WorkerStarted(j, op, epoch, target) => StartReportRuns(s, j, op, epoch, target, order, k);
      case WorkerStopped(j, op, epoch) => var _ := StopReportFollowsPlan(s, j, op, epoch, order, k);
      case WorkerFailed(j, op, error) => FailureReportRetries(s, j, op, error, order, k);
  }

  /** A binding at rest stays exactly as it is, and asks for nothing, until an input that it
      answers to. */
  lemma {:induction false} RestLasts(s: State, turns: seq<Turn>, k: BindingKind)
    requires WellFormed(s) && Proper(s, turns) && k in s.bindings
    requires forall i :: 0 <= i < |turns| ==> !Disturbs(turns[i].input, k, s.bindings[k])
    ensures k in After(s, turns).bindings && After(s, turns).bindings[k] == s.bindings[k]
    ensures EffectsFor(Log(s, turns), k) == []
  {
    hide Decide, Disturbs, WellFormed, Visits;
    if turns != [] {
      var front, last := turns[..|turns| - 1], turns[|turns| - 1];
      RestLasts(s, front, k);
      RunsStayWellFormed(s, front);
      var m := After(s, front);
      OkOf(m, k);
      RestingIsLeft(m, last.input, last.order, k);
      EffectsForConcat(Log(s, front), Decide(m, last.input, last.order).effects, k);
    }
  }

  // ---- From the stop to its report --------------------------------------------------

  lemma {:induction false} LogSplit(s: State, turns: seq<Turn>, i: nat, k: BindingKind)
    requires i <= |turns|
    ensures EffectsFor(Log(s, turns), k)
            == EffectsFor(Log(s, turns[..i]), k) + EffectsFor(Log(After(s, turns[..i]), turns[i..]), k)
  {
    hide Decide, EffectsFor, After, Log;
    var n := |turns| - 1;
    if i == |turns| {
      assert turns[..i] == turns && turns[i..] == [];
      NothingLogged(After(s, turns[..i]), k);
    } else {
      LogSplit(s, turns[..n], i, k);
      AfterSplit(s, turns[..n], i);
      assert turns[..n][..i] == turns[..i] && turns[i..][..n - i] == turns[..n][i..];
      LastTurnLog(s, turns, k);
      LastTurnLog(After(s, turns[..i]), turns[i..], k);
      assert turns[i..][n - i] == turns[n];
    }
  }

  lemma NothingLogged(s: State, k: BindingKind)
    ensures EffectsFor(Log(s, []), k) == []
  {
  }

  lemma FirstTurn(s: State, turns: seq<Turn>)
    requires |turns| >= 1
    ensures After(s, turns[..1]) == Decide(s, turns[0].input, turns[0].order).state
    ensures Log(s, turns[..1]) == Decide(s, turns[0].input, turns[0].order).effects
  {
    hide Decide;
    assert turns[..1][..0] == [];
  }

  lemma LastTurnLog(s: State, turns: seq<Turn>, k: BindingKind)
    requires |turns| >= 1
    ensures var n := |turns| - 1;
            var o := Decide(After(s, turns[..n]), turns[n].input, turns[n].order);
            && After(s, turns) == o.state
            && EffectsFor(Log(s, turns), k) == EffectsFor(Log(s, turns[..n]), k) + EffectsFor(o.effects, k)
  {
    hide Decide, EffectsFor;
    var n := |turns| - 1;
    EffectsForConcat(Log(s, turns[..n]), Decide(After(s, turns[..n]), turns[n].input, turns[n].order).effects, k);
  }

  lemma ProperTail(s: State, turns: seq<Turn>, i: nat)
    requires WellFormed(s) && Proper(s, turns) && i <= |turns|
    ensures WellFormed(After(s, turns[..i])) && Proper(After(s, turns[..i]), turns[i..])
    ensures After(s, turns[..i]).bindings.Keys == s.bindings.Keys
  {
    hide Decide, WellFormed, Visits;
    RunsStayWellFormed(s, turns[..i]);
  }

  /** The turns end with the first stop report of the generation that runs in `b`. */
  ghost predicate EndsWithReport(turns: seq<Turn>, k: BindingKind, b: CaptureBinding)
    requires b.lifecycle.Running?
  {
    var report := Observed(WorkerStopped(k, b.lifecycle.operationId, b.lifecycle.epoch));
    && |turns| >= 2 && turns[|turns| - 1].input == report
    && forall i :: 0 < i < |turns| - 1 ==> turns[i].input != report
  }

  ghost predicate OneStop(es: seq<Effect>, k: BindingKind, b: CaptureBinding)
    requires b.lifecycle.Running?
  {
    |es| == 1 && es[0] == StopCapture(es[0].effectId, k, b.lifecycle.operationId, b.lifecycle.epoch)
  }

  /** Between the turn that stops the binding and its report nothing happens to it. */
  lemma UntilReported(s: State, turns: seq<Turn>, k: BindingKind)
    requires WellFormed(s) && Proper(s, turns) && k in s.bindings && s.bindings[k].lifecycle.Running?
    requires EndsWithReport(turns, k, s.bindings[k])
    requires k in After(s, turns[..1]).bindings
    requires var lc, lc' := s.bindings[k].lifecycle, After(s, turns[..1]).bindings[k].lifecycle;
             lc'.Stopping? && lc'.operationId == lc.operationId && lc'.epoch == lc.epoch
    ensures var n := |turns| - 1;
            && After(s, turns[..n]).bindings.Keys == s.bindings.Keys && WellFormed(After(s, turns[..n]))
            && After(s, turns[..n]).bindings[k] == After(s, turns[..1]).bindings[k]
            && EffectsFor(Log(s, turns[..n]), k) == EffectsFor(Log(s, turns[..1]), k)
  {
    hide Decide, EffectsFor, WellFormed, Visits, After, Log;
    var n := |turns| - 1;
    var front := turns[..n];
    assert front[..1] == turns[..1];
    ProperTail(s, front, 1);
    ProperTail(s, turns, n);
    var m := After(s, front[..1]);
    forall i | 0 <= i < |front[1..]| ensures !Disturbs(front[1..][i].input, k, m.bindings[k]) {
      assert front[1..][i] == turns[i + 1];
    }
    RestLasts(m, front[1..], k);
    AfterSplit(s, front, 1);
    LogSplit(s, front, 1, k);
    assert EffectsFor(Log(s, front[..1]), k) + [] == EffectsFor(Log(s, front[..1]), k);
  }

  /** After the report, a binding stopped with a plan other than a restart is where it was sent. */
  lemma ReportEndsStop(s: State, turns: seq<Turn>, k: BindingKind, plan: AfterStop)
    requires WellFormed(s) && Proper(s, turns) && k in s.bindings && s.bindings[k].lifecycle.Running?
    requires EndsWithReport(turns, k, s.bindings[k]) && !plan.ResolveAndStart?
    requires IsStopped(s, Decide(s, turns[0].input, turns[0].order), k, plan)
    ensures k in After(s, turns).bindings
    ensures After(s, turns).bindings[k]
            == s.bindings[k].(lifecycle := if plan.RemainStopped? then Stopped else Waiting(plan.why))
    ensures OneStop(EffectsFor(Log(s, turns), k), k, s.bindings[k])
  {
    hide Decide, EffectsFor, WellFormed, Visits, After, Log, PointsAt, IsStartedOn;
    var n, lc := |turns| - 1, s.bindings[k].lifecycle;
    FirstTurn(s, turns);
    UntilReported(s, turns, k);
    LastTurnLog(s, turns, k);
    var _ := StopReportFollowsPlan(After(s, turns[..n]), k, lc.operationId, lc.epoch, turns[n].order, k);
  }

  // ---- What stops a capture, and what it comes to -----------------------------------

  /** A removed device leaves what ran on it waiting for a device. */
  lemma RemovedDeviceParks(s: State, turns: seq<Turn>, k: BindingKind, id: EndpointId)
    requires WellFormed(s) && Proper(s, turns) && k in s.bindings && k != ProcessLoopback
    requires RunsOn(s, k, EndpointTarget(id))
    requires EndsWithReport(turns, k, s.bindings[k]) && turns[0].input == Observed(EndpointRemoved(id))
    ensures k in After(s, turns).bindings
    ensures After(s, turns).bindings[k] == s.bindings[k].(lifecycle := Waiting(DeviceUnavailable))
    ensures OneStop(EffectsFor(Log(s, turns), k), k, s.bindings[k])
  {
    hide Decide, EffectsFor, WellFormed, After, Log;
    RemovalStops(s, id, turns[0].order, k);
    ReportEndsStop(s, turns, k, WaitForRecovery(DeviceUnavailable));
  }

  /** A process that exits leaves its capture waiting for the process. */
  lemma ExitedProcessParks(s: State, turns: seq<Turn>, pid: nat)
    requires WellFormed(s) && Proper(s, turns) && ProcessLoopback in s.bindings
    requires RunsOn(s, ProcessLoopback, ProcessTarget(pid))
    requires EndsWithReport(turns, ProcessLoopback, s.bindings[ProcessLoopback])
    requires turns[0].input == Observed(ProcessExited(pid))
    ensures ProcessLoopback in After(s, turns).bindings
    ensures After(s, turns).bindings[ProcessLoopback]
            == s.bindings[ProcessLoopback].(lifecycle := Waiting(ProcessNotFound))
    ensures OneStop(EffectsFor(Log(s, turns), ProcessLoopback), ProcessLoopback, s.bindings[ProcessLoopback])
  {
    hide Decide, EffectsFor, WellFormed, After, Log;
    ExitStops(s, pid, turns[0].order, ProcessLoopback);
    ReportEndsStop(s, turns, ProcessLoopback, WaitForRecovery(ProcessNotFound));
  }

  /** A stop request, or shutdown, leaves what ran stopped. */
  lemma RequestStops(s: State, turns: seq<Turn>, k: BindingKind)
    requires WellFormed(s) && Proper(s, turns) && k in s.bindings && s.bindings[k].lifecycle.Running?
    requires EndsWithReport(turns, k, s.bindings[k])
    requires turns[0].input == UserStop(k) || turns[0].input.ShutdownRequested?
    ensures k in After(s, turns).bindings
    ensures After(s, turns).bindings[k] == s.bindings[k].(lifecycle := Stopped)
    ensures OneStop(EffectsFor(Log(s, turns), k), k, s.bindings[k])
  {
    hide Decide, EffectsFor, WellFormed, After, Log;
    if turns[0].input.ShutdownRequested? {
      ShutdownStops(s, turns[0].order, k);
    } else {
      UserStopStops(s, k, turns[0].order, k);
    }
    ReportEndsStop(s, turns, k, RemainStopped);
  }

  /** Stopped, or started under fresh ids on `target`, or without one waiting for a device. */
  ghost predicate MovedOn(s: State, turns: seq<Turn>, k: BindingKind, selection: BindingSelection,
                          target: Option<ResolvedTarget>)
    requires k in s.bindings && s.bindings[k].lifecycle.Running?
  {
    var b := s.bindings[k];
    var es := EffectsFor(Log(s, turns), k);
    && k in After(s, turns).bindings
    && var b' := After(s, turns).bindings[k];
    && |es| >= 1 && OneStop(es[..1], k, b)
    && b'.selection == selection && b'.retryAttempt == b.retryAttempt
    && if s.shutdown || ShutdownAmong(turns) then
         b'.lifecycle == Stopped && |es| == 1
       else if target.None? then
         b'.lifecycle == Waiting(DeviceUnavailable) && |es| == 1
       else
         && |es| == 2 && es[1].StartCapture? && es[1].binding == k && es[1].target == target.value
         && es[1].operationId >= s.nextOperationId && es[1].epoch >= s.nextStreamEpoch
         && b'.lifecycle == Starting(es[1].operationId, es[1].epoch, target.value)
  }

  lemma {:induction false} CountersGrow(s: State, turns: seq<Turn>)
    ensures s.nextOperationId <= After(s, turns).nextOperationId
    ensures s.nextStreamEpoch <= After(s, turns).nextStreamEpoch
  {
    hide Decide;
    if turns != [] {
      var front, last := turns[..|turns| - 1], turns[|turns| - 1];
      CountersGrow(s, front);
      DecideFrames(After(s, front), last.input, last.order);
    }
  }

  lemma ReportMovesOn(s: State, turns: seq<Turn>, k: BindingKind, selection: BindingSelection)
    returns (target: Option<ResolvedTarget>)
    requires WellFormed(s) && Proper(s, turns) && k in s.bindings && s.bindings[k].lifecycle.Running?
    requires EndsWithReport(turns, k, s.bindings[k])
    requires var b, o := s.bindings[k], Decide(s, turns[0].input, turns[0].order);
             && k in o.state.bindings && OneStop(EffectsFor(o.effects, k), k, b)
             && o.state.bindings[k].lifecycle == Stopping(b.lifecycle.operationId, b.lifecycle.epoch, ResolveAndStart)
             && o.state.bindings[k].selection == selection && o.state.bindings[k].retryAttempt == b.retryAttempt
    ensures PointsAt(selection, Reported(s.defaultRoutes, turns), target)
    ensures MovedOn(s, turns, k, selection, target)
  {
    hide Decide, EffectsFor, WellFormed, Visits, After, Log, PointsAt;
    var n, lc := |turns| - 1, s.bindings[k].lifecycle;
    var m := After(s, turns[..n]);
    FirstTurn(s, turns);
    UntilReported(s, turns, k);
    LastTurnLog(s, turns, k);
    FlagsFollowInputs(s, turns[..n]);
    CountersGrow(s, turns[..n]);
    assert ShutdownAmong(turns) <==> ShutdownAmong(turns[..n]);
    assert Reported(s.defaultRoutes, turns) == Reported(s.defaultRoutes, turns[..n]);
    target := StopReportFollowsPlan(m, k, lc.operationId, lc.epoch, turns[n].order, k);
    var first := EffectsFor(Log(s, turns[..1]), k);
    assert EffectsFor(Log(s, turns), k)[..1] == first;
  }

  ghost predicate IsDefault(routes: Routes, turns: seq<Turn>, flow: DataFlow, role: DeviceRole,
                            id: Option<EndpointId>) {
    (flow, role) in Reported(routes, turns) && Reported(routes, turns)[(flow, role)] == id
  }

  /** A follower that is not on the new default is stopped and, at its report, started on the
      default of that moment. */
  lemma FollowerMoves(s: State, turns: seq<Turn>, k: BindingKind, flow: DataFlow, role: DeviceRole,
                      id: Option<EndpointId>)
    returns (current: Option<EndpointId>)
    requires WellFormed(s) && Proper(s, turns) && k in s.bindings && s.bindings[k].lifecycle.Running?
    requires Follows(s, k, flow, role) && Some(s.bindings[k].lifecycle.target) != TargetOf(id)
    requires EndsWithReport(turns, k, s.bindings[k])
    requires turns[0].input == Observed(DefaultEndpointChanged(flow, role, id))
    ensures IsDefault(s.defaultRoutes, turns, flow, role, current)
    ensures MovedOn(s, turns, k, s.bindings[k].selection, TargetOf(current))
  {
    hide Decide, EffectsFor, WellFormed, After, Log;
    NewDefaultMoves(s, flow, role, id, turns[0].order, k);
    var target := ReportMovesOn(s, turns, k, s.bindings[k].selection);
    ReportedAfterFirst(s.defaultRoutes, turns, flow, role);
    current := Reported(s.defaultRoutes, turns)[(flow, role)];
  }

  lemma {:induction false} ReportedAfterFirst(routes: Routes, turns: seq<Turn>, flow: DataFlow, role: DeviceRole)
    requires |turns| >= 1 && turns[0].input.Observed? && turns[0].input.observation.DefaultEndpointChanged?
    requires turns[0].input.observation.flow == flow && turns[0].input.observation.role == role
    ensures (flow, role) in Reported(routes, turns)
  {
    if |turns| > 1 {
      ReportedAfterFirst(routes, turns[..|turns| - 1], flow, role);
    }
  }

  /** A restarted process is captured again, under its new pid. */
  lemma RestartedProcessIsFollowed(s: State, turns: seq<Turn>, exe: string, oldPid: nat, newPid: nat)
    requires WellFormed(s) && Proper(s, turns) && ProcessLoopback in s.bindings
    requires RunsOn(s, ProcessLoopback, ProcessTarget(oldPid))
    requires s.bindings[ProcessLoopback].selection.Process? && s.bindings[ProcessLoopback].selection.exeName == exe
    requires EndsWithReport(turns, ProcessLoopback, s.bindings[ProcessLoopback])
    requires turns[0].input == Observed(ProcessRestarted(oldPid, newPid))
    ensures MovedOn(s, turns, ProcessLoopback, Process(exe, Some(newPid)), Some(ProcessTarget(newPid)))
  {
    hide Decide, EffectsFor, WellFormed, After, Log, MovedOn;
    RestartMoves(s, oldPid, newPid, turns[0].order, ProcessLoopback);
    var b := s.bindings[ProcessLoopback];
    assert b.selection == Process(exe, b.selection.pid);
    var target := ReportMovesOn(s, turns, ProcessLoopback, Process(exe, Some(newPid)));
  }

  // ---- What starts it again ---------------------------------------------------------

  /** Whatever happens meanwhile, the first event that concerns a waiting binding starts it. */
  lemma WaitingIsWoken(s: State, turns: seq<Turn>, k: BindingKind) returns (target: Option<ResolvedTarget>)
    requires WellFormed(s) && Proper(s, turns) && k in s.bindings && s.bindings[k].lifecycle.Waiting?
    requires turns != [] && !s.shutdown && !ShutdownAmong(turns)
    requires forall i :: 0 <= i < |turns| - 1 ==> !Disturbs(turns[i].input, k, s.bindings[k])
    requires Disturbs(turns[|turns| - 1].input, k, s.bindings[k])
    ensures PointsAt(s.bindings[k].selection, Reported(s.defaultRoutes, turns), target)
    ensures IsStartedOn(s, Outcome(After(s, turns), Log(s, turns)), k, target)
  {
    hide Decide, EffectsFor, WellFormed, After, Log, PointsAt;
    var n := |turns| - 1;
    var m, last := After(s, turns[..n]), turns[n];
    ProperTail(s, turns, n);
    RestLasts(s, turns[..n], k);
    LastTurnLog(s, turns, k);
    FlagsFollowInputs(s, turns[..n]);
    CountersGrow(s, turns[..n]);
    OkOf(m, k);
    assert !ShutdownAmong(turns[..n]);
    assert [] + EffectsFor(Decide(m, last.input, last.order).effects, k)
           == EffectsFor(Decide(m, last.input, last.order).effects, k);
    target := WokenBy(m, last.input, last.order, k);
    assert [last][..0] == [];
    assert Reported(m.defaultRoutes, [last]) == Reported(s.defaultRoutes, turns);
  }

  lemma WokenBy(s: State, input: DecisionInput, order: seq<BindingKind>, k: BindingKind)
    returns (target: Option<ResolvedTarget>)
    requires Visits(order, s.bindings.Keys) && k in s.bindings && BindingOk(s, k)
    requires s.bindings[k].lifecycle.Waiting? && !s.shutdown && Disturbs(input, k, s.bindings[k])
    ensures PointsAt(s.bindings[k].selection, Reported(s.defaultRoutes, [Turn(input, order)]), target)
    ensures IsStartedOn(s, Decide(s, input, order), k, target)
  {
    hide Decide, IsStarted;
    assert [Turn(input, order)][..0] == [];
    assert Reported(s.defaultRoutes, []) == s.defaultRoutes;
    match input
    case UserStart(j) => target := UserStartStarts(s, j, order, k);
    case RetryTimerFired(j, n) => target := RetryStarts(s, j, n, order, k);
    case Observed(EndpointAdded(id)) =>
      AdditionStarts(s, id, order, k);
      target := Some(EndpointTarget(id));
    case Observed(DefaultEndpointChanged(flow, role, id)) =>
      NewDefaultMoves(s, flow, role, id, order, k);
      target := TargetOf(id);
  }

  /** A device that is unplugged and plugged in again is captured again: stopped once, and started
      once, on the endpoint the binding is pinned to, whatever else happens between. */
  lemma LostDeviceComesBack(s: State, turns: seq<Turn>, j: nat, k: BindingKind, id: EndpointId, pin: EndpointId)
    requires WellFormed(s) && Proper(s, turns) && k in s.bindings && k != ProcessLoopback
    requires RunsOn(s, k, EndpointTarget(id)) && s.bindings[k].selection == Endpoint(Pinned(pin))
    requires j < |turns| && EndsWithReport(turns[..j], k, s.bindings[k])
    requires turns[0].input == Observed(EndpointRemoved(id))
    requires forall i :: j <= i < |turns| - 1 ==>
               turns[i].input != UserStart(k) && turns[i].input != Observed(EndpointAdded(pin))
    requires turns[|turns| - 1].input == Observed(EndpointAdded(pin))
    requires !s.shutdown && !ShutdownAmong(turns)
    ensures MovedOn(s, turns, k, s.bindings[k].selection, Some(EndpointTarget(pin)))
  {
    hide Decide, EffectsFor, WellFormed, After, Log;
    RemovedDeviceParks(s, turns[..j], k, id);
    ProperTail(s, turns, j);
    AfterSplit(s, turns, j);
    LogSplit(s, turns, j, k);
    FlagsFollowInputs(s, turns[..j]);
    CountersGrow(s, turns[..j]);
    var m, rest := After(s, turns[..j]), turns[j..];
    assert !ShutdownAmong(turns[..j]) && !ShutdownAmong(rest);
    forall i | 0 <= i < |rest| - 1 ensures !Disturbs(rest[i].input, k, m.bindings[k]) {
      assert rest[i] == turns[j + i];
    }
    var target := WaitingIsWoken(m, rest, k);
    assert EffectsFor(Log(s, turns), k)[..1] == EffectsFor(Log(s, turns[..j]), k);
  }
}
