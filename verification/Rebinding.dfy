/**
  The capture rebinding decision (crates/capture-api/src/rebinding.rs) on values.

  `Decide` is the specification of the one place where binding state is written. The
  class in DecisionState.dfy updates the same state in place and is proved against it.
  A hash map is visited in an unspecified order, so every function that walks the
  bindings takes that order as the argument `order`.
*/
module Rebinding {
  import opened Prelude

  type EndpointId = string

  datatype DataFlow = Capture | Render

  datatype DeviceRole = Console | Multimedia | Communications

  datatype EndpointSelection =
    | FollowDefault(flow: DataFlow, role: DeviceRole)
    | Pinned(endpointId: EndpointId)

  datatype BindingKind = Microphone | EndpointLoopback | ProcessLoopback

  datatype BindingSelection =
    | Endpoint(endpoint: EndpointSelection)
    | Process(exeName: string, pid: Option<nat>)

  datatype ResolvedTarget = EndpointTarget(id: EndpointId) | ProcessTarget(processId: nat)

  datatype AfterStop = ResolveAndStart | WaitForRecovery(why: WaitReason) | RemainStopped

  datatype WaitReason = DeviceUnavailable | ProcessNotFound | RetryableFailure(attempt: nat)

  /** `Failed` keeps the two facts its message is built from. */
  datatype Lifecycle =
    | Stopped
    | Resolving(operationId: nat)
    | Starting(operationId: nat, epoch: nat, target: ResolvedTarget)
    | Running(operationId: nat, epoch: nat, target: ResolvedTarget)
    | Stopping(operationId: nat, epoch: nat, next: AfterStop)
    | Waiting(reason: WaitReason)
    | Failed(attempts: nat, error: string)
  {
    predicate AcceptsEpoch(e: nat) {
      Running? && epoch == e
    }

    /** Starting or Running: the lifecycles that own a capture worker. */
    predicate Live() {
      Starting? || Running?
    }

    /** The lifecycles that carry an operation id and an epoch. */
    predicate Holds() {
      Live() || Stopping?
    }
  }

  datatype CaptureBinding = CaptureBinding(
    kind: BindingKind, selection: BindingSelection, lifecycle: Lifecycle, retryAttempt: nat)

  const MAX_RETRY_ATTEMPTS: nat := 5

  type Routes = map<(DataFlow, DeviceRole), Option<EndpointId>>

  datatype State = State(
    bindings: map<BindingKind, CaptureBinding>,
    defaultRoutes: Routes,
    nextOperationId: nat,
    nextStreamEpoch: nat,
    nextEffectId: nat,
    shutdown: bool)
  {
    predicate AcceptsEpoch(kind: BindingKind, epoch: nat) {
      kind in bindings && bindings[kind].lifecycle.AcceptsEpoch(epoch)
    }

    function WithLifecycle(kind: BindingKind, lifecycle: Lifecycle): State
      requires kind in bindings
    {
      this.(bindings := bindings[kind := bindings[kind].(lifecycle := lifecycle)])
    }
  }

  datatype Observation =
    | EndpointRemoved(endpointId: EndpointId)
    | EndpointAdded(endpointId: EndpointId)
    | DefaultEndpointChanged(flow: DataFlow, role: DeviceRole, newDefault: Option<EndpointId>)
    | WorkerStarted(binding: BindingKind, operationId: nat, epoch: nat, target: ResolvedTarget)
    | WorkerStopped(binding: BindingKind, operationId: nat, epoch: nat)
    | WorkerFailed(binding: BindingKind, operationId: nat, error: string)
    | ProcessExited(pid: nat)
    | ProcessRestarted(oldPid: nat, newPid: nat)

  datatype DecisionInput =
    | Observed(observation: Observation)
    | UserStart(binding: BindingKind)
    | UserStop(binding: BindingKind)
    | RetryTimerFired(binding: BindingKind, retryId: nat)
    | ShutdownRequested

  datatype Effect =
    | StartCapture(effectId: nat, binding: BindingKind, operationId: nat, epoch: nat, target: ResolvedTarget)
    | StopCapture(effectId: nat, binding: BindingKind, operationId: nat, epoch: nat)
    | ScheduleRetry(effectId: nat, binding: BindingKind, retryId: nat, attempt: nat)

  datatype Outcome = Outcome(state: State, effects: seq<Effect>)

  // ---- Target resolution ------------------------------------------------------------

  function ResolveTarget(selection: BindingSelection, routes: Routes): Option<ResolvedTarget> {
    match selection
    case Endpoint(Pinned(id)) => Some(EndpointTarget(id))
    case Endpoint(FollowDefault(flow, role)) =>
      if (flow, role) in routes && routes[(flow, role)].Some?
      then Some(EndpointTarget(routes[(flow, role)].value))
      else None
    case Process(_, Some(pid)) => Some(ProcessTarget(pid))
    case Process(_, None) => None
  }

  predicate SelectionTargets(selection: BindingSelection, target: ResolvedTarget, routes: Routes) {
    ResolveTarget(selection, routes) == Some(target)
  }

  predicate PinnedTo(selection: BindingSelection, id: EndpointId) {
    selection == Endpoint(Pinned(id))
  }

  // ---- Single-binding reactions -----------------------------------------------------

  function StartBinding(s: State, kind: BindingKind): Outcome {
    if s.shutdown || kind !in s.bindings then
      Outcome(s, [])
    else
      var b := s.bindings[kind];
      if !(b.lifecycle.Stopped? || b.lifecycle.Waiting?) then
        Outcome(s, [])
      else
        match ResolveTarget(b.selection, s.defaultRoutes)
        case Some(target) =>
          var op, epoch, id := s.nextOperationId, s.nextStreamEpoch, s.nextEffectId;
          var s' := s.WithLifecycle(kind, Starting(op, epoch, target));
          Outcome(
            s'.(nextOperationId := op + 1, nextStreamEpoch := epoch + 1, nextEffectId := id + 1),
            [StartCapture(id, kind, op, epoch, target)])
        case None =>
          Outcome(s.WithLifecycle(kind, Waiting(DeviceUnavailable)), [])
  }

  function StopBinding(s: State, kind: BindingKind, next: AfterStop): Outcome {
    if kind in s.bindings && s.bindings[kind].lifecycle.Running? then
      var r := s.bindings[kind].lifecycle;
      var id := s.nextEffectId;
      Outcome(
        s.WithLifecycle(kind, Stopping(r.operationId, r.epoch, next)).(nextEffectId := id + 1),
        [StopCapture(id, kind, r.operationId, r.epoch)])
    else
      Outcome(s, [])
  }

  /** What a pass over several bindings does to each one it visits. */
  datatype Reaction = StopThen(next: AfterStop) | StartNow | Rebind

  function React(s: State, reaction: Reaction, kind: BindingKind): Outcome {
    match reaction
    case StopThen(next) => StopBinding(s, kind, next)
    case StartNow => StartBinding(s, kind)
    case Rebind =>
      if kind !in s.bindings then Outcome(s, [])
      else
        var b := s.bindings[kind];
        match b.lifecycle
        case Running(_, _, target) =>
          if SelectionTargets(b.selection, target, s.defaultRoutes) then Outcome(s, [])
          else StopBinding(s, kind, ResolveAndStart)
        case Waiting(_) => StartBinding(s, kind)
        case _ => Outcome(s, [])
  }

  function ReactAll(s: State, reaction: Reaction, kinds: seq<BindingKind>): Outcome {
    if kinds == [] then Outcome(s, [])
    else
      var before := ReactAll(s, reaction, kinds[..|kinds| - 1]);
      var last := React(before.state, reaction, kinds[|kinds| - 1]);
      Outcome(last.state, before.effects + last.effects)
  }

  // ---- Observations -----------------------------------------------------------------

  /** Which bindings a device observation singles out before any of them is changed. */
  predicate Selects(s: State, obs: Observation, kind: BindingKind) {
    kind in s.bindings &&
    var b := s.bindings[kind];
    match obs
    case DefaultEndpointChanged(flow, role, _) => b.selection == Endpoint(FollowDefault(flow, role))
    case EndpointRemoved(id) =>
      kind != ProcessLoopback && b.lifecycle.Running? && b.lifecycle.target == EndpointTarget(id)
    case EndpointAdded(id) => b.lifecycle.Waiting? && PinnedTo(b.selection, id)
    case _ => false
  }

  function Selected(s: State, obs: Observation, order: seq<BindingKind>): seq<BindingKind> {
    if order == [] then []
    else
      var kind := order[|order| - 1];
      Selected(s, obs, order[..|order| - 1]) + if Selects(s, obs, kind) then [kind] else []
  }

  predicate RunsProcess(s: State, pid: nat) {
    ProcessLoopback in s.bindings &&
    var lc := s.bindings[ProcessLoopback].lifecycle;
    lc.Running? && lc.target == ProcessTarget(pid)
  }

  function WithNewPid(s: State, pid: nat): State
    requires ProcessLoopback in s.bindings
  {
    var b := s.bindings[ProcessLoopback];
    match b.selection
    case Process(exe, _) =>
      s.(bindings := s.bindings[ProcessLoopback := b.(selection := Process(exe, Some(pid)))])
    case Endpoint(_) => s
  }

  function OnWorkerStarted(s: State, kind: BindingKind, op: nat, epoch: nat, target: ResolvedTarget): Outcome {
    if kind in s.bindings
       && s.bindings[kind].lifecycle.Starting?
       && s.bindings[kind].lifecycle.operationId == op
       && s.bindings[kind].lifecycle.epoch == epoch
    then
      var b := s.bindings[kind].(lifecycle := Running(op, epoch, target), retryAttempt := 0);
      Outcome(s.(bindings := s.bindings[kind := b]), [])
    else
      Outcome(s, [])
  }

  function OnWorkerStopped(s: State, kind: BindingKind, op: nat, epoch: nat): Outcome {
    if kind in s.bindings
       && s.bindings[kind].lifecycle.Stopping?
       && s.bindings[kind].lifecycle.operationId == op
       && s.bindings[kind].lifecycle.epoch == epoch
    then
      match s.bindings[kind].lifecycle.next
      case RemainStopped => Outcome(s.WithLifecycle(kind, Stopped), [])
      case WaitForRecovery(why) => Outcome(s.WithLifecycle(kind, Waiting(why)), [])
      case ResolveAndStart => StartBinding(s.WithLifecycle(kind, Stopped), kind)
    else
      Outcome(s, [])
  }

  function OnWorkerFailed(s: State, kind: BindingKind, op: nat, error: string): Outcome {
    if kind in s.bindings
       && s.bindings[kind].lifecycle.Live()
       && s.bindings[kind].lifecycle.operationId == op
    then
      var attempt := s.bindings[kind].retryAttempt + 1;
      var b := s.bindings[kind].(retryAttempt := attempt);
      if attempt > MAX_RETRY_ATTEMPTS then
        Outcome(s.(bindings := s.bindings[kind := b.(lifecycle := Failed(attempt, error))]), [])
      else
        var id := s.nextEffectId;
        Outcome(
          s.(bindings := s.bindings[kind := b.(lifecycle := Waiting(RetryableFailure(attempt)))],
             nextEffectId := id + 1),
          [ScheduleRetry(id, kind, attempt, attempt)])
    else
      Outcome(s, [])
  }

  function OnRetryTimer(s: State, kind: BindingKind, retryId: nat): Outcome {
    if kind in s.bindings
       && s.bindings[kind].lifecycle.Waiting?
       && s.bindings[kind].lifecycle.reason.RetryableFailure?
       && s.bindings[kind].retryAttempt == retryId
    then StartBinding(s, kind)
    else Outcome(s, [])
  }

  function Observe(s: State, obs: Observation, order: seq<BindingKind>): Outcome {
    match obs
    case DefaultEndpointChanged(flow, role, id) =>
      var s' := s.(defaultRoutes := s.defaultRoutes[(flow, role) := id]);
      ReactAll(s', Rebind, Selected(s', obs, order))
    case EndpointRemoved(_) =>
      ReactAll(s, StopThen(WaitForRecovery(DeviceUnavailable)), Selected(s, obs, order))
    case EndpointAdded(_) =>
      ReactAll(s, StartNow, Selected(s, obs, order))
    case ProcessExited(pid) =>
      if RunsProcess(s, pid) then StopBinding(s, ProcessLoopback, WaitForRecovery(ProcessNotFound))
      else Outcome(s, [])
    case ProcessRestarted(oldPid, newPid) =>
      if RunsProcess(s, oldPid) then StopBinding(WithNewPid(s, newPid), ProcessLoopback, ResolveAndStart)
      else Outcome(s, [])
    case WorkerStarted(kind, op, epoch, target) => OnWorkerStarted(s, kind, op, epoch, target)
    case WorkerStopped(kind, op, epoch) => OnWorkerStopped(s, kind, op, epoch)
    case WorkerFailed(kind, op, error) => OnWorkerFailed(s, kind, op, error)
  }

  function Decide(s: State, input: DecisionInput, order: seq<BindingKind>): Outcome {
    match input
    case ShutdownRequested => ReactAll(s.(shutdown := true), StopThen(RemainStopped), order)
    case UserStart(kind) => StartBinding(s, kind)
    case UserStop(kind) => StopBinding(s, kind, RemainStopped)
    case RetryTimerFired(kind, retryId) => OnRetryTimer(s, kind, retryId)
    case Observed(obs) => Observe(s, obs, order)
  }

  /** `order` lists every key of the binding map exactly once. */
  ghost predicate Visits(order: seq<BindingKind>, keys: set<BindingKind>) {
    Distinct(order) && forall k :: k in order <==> k in keys
  }

  lemma SomeOrder(keys: set<BindingKind>) returns (order: seq<BindingKind>)
    ensures Visits(order, keys)
  {
    order := [];
    if keys != {} {
      var kind :| kind in keys;
      var rest := SomeOrder(keys - {kind});
      order := rest + [kind];
    }
  }
}
