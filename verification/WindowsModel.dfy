/**
  The Windows supervisor (crates/app-service/src/windows_supervisor.rs) on values.

  One supervisor executes the effects of the rebinding decision: it owns a table of capture
  workers, hands finished ones to joiner threads, and schedules retry timers. Everything that
  reaches it through a channel is an `Event`; the channels are polled in any order. The
  environment is unconstrained, except that an outstanding joiner or timer reports once.
*/
module WindowsModel {
  import opened Rebinding
  import opened RebindingMoves

  /** `thread` identifies the capture thread behind the handle. */
  datatype Worker = Worker(operationId: nat, epoch: nat, target: ResolvedTarget, thread: nat)

  datatype Joiner = Joiner(binding: BindingKind, operationId: nat, epoch: nat)

  datatype Supervisor = Supervisor(
    state: State,
    workers: map<BindingKind, Worker>,
    pendingJoins: nat,
    joiners: map<nat, Joiner>,                // outstanding joiners, by the thread they wait for
    timers: multiset<(BindingKind, nat)>,     // outstanding retry timers
    joined: set<nat>,                         // threads whose join was reported
    nextThread: nat,
    forwarded: seq<(BindingKind, nat)>)       // binding and epoch of every frame passed on

  datatype Event =
    | Frame(stream: BindingKind, epoch: nat)
    | StreamStarted(stream: BindingKind)
    | StreamError(stream: BindingKind, error: string)
    | StreamStalled(stream: BindingKind)
    | StreamStopped(stream: BindingKind, deviceLost: bool)
    | SessionDisconnected(stream: BindingKind, reason: string)
    | DeviceChange(observation: Observation)
    | JoinDone(thread: nat)
    | RetryDue(binding: BindingKind, retryId: nat)
    | StartRequest(binding: BindingKind)
    | ShutdownSignal

  predicate IsDeviceChange(obs: Observation) {
    obs.EndpointRemoved? || obs.EndpointAdded? || obs.DefaultEndpointChanged?
  }

  predicate Enabled(s: Supervisor, event: Event) {
    match event
    case DeviceChange(obs) => IsDeviceChange(obs)
    case JoinDone(thread) => thread in s.joiners
    case RetryDue(binding, retryId) => (binding, retryId) in s.timers
    case _ => true
  }

  // ---- Effects ----------------------------------------------------------------------

  function SpawnJoiner(s: Supervisor, joiner: Joiner, thread: nat): Supervisor {
    s.(pendingJoins := s.pendingJoins + 1, joiners := s.joiners[thread := joiner])
  }

  function ExecuteOne(s: Supervisor, effect: Effect): Supervisor {
    match effect
    case StartCapture(_, binding, op, epoch, target) =>
      s.(workers := s.workers[binding := Worker(op, epoch, target, s.nextThread)],
         nextThread := s.nextThread + 1)
    case StopCapture(_, binding, op, epoch) =>
      if binding in s.workers then
        SpawnJoiner(s.(workers := s.workers - {binding}), Joiner(binding, op, epoch), s.workers[binding].thread)
      else s
    case ScheduleRetry(_, binding, retryId, _) =>
      s.(timers := s.timers + multiset{(binding, retryId)})
  }

  function Execute(s: Supervisor, effects: seq<Effect>): Supervisor
    decreases |effects|
  {
    if effects == [] then s else Execute(ExecuteOne(s, effects[0]), effects[1..])
  }

  function Deliver(s: Supervisor, input: DecisionInput, order: seq<BindingKind>): Supervisor {
    var o := Decide(s.state, input, order);
    Execute(s.(state := o.state), o.effects)
  }

  function Reap(s: Supervisor, binding: BindingKind, op: nat): Supervisor {
    if binding in s.workers && s.workers[binding].operationId == op then
      var w := s.workers[binding];
      SpawnJoiner(s.(workers := s.workers - {binding}), Joiner(binding, w.operationId, w.epoch), w.thread)
    else s
  }

  // ---- Events -----------------------------------------------------------------------

  function Fail(s: Supervisor, stream: BindingKind, error: string, order: seq<BindingKind>): Supervisor {
    if stream in s.workers then
      var op := s.workers[stream].operationId;
      Reap(Deliver(s, Observed(WorkerFailed(stream, op, error)), order), stream, op)
    else s
  }

  function JoinReported(s: Supervisor, thread: nat): Supervisor {
    s.(pendingJoins := if s.pendingJoins == 0 then 0 else s.pendingJoins - 1,
       joiners := s.joiners - {thread},
       joined := s.joined + {thread})
  }

  function Step(s: Supervisor, event: Event, order: seq<BindingKind>): Supervisor
    requires Enabled(s, event)
  {
    match event
    case Frame(stream, epoch) =>
      if s.state.AcceptsEpoch(stream, epoch) then s.(forwarded := s.forwarded + [(stream, epoch)]) else s
    case StreamStarted(stream) =>
      if stream in s.workers then
        var w := s.workers[stream];
        Deliver(s, Observed(WorkerStarted(stream, w.operationId, w.epoch, w.target)), order)
      else s
    case StreamError(stream, error) => Fail(s, stream, error, order)
    case StreamStalled(_) => s
    case StreamStopped(stream, deviceLost) =>
      if deviceLost then Fail(s, stream, "worker stopped unexpectedly (exit=DeviceLost)", order) else s
    case SessionDisconnected(stream, reason) =>
      Fail(s, stream, "audio session disconnected (reason=" + reason + ")", order)
    case DeviceChange(obs) => Deliver(s, Observed(obs), order)
    case JoinDone(thread) =>
      var j := s.joiners[thread];
      Deliver(JoinReported(s, thread), Observed(WorkerStopped(j.binding, j.operationId, j.epoch)), order)
    case RetryDue(binding, retryId) =>
      Deliver(s.(timers := s.timers - multiset{(binding, retryId)}), RetryTimerFired(binding, retryId), order)
    case StartRequest(binding) => Deliver(s, UserStart(binding), order)
    case ShutdownSignal => Deliver(s, ShutdownRequested, order)
  }

  // ---- What holds between events ----------------------------------------------------

  /** Every spawned thread is in the table, with one joiner, or joined: exactly one of them. */
  ghost predicate ThreadsAccounted(s: Supervisor) {
    && (forall k :: k in s.workers ==>
          var t := s.workers[k].thread; t < s.nextThread && t !in s.joiners && t !in s.joined)
    && (forall j, k :: j in s.workers && k in s.workers && j != k ==> s.workers[j].thread != s.workers[k].thread)
    && (forall t :: t in s.joiners ==> t < s.nextThread && t !in s.joined)
    && (forall t :: t in s.joined ==> t < s.nextThread)
    && (forall t: nat :: t < s.nextThread ==> t in s.joiners || t in s.joined || OwnsThread(s, t))
    && s.pendingJoins == |s.joiners|
  }

  ghost predicate OwnsThread(s: Supervisor, t: nat) {
    exists k :: k in s.workers && s.workers[k].thread == t
  }

  ghost predicate OperationsAccounted(s: Supervisor) {
    && (forall k :: k in s.workers ==> s.workers[k].operationId < s.state.nextOperationId)
    && (forall j, k :: j in s.workers && k in s.workers && j != k ==>
          s.workers[j].operationId != s.workers[k].operationId)
    && (forall t :: t in s.joiners ==> s.joiners[t].operationId < s.state.nextOperationId)
    && (forall t, u :: t in s.joiners && u in s.joiners && t != u ==>
         s.joiners[t].operationId != s.joiners[u].operationId)
    && (forall k, t :: k in s.workers && t in s.joiners ==> s.workers[k].operationId != s.joiners[t].operationId)
  }

  ghost predicate WorkerFor(s: Supervisor, k: BindingKind)
    requires k in s.state.bindings && s.state.bindings[k].lifecycle.Live()
  {
    && k in s.workers
    && s.workers[k].operationId == s.state.bindings[k].lifecycle.operationId
    && s.workers[k].epoch == s.state.bindings[k].lifecycle.epoch
    && s.workers[k].target == s.state.bindings[k].lifecycle.target
  }

  ghost predicate TableOk(s: Supervisor, k: BindingKind) {
    if k in s.state.bindings && s.state.bindings[k].lifecycle.Live() then WorkerFor(s, k) else k !in s.workers
  }

  ghost predicate JoinOk(s: Supervisor, k: BindingKind) {
    k in s.state.bindings && s.state.bindings[k].lifecycle.Stopping? ==>
      var lc := s.state.bindings[k].lifecycle;
      HasJoiner(s, Joiner(k, lc.operationId, lc.epoch))
  }

  ghost predicate HasJoiner(s: Supervisor, joiner: Joiner) {
    exists t :: t in s.joiners && s.joiners[t] == joiner
  }

  ghost predicate TimerOk(s: Supervisor, k: BindingKind) {
    k in s.state.bindings && s.state.bindings[k].lifecycle.Waiting?
    && s.state.bindings[k].lifecycle.reason.RetryableFailure? && !s.state.shutdown ==>
      (k, s.state.bindings[k].lifecycle.reason.attempt) in s.timers
  }

  /** Forwarded frames of one binding never go back to an earlier epoch. */
  ghost predicate FramesOk(s: Supervisor) {
    && (forall i, j :: 0 <= i < j < |s.forwarded| && s.forwarded[i].0 == s.forwarded[j].0 ==>
          s.forwarded[i].1 <= s.forwarded[j].1)
    && (forall i :: 0 <= i < |s.forwarded| ==> s.forwarded[i].1 < s.state.nextStreamEpoch)
    && (forall i :: 0 <= i < |s.forwarded| ==> FrameOk(s.state, s.forwarded[i].0, s.forwarded[i].1))
  }

  /** No frame from beyond the generation the binding is in. */
  ghost predicate FrameOk(s: State, k: BindingKind, epoch: nat) {
    k in s.bindings && s.bindings[k].lifecycle.Holds() ==> epoch <= s.bindings[k].lifecycle.epoch
  }

  ghost predicate CoreOk(s: Supervisor) {
    && WellFormed(s.state)
    && EndpointsOnly(s.state)
    && ThreadsAccounted(s)
    && OperationsAccounted(s)
    && FramesOk(s)
  }

  ghost predicate SupervisorOk(s: Supervisor) {
    CoreOk(s) && forall k: BindingKind :: TableOk(s, k) && JoinOk(s, k) && TimerOk(s, k)
  }

  // ---- While effects are being executed ---------------------------------------------

  ghost predicate UnusedOperation(s: Supervisor, op: nat) {
    && (forall k :: k in s.workers ==> s.workers[k].operationId != op)
    && (forall t :: t in s.joiners ==> s.joiners[t].operationId != op)
  }

  /** Binding `k` when the effects `es` for it are still to be executed. */
  ghost predicate Agrees(s: Supervisor, k: BindingKind, es: seq<Effect>) {
    if es == [] then
      TableOk(s, k) && JoinOk(s, k) && TimerOk(s, k)
    else
      && |es| == 1 && k in s.state.bindings
      && var lc := s.state.bindings[k].lifecycle;
         match es[0]
         case StartCapture(_, _, op, epoch, target) =>
           lc == Starting(op, epoch, target) && k !in s.workers && UnusedOperation(s, op)
         case StopCapture(_, _, op, epoch) =>
           lc.Stopping? && lc.operationId == op && lc.epoch == epoch
           && k in s.workers && s.workers[k].operationId == op && s.workers[k].epoch == epoch
         case ScheduleRetry(_, _, _, _) => false
  }

  ghost predicate Buildable(e: Effect) {
    e.StartCapture? ==> e.target.EndpointTarget? && e.binding != ProcessLoopback
  }

  ghost predicate PendingOk(s: Supervisor, effects: seq<Effect>) {
    && CoreOk(s)
    && (forall k: BindingKind :: Agrees(s, k, EffectsFor(effects, k)))
    && (forall i :: 0 <= i < |effects| ==> Buildable(effects[i]))
  }
}
