/**
  The macOS supervisor (crates/app-service/src/macos_supervisor.rs) on values.

  One shared stream serves every binding at once. Effects only update the worker table;
  after each batch `Reconcile` compares the bindings in the table with those the shared
  stream was built for, and tears the stream down and rebuilds it when they differ.
*/
module MacosModel {
  import opened Prelude
  import opened Rebinding
  import opened RebindingMoves

  datatype Worker = Worker(operationId: nat, epoch: nat, target: ResolvedTarget)

  datatype SharedStream = SharedStream(
    bindings: set<BindingKind>,
    operationIds: map<BindingKind, nat>,
    microphoneEpoch: Option<nat>,
    systemAudioBinding: BindingKind,
    systemAudioEpoch: Option<nat>,
    microphoneDevice: Option<EndpointId>,
    thread: nat)
  {
    /** The epoch the stream stamps on frames of `k`. */
    function HandedEpoch(k: BindingKind): Option<nat> {
      if k == Microphone then microphoneEpoch
      else if k == systemAudioBinding then systemAudioEpoch
      else None
    }
  }

  datatype Supervisor = Supervisor(
    state: State,
    workers: map<BindingKind, Worker>,
    active: Option<SharedStream>,
    pendingJoins: nat,
    joining: set<nat>,                       // threads handed to a joiner that has not reported
    joined: set<nat>,
    timers: multiset<(BindingKind, nat)>,
    nextThread: nat)

  // ---- The shared stream ------------------------------------------------------------

  function EpochOf(workers: map<BindingKind, Worker>, k: BindingKind): Option<nat> {
    if k in workers then Some(workers[k].epoch) else None
  }

  function SystemAudioBinding(desired: set<BindingKind>): BindingKind {
    if ProcessLoopback in desired then ProcessLoopback else EndpointLoopback
  }

  function MicrophoneDevice(workers: map<BindingKind, Worker>): Option<EndpointId> {
    if Microphone in workers && workers[Microphone].target.EndpointTarget?
    then Some(workers[Microphone].target.id)
    else None
  }

  function BuildStream(workers: map<BindingKind, Worker>, thread: nat): SharedStream {
    var audio := SystemAudioBinding(workers.Keys);
    SharedStream(
      workers.Keys,
      map k | k in workers :: workers[k].operationId,
      EpochOf(workers, Microphone),
      audio,
      EpochOf(workers, audio),
      MicrophoneDevice(workers),
      thread)
  }

  function Served(s: Supervisor): set<BindingKind> {
    if s.active.Some? then s.active.value.bindings else {}
  }

  function TearDown(s: Supervisor): Supervisor {
    if s.active.Some? then
      s.(active := None, pendingJoins := s.pendingJoins + 1, joining := s.joining + {s.active.value.thread})
    else s
  }

  function Reconcile(s: Supervisor): Supervisor {
    if s.workers.Keys == Served(s) then s
    else
      var down := TearDown(s);
      if s.workers.Keys == {} then down
      else down.(active := Some(BuildStream(s.workers, s.nextThread)), nextThread := s.nextThread + 1)
  }

  // ---- Effects ----------------------------------------------------------------------

  function StopCount(effects: seq<Effect>): nat {
    if effects == [] then 0 else (if effects[0].StopCapture? then 1 else 0) + StopCount(effects[1..])
  }

  /** Executes a batch; `StopCapture` reports the stop at once and executes the answer first. */
  function Execute(s: Supervisor, effects: seq<Effect>): Supervisor
    decreases StopCount(effects), |effects|, 1
  {
    var after := ApplyAll(s, effects);
    if ChangesBindings(effects) then Reconcile(after) else after
  }

  /** Why the recursion ends: the answer to a stop contains no further stop. */
  lemma StopsAnswerWithoutStops(s: State, binding: BindingKind, op: nat, epoch: nat)
    ensures StopCount(OnWorkerStopped(s, binding, op, epoch).effects) == 0
    ensures |OnWorkerStopped(s, binding, op, epoch).effects| <= 1
  {
  }

  predicate ChangesBindings(effects: seq<Effect>) {
    exists i :: 0 <= i < |effects| && !effects[i].ScheduleRetry?
  }

  function ApplyAll(s: Supervisor, effects: seq<Effect>): Supervisor
    decreases StopCount(effects), |effects|, 0
  {
    if effects == [] then s
    else
      match effects[0]
      case StartCapture(_, binding, op, epoch, target) =>
        ApplyAll(s.(workers := s.workers[binding := Worker(op, epoch, target)]), effects[1..])
      case StopCapture(_, binding, op, epoch) =>
        var o := OnWorkerStopped(s.state, binding, op, epoch);
        StopsAnswerWithoutStops(s.state, binding, op, epoch);
        var answered := Execute(s.(workers := s.workers - {binding}, state := o.state), o.effects);
        ApplyAll(answered, effects[1..])
      case ScheduleRetry(_, binding, retryId, _) =>
        ApplyAll(s.(timers := s.timers + multiset{(binding, retryId)}), effects[1..])
  }

  // ---- Events -----------------------------------------------------------------------

  datatype Event =
    | StreamStarted(stream: BindingKind)
    | StreamError(stream: BindingKind, error: string)
    | StreamStopped
    | DeviceChange(observation: Observation)
    | DeviceList(removed: seq<EndpointId>, added: seq<EndpointId>)
    | JoinDone(thread: nat)
    | RetryDue(binding: BindingKind, retryId: nat)
    | StartAll
    | ShutdownSignal

  predicate Enabled(s: Supervisor, event: Event) {
    match event
    case JoinDone(thread) => thread in s.joining
    case RetryDue(binding, retryId) => (binding, retryId) in s.timers
    case DeviceChange(obs) =>
      obs.EndpointRemoved? || obs.EndpointAdded? || obs.DefaultEndpointChanged? || obs.ProcessExited?
    case _ => true
  }

  /** Several inputs decided one after the other before any effect is executed. */
  function DecideAll(s: State, inputs: seq<DecisionInput>, orders: seq<seq<BindingKind>>): Outcome
    requires |orders| == |inputs|
  {
    if inputs == [] then Outcome(s, [])
    else
      var n := |inputs| - 1;
      var before := DecideAll(s, inputs[..n], orders[..n]);
      var last := Decide(before.state, inputs[n], orders[n]);
      Outcome(last.state, before.effects + last.effects)
  }

  function Removals(ids: seq<EndpointId>): seq<DecisionInput> {
    seq(|ids|, i requires 0 <= i < |ids| => Observed(EndpointRemoved(ids[i])))
  }

  function Additions(ids: seq<EndpointId>): seq<DecisionInput> {
    seq(|ids|, i requires 0 <= i < |ids| => Observed(EndpointAdded(ids[i])))
  }

  function Batch(event: Event): seq<DecisionInput> {
    match event
    case DeviceChange(obs) => [Observed(obs)]
    case DeviceList(removed, added) => Removals(removed) + Additions(added)
    case StartAll => [UserStart(Microphone), UserStart(EndpointLoopback)]
    case RetryDue(binding, retryId) => [RetryTimerFired(binding, retryId)]
    case ShutdownSignal => [ShutdownRequested]
    case _ => []
  }

  function DeliverAll(s: Supervisor, inputs: seq<DecisionInput>, orders: seq<seq<BindingKind>>): Supervisor
    requires |orders| == |inputs|
  {
    var o := DecideAll(s.state, inputs, orders);
    Execute(s.(state := o.state), o.effects)
  }

  /** Some sibling the shared stream was serving has not reported its error yet. */
  predicate AwaitsSiblings(s: Supervisor) {
    s.active.Some? &&
    exists k :: k in s.active.value.operationIds && k in s.workers
                && s.workers[k].operationId == s.active.value.operationIds[k]
  }

  function Fail(s: Supervisor, stream: BindingKind, error: string): Supervisor {
    if stream in s.workers then
      var o := OnWorkerFailed(s.state, stream, s.workers[stream].operationId, error);
      var m := Execute(s.(state := o.state, workers := s.workers - {stream}), o.effects);
      if AwaitsSiblings(m) then m else Reconcile(m)
    else s
  }

  /** `orders` has one visiting order for each input of the batch. */
  function Step(s: Supervisor, event: Event, orders: seq<seq<BindingKind>>): Supervisor
    requires |orders| == |Batch(event)|
  {
    match event
    case StreamStarted(stream) =>
      if stream in s.workers then
        var w := s.workers[stream];
        var o := OnWorkerStarted(s.state, stream, w.operationId, w.epoch, w.target);
        Execute(s.(state := o.state), o.effects)
      else s
    case StreamError(stream, error) => Fail(s, stream, error)
    case StreamStopped => s
    case JoinDone(thread) =>
      s.(pendingJoins := if s.pendingJoins == 0 then 0 else s.pendingJoins - 1,
         joining := s.joining - {thread}, joined := s.joined + {thread})
    case RetryDue(binding, retryId) =>
      DeliverAll(s.(timers := s.timers - multiset{(binding, retryId)}), Batch(event), orders)
    case _ => DeliverAll(s, Batch(event), orders)
  }

  // ---- What holds between events ----------------------------------------------------

  /** What `pin_devices` binds: pinned endpoints, never a followed default. */
  ghost predicate PinnedOnly(s: State) {
    EndpointsOnly(s) && forall k :: k in s.bindings ==> s.bindings[k].selection.endpoint.Pinned?
  }

  ghost predicate WorkerFor(s: Supervisor, k: BindingKind)
    requires k in s.state.bindings && s.state.bindings[k].lifecycle.Live()
  {
    && k in s.workers
    && s.workers[k].operationId == s.state.bindings[k].lifecycle.operationId
    && s.workers[k].epoch == s.state.bindings[k].lifecycle.epoch
    && s.workers[k].target == s.state.bindings[k].lifecycle.target
  }

  ghost predicate TableOk(s: Supervisor, k: BindingKind) {
    if k in s.state.bindings && s.state.bindings[k].lifecycle.Live() then WorkerFor(s, k) else k !in s.workers
  }

  ghost predicate NotStopping(s: Supervisor, k: BindingKind) {
    k in s.state.bindings ==> !s.state.bindings[k].lifecycle.Stopping?
  }

  ghost predicate TimerOk(s: Supervisor, k: BindingKind) {
    k in s.state.bindings && s.state.bindings[k].lifecycle.Waiting?
    && s.state.bindings[k].lifecycle.reason.RetryableFailure? && !s.state.shutdown ==>
      (k, s.state.bindings[k].lifecycle.reason.attempt) in s.timers
  }

  /** One stream at a time: every spawned thread is the active one, being joined, or joined. */
  ghost predicate ThreadsAccounted(s: Supervisor) {
    && s.pendingJoins == |s.joining|
    && s.joining !! s.joined
    && (s.active.Some? ==>
          var t := s.active.value.thread; t < s.nextThread && t !in s.joining && t !in s.joined)
    && (forall t :: t in s.joining || t in s.joined ==> t < s.nextThread)
    && (forall t: nat :: t < s.nextThread ==>
          t in s.joining || t in s.joined || (s.active.Some? && s.active.value.thread == t))
  }

  /** The active stream serves the table: same bindings, same operations, everyone's own epoch, and
      the microphone that was asked for. */
  ghost predicate StreamCurrent(s: Supervisor) {
    && s.workers.Keys == Served(s)
    && forall k :: k in s.workers ==>
         && k in s.active.value.operationIds
         && s.active.value.operationIds[k] == s.workers[k].operationId
         && s.active.value.HandedEpoch(k) == Some(s.workers[k].epoch)
         && (k == Microphone && s.workers[k].target.EndpointTarget? ==>
               s.active.value.microphoneDevice == Some(s.workers[k].target.id))
  }
}
