/**
  The shared stream of the macOS supervisor over runs: when it serves the worker table, when an
  event makes it stale, and when an event repairs it.

  Bindings are pinned, as `pin_devices` makes them. A rebuild compares only sets of bindings, so a
  binding that fails and is started again before its sibling has reported leaves the old stream in
  place. The guard of that branch, and the events that get the stream rebuilt, decide exactly when
  the stream serves the table.
*/
module MacosStreams {
  import opened Prelude
  import opened Rebinding
  import opened RebindingMoves
  import opened MacosModel
  import opened MacosProofs

  // ---- The guards -------------------------------------------------------------------

  /** The shared stream and the table agree on the operation `j` is in. */
  ghost predicate Matched(s: Supervisor, j: BindingKind) {
    s.active.Some? && j in s.active.value.operationIds && j in s.workers
    && s.workers[j].operationId == s.active.value.operationIds[j]
  }

  /** The error of a binding comes in while a sibling's error is still awaited. */
  ghost predicate Breaks(s: Supervisor, event: Event) {
    event.StreamError? && event.stream in s.workers && exists j :: j != event.stream && Matched(s, j)
  }

  /** The event stops `k`: shutdown, or its device is gone. */
  ghost predicate StopsBinding(s: Supervisor, event: Event, k: BindingKind) {
    k in s.state.bindings && s.state.bindings[k].lifecycle.Running? &&
    var target := s.state.bindings[k].lifecycle.target;
    match event
    case ShutdownSignal => true
    case DeviceChange(obs) => obs.EndpointRemoved? && target == EndpointTarget(obs.endpointId)
    case DeviceList(removed, _) => target.EndpointTarget? && target.id in removed
    case _ => false
  }

  /** The last awaited error comes in, or some binding is stopped. */
  ghost predicate Repairs(s: Supervisor, event: Event) {
    || (event.StreamError? && event.stream in s.workers && forall j :: j != event.stream ==> !Matched(s, j))
    || exists k :: StopsBinding(s, event, k)
  }

  // ---- Pinned bindings are never restarted by a stop --------------------------------

  /** No stop in progress restarts its binding. */
  ghost predicate NoRestart(s: State) {
    forall k :: k in s.bindings && s.bindings[k].lifecycle.Stopping? ==> !s.bindings[k].lifecycle.next.ResolveAndStart?
  }

  /** The inputs this supervisor decides on: no process restarts, no stops on request. */
  ghost predicate MacosInput(input: DecisionInput) {
    match input
    case UserStart(_) => true
    case UserStop(_) => false
    case RetryTimerFired(_, _) => true
    case ShutdownRequested => true
    case Observed(obs) =>
      obs.EndpointRemoved? || obs.EndpointAdded? || obs.DefaultEndpointChanged? || obs.ProcessExited?
  }

  ghost predicate HaltedBy(input: DecisionInput, lc: Lifecycle) {
    lc.Running? &&
    (input.ShutdownRequested?
     || (input.Observed? && input.observation.EndpointRemoved?
         && lc.target == EndpointTarget(input.observation.endpointId)))
  }

  /** What an input does to a lifecycle, as far as stopping is concerned. */
  ghost predicate StopsAs(halted: bool, lc: Lifecycle, lc': Lifecycle) {
    && (halted ==> lc'.Stopping? && !lc'.next.ResolveAndStart?)
    && (!halted && (lc.Running? || lc.Stopping?) ==> lc' == lc)
    && (!lc.Running? && !lc.Stopping? ==> !lc'.Running? && !lc'.Stopping?)
  }

  lemma {:induction false} StopPass(s: State, next: AfterStop, kinds: seq<BindingKind>, k: BindingKind)
    requires k in s.bindings && !next.ResolveAndStart?
    ensures var s' := ReactAll(s, StopThen(next), kinds).state;
            && k in s'.bindings && s'.bindings[k].selection == s.bindings[k].selection
            && StopsAs(k in kinds && s.bindings[k].lifecycle.Running?, s.bindings[k].lifecycle,
                       s'.bindings[k].lifecycle)
  {
    if kinds != [] {
      StopPass(s, next, kinds[..|kinds| - 1], k);
    }
  }

  lemma StartStops(s: State, kind: BindingKind, k: BindingKind)
    requires k in s.bindings
    ensures var s' := StartBinding(s, kind).state;
            && k in s'.bindings && s'.bindings[k].selection == s.bindings[k].selection
            && StopsAs(false, s.bindings[k].lifecycle, s'.bindings[k].lifecycle)
  {
  }

  lemma {:induction false} StartPass(s: State, kinds: seq<BindingKind>, k: BindingKind)
    requires k in s.bindings
    ensures var s' := ReactAll(s, StartNow, kinds).state;
            && k in s'.bindings && s'.bindings[k].selection == s.bindings[k].selection
            && StopsAs(false, s.bindings[k].lifecycle, s'.bindings[k].lifecycle)
  {
    hide StartBinding;
    if kinds != [] {
      StartPass(s, kinds[..|kinds| - 1], k);
      StartStops(ReactAll(s, StartNow, kinds[..|kinds| - 1]).state, kinds[|kinds| - 1], k);
    }
  }

  lemma {:induction false} PinnedFollowNothing(s: State, obs: Observation, order: seq<BindingKind>)
    requires PinnedOnly(s) && obs.DefaultEndpointChanged?
    ensures Selected(s, obs, order) == []
  {
    if order != [] {
      PinnedFollowNothing(s, obs, order[..|order| - 1]);
    }
  }

  /** One decision: exactly the running bindings the input halts are stopped, for good. */
  lemma DecideStops(s: State, input: DecisionInput, order: seq<BindingKind>, k: BindingKind)
    requires PinnedOnly(s) && MacosInput(input) && Visits(order, s.bindings.Keys) && k in s.bindings
    ensures var s' := Decide(s, input, order).state;
            && k in s'.bindings && s'.bindings[k].selection == s.bindings[k].selection
            && StopsAs(HaltedBy(input, s.bindings[k].lifecycle), s.bindings[k].lifecycle, s'.bindings[k].lifecycle)
  {
    hide ReactAll, StartBinding, Selected;
    match input
    case UserStart(kind) => StartStops(s, kind, k);
    case RetryTimerFired(kind, _) => StartStops(s, kind, k);
    case ShutdownRequested => StopPass(s.(shutdown := true), RemainStopped, order, k);
    case Observed(obs) =>
      match obs
      case DefaultEndpointChanged(flow, role, id) =>
        var m := s.(defaultRoutes := s.defaultRoutes[(flow, role) := id]);
        PinnedFollowNothing(m, obs, order);
        NoPass(m, Rebind);
      case EndpointRemoved(_) =>
        SelectedIsSound(s, obs, order);
        StopPass(s, WaitForRecovery(DeviceUnavailable), Selected(s, obs, order), k);
      case EndpointAdded(_) => StartPass(s, Selected(s, obs, order), k);
      case ProcessExited(_) =>
  }

  lemma NoPass(s: State, reaction: Reaction)
    ensures ReactAll(s, reaction, []) == Outcome(s, [])
  {
  }

  lemma DecideStaysPinned(s: State, input: DecisionInput, order: seq<BindingKind>)
    requires WellFormed(s) && PinnedOnly(s) && NoRestart(s) && MacosInput(input) && Visits(order, s.bindings.Keys)
    ensures var s' := Decide(s, input, order).state;
            WellFormed(s') && PinnedOnly(s') && NoRestart(s') && s'.bindings.Keys == s.bindings.Keys
  {
    hide Decide, WellFormed;
    DecideKeepsWellFormed(s, input, order);
    DecideFrames(s, input, order);
    var s' := Decide(s, input, order).state;
    forall k | k in s'.bindings
      ensures s'.bindings[k].selection == s.bindings[k].selection
      ensures s'.bindings[k].lifecycle.Stopping? ==> !s'.bindings[k].lifecycle.next.ResolveAndStart?
    {
      DecideStops(s, input, order, k);
    }
  }

  // ---- A batch of decisions ---------------------------------------------------------

  ghost predicate BatchReady(s: State, inputs: seq<DecisionInput>, orders: seq<seq<BindingKind>>) {
    && WellFormed(s) && PinnedOnly(s) && NoRestart(s) && |orders| == |inputs|
    && forall i :: 0 <= i < |inputs| ==> MacosInput(inputs[i]) && Visits(orders[i], s.bindings.Keys)
  }

  lemma {:induction false} BatchFrames(s: State, inputs: seq<DecisionInput>, orders: seq<seq<BindingKind>>)
    requires BatchReady(s, inputs, orders)
    ensures var o := DecideAll(s, inputs, orders);
            && Frames(s, o.state, o.effects)
            && WellFormed(o.state) && PinnedOnly(o.state) && NoRestart(o.state)
  {
    hide Decide, WellFormed, NoRestart, PinnedOnly, Visits;
    if inputs == [] {
      NothingFrames(s, Microphone);
    } else {
      var n := |inputs| - 1;
      BatchFrames(s, inputs[..n], orders[..n]);
      var before := DecideAll(s, inputs[..n], orders[..n]);
      DecideFrames(before.state, inputs[n], orders[n]);
      DecideStaysPinned(before.state, inputs[n], orders[n]);
      var last := Decide(before.state, inputs[n], orders[n]);
      FramesCompose(s, before.state, last.state, before.effects, last.effects);
    }
  }

  ghost predicate SomeHalts(inputs: seq<DecisionInput>, lc: Lifecycle) {
    exists i :: 0 <= i < |inputs| && HaltedBy(inputs[i], lc)
  }

  /** The bindings a batch leaves stopping are the running ones that one of its inputs halts. */
  lemma {:induction false} BatchStops(s: State, inputs: seq<DecisionInput>, orders: seq<seq<BindingKind>>,
                                      k: BindingKind)
    requires BatchReady(s, inputs, orders) && k in s.bindings && !s.bindings[k].lifecycle.Stopping?
    ensures var s' := DecideAll(s, inputs, orders).state;
            && k in s'.bindings
            && (s'.bindings[k].lifecycle.Stopping? <==> SomeHalts(inputs, s.bindings[k].lifecycle))
            && (s.bindings[k].lifecycle.Running? && !SomeHalts(inputs, s.bindings[k].lifecycle) ==>
                  s'.bindings[k].lifecycle == s.bindings[k].lifecycle)
            && (!s.bindings[k].lifecycle.Running? ==> !s'.bindings[k].lifecycle.Running?)
  {
    hide Decide, WellFormed, Visits, PinnedOnly;
    if inputs != [] {
      var n := |inputs| - 1;
      var front := inputs[..n];
      BatchStops(s, front, orders[..n], k);
      BatchFrames(s, front, orders[..n]);
      var before := DecideAll(s, front, orders[..n]);
      DecideStops(before.state, inputs[n], orders[n], k);
      MoreHalts(inputs, s.bindings[k].lifecycle);
    }
  }

  lemma MoreHalts(inputs: seq<DecisionInput>, lc: Lifecycle)
    requires inputs != []
    ensures var n := |inputs| - 1; SomeHalts(inputs, lc) <==> SomeHalts(inputs[..n], lc) || HaltedBy(inputs[n], lc)
  {
    var n := |inputs| - 1;
    if SomeHalts(inputs, lc) {
      var i :| 0 <= i < |inputs| && HaltedBy(inputs[i], lc);
      assert i == n || inputs[..n][i] == inputs[i];
    }
    if SomeHalts(inputs[..n], lc) {
      var i :| 0 <= i < n && HaltedBy(inputs[..n][i], lc);
      assert inputs[i] == inputs[..n][i];
    }
  }

  // ---- Carrying out a batch ---------------------------------------------------------

  /** What carrying out the effects `es` for `k` does to its entry in the table. */
  ghost predicate Tabled(before: map<BindingKind, Worker>, after: map<BindingKind, Worker>, k: BindingKind,
                         es: seq<Effect>) {
    if es == [] then
      (k in before <==> k in after) && (k in before ==> after[k] == before[k])
    else
      match es[0]
      case StartCapture(_, _, op, _, _) => k !in before && k in after && after[k].operationId == op
      case StopCapture(_, _, _, _) => k in before && k !in after
      case ScheduleRetry(_, _, _, _) => false
  }

  /** The lifecycle of a binding once its pending stop is reported. */
  function RestOf(lc: Lifecycle): Lifecycle {
    if lc.Stopping? && lc.next.RemainStopped? then Stopped
    else if lc.Stopping? && lc.next.WaitForRecovery? then Waiting(lc.next.why)
    else lc
  }

  /** A stop that is reported brings its binding to rest and leaves the others alone. */
  lemma StopRests(s: State, e: Effect, k: BindingKind)
    requires NoRestart(s) && e.StopCapture? && k in s.bindings
    ensures var s' := OnWorkerStopped(s, e.binding, e.operationId, e.epoch).state;
            && k in s'.bindings
            && s'.bindings[k].lifecycle in {s.bindings[k].lifecycle, RestOf(s.bindings[k].lifecycle)}
  {
  }

  lemma StopsAnswerNothing(s: State, e: Effect)
    requires NoRestart(s) && e.StopCapture?
    ensures var o := OnWorkerStopped(s, e.binding, e.operationId, e.epoch);
            && o.effects == [] && NoRestart(o.state) && o.state.nextOperationId == s.nextOperationId
            && (PinnedOnly(s) ==> PinnedOnly(o.state)) && o.state.bindings.Keys == s.bindings.Keys
  {
  }

  lemma NothingExecutes(s: Supervisor)
    ensures Execute(s, []) == s && ApplyAll(s, []) == s
  {
  }

  /** Table and stream after one pending effect, with the rest still to come. */
  lemma AppliedFirst(s: Supervisor, e: Effect, rest: seq<Effect>) returns (m: Supervisor)
    requires PendingOk(s, [e] + rest) && NoRestart(s.state)
    ensures PendingOk(m, rest) && NoRestart(m.state) && m.active == s.active && m.nextThread == s.nextThread
    ensures m.state.nextOperationId == s.state.nextOperationId && (PinnedOnly(s.state) ==> PinnedOnly(m.state))
    ensures ApplyAll(s, [e] + rest) == ApplyAll(m, rest) && m.state.bindings.Keys == s.state.bindings.Keys
    ensures Tabled(s.workers, m.workers, e.binding, [e]) && EffectsFor(rest, e.binding) == []
    ensures forall k :: k != e.binding ==> Tabled(s.workers, m.workers, k, [])
    ensures forall k :: k in s.state.bindings ==>
              && k in m.state.bindings
              && m.state.bindings[k].lifecycle in {s.state.bindings[k].lifecycle, RestOf(s.state.bindings[k].lifecycle)}
  {
    hide OnWorkerStopped, PendingOk, NoRestart, PinnedOnly, RestOf;
    assert ([e] + rest)[1..] == rest && ([e] + rest)[0] == e;
    PendingFirst(s, e, rest);
    match e
    case StartCapture(_, binding, op, epoch, target) =>
      StartApplies(s, e, rest);
      m := s.(workers := s.workers[binding := Worker(op, epoch, target)]);
    case StopCapture(_, binding, op, epoch) =>
      StopApplies(s, e, rest);
      StopsAnswerNothing(s.state, e);
      StopUnfolds(s, [e] + rest);
      m := AfterStopOf(s, e);
      forall k | k in s.state.bindings
        ensures k in m.state.bindings
        ensures m.state.bindings[k].lifecycle in {s.state.bindings[k].lifecycle, RestOf(s.state.bindings[k].lifecycle)}
      {
        StopRests(s.state, e, k);
      }
      NothingExecutes(m);
      assert [] + rest == rest;
  }

  lemma PendingFirst(s: Supervisor, e: Effect, rest: seq<Effect>)
    requires PendingOk(s, [e] + rest)
    ensures EffectsFor(rest, e.binding) == [] && !e.ScheduleRetry?
    ensures e.StartCapture? ==> e.binding !in s.workers
    ensures e.StopCapture? ==> e.binding in s.workers
  {
    AgreesFirst(s, e, rest);
  }

  lemma {:induction false} Applied(s: Supervisor, effects: seq<Effect>)
    requires PendingOk(s, effects) && NoRestart(s.state)
    ensures var s' := ApplyAll(s, effects);
            && s'.active == s.active && s'.nextThread == s.nextThread
            && forall k: BindingKind :: Tabled(s.workers, s'.workers, k, EffectsFor(effects, k))
    decreases |effects|
  {
    if effects == [] {
      NothingExecutes(s);
    } else {
      hide PendingOk, NoRestart, ApplyAll;
      var e, rest := effects[0], effects[1..];
      assert effects == [e] + rest;
      var m := AppliedFirst(s, e, rest);
      Applied(m, rest);
      var s' := ApplyAll(s, effects);
      forall k: BindingKind ensures Tabled(s.workers, s'.workers, k, EffectsFor(effects, k)) {
        assert Tabled(m.workers, s'.workers, k, EffectsFor(rest, k));
        TabledTwice(s.workers, m.workers, s'.workers, k, e, rest);
      }
    }
  }

  lemma TabledTwice(a: map<BindingKind, Worker>, b: map<BindingKind, Worker>, c: map<BindingKind, Worker>,
                    k: BindingKind, e: Effect, rest: seq<Effect>)
    requires Tabled(a, b, k, if k == e.binding then [e] else [])
    requires Tabled(b, c, k, EffectsFor(rest, k)) && (k == e.binding ==> EffectsFor(rest, k) == [])
    ensures Tabled(a, c, k, EffectsFor([e] + rest, k))
  {
    assert ([e] + rest)[1..] == rest;
  }

  /** After a batch every binding whose stop was pending is at rest; the others are as decided. */
  lemma {:induction false} AppliedRests(m: Supervisor, effects: seq<Effect>, k: BindingKind)
    requires PendingOk(m, effects) && NoRestart(m.state) && k in m.state.bindings
    ensures var s' := ApplyAll(m, effects);
            k in s'.state.bindings && s'.state.bindings[k].lifecycle == RestOf(m.state.bindings[k].lifecycle)
    decreases |effects|
  {
    hide PendingOk, NoRestart, ApplyAll;
    if effects == [] {
      NothingExecutes(m);
      NothingToRest(m, k);
    } else {
      assert effects == [effects[0]] + effects[1..];
      var next := AppliedFirst(m, effects[0], effects[1..]);
      AppliedRests(next, effects[1..], k);
    }
  }

  lemma NothingToRest(s: Supervisor, k: BindingKind)
    requires PendingOk(s, []) && k in s.state.bindings
    ensures RestOf(s.state.bindings[k].lifecycle) == s.state.bindings[k].lifecycle
  {
    assert Agrees(s, k, EffectsFor([], k));
  }

  // ---- The stream between events ----------------------------------------------------

  /** The stream serves the table, or it serves both bindings and still awaits one of them. */
  ghost predicate StreamOk(s: Supervisor) {
    && (forall k :: k in s.workers ==> k in Served(s))
    && (s.active.Some? ==>
          var a := s.active.value;
          && a.operationIds.Keys == a.bindings && ProcessLoopback !in a.bindings && a.bindings != {}
          && forall k :: k in a.operationIds ==> a.operationIds[k] < s.state.nextOperationId)
    && (!StreamCurrent(s) ==>
          Microphone in Served(s) && EndpointLoopback in Served(s) && exists j :: Matched(s, j))
  }

  lemma RebuiltServes(s: Supervisor)
    requires ProcessLoopback !in s.workers && s.workers.Keys != Served(s)
    requires forall k :: k in s.workers ==> s.workers[k].operationId < s.state.nextOperationId
    ensures StreamCurrent(Reconcile(s)) && StreamOk(Reconcile(s)) && Reconcile(s).workers == s.workers
  {
  }

  lemma SameStreamSameTable(s: Supervisor, s': Supervisor)
    requires s'.active == s.active && s'.workers == s.workers
    requires s.state.nextOperationId <= s'.state.nextOperationId
    ensures StreamCurrent(s') <==> StreamCurrent(s)
    ensures StreamOk(s) ==> StreamOk(s')
  {
    forall j ensures Matched(s', j) == Matched(s, j) {
    }
  }

  ghost predicate StopPending(s: Supervisor, k: BindingKind) {
    k in s.state.bindings && s.state.bindings[k].lifecycle.Stopping?
  }

  ghost predicate Acts(effects: seq<Effect>, k: BindingKind) {
    EffectsFor(effects, k) != []
  }

  lemma {:induction false} ActsInBatch(effects: seq<Effect>, i: nat)
    requires i < |effects|
    ensures Acts(effects, effects[i].binding)
  {
    if i > 0 {
      ActsInBatch(effects[1..], i - 1);
    }
  }

  lemma {:induction false} ActsFrom(effects: seq<Effect>, k: BindingKind) returns (i: nat)
    requires Acts(effects, k)
    ensures i < |effects| && effects[i] == EffectsFor(effects, k)[0]
  {
    if effects[0].binding == k {
      i := 0;
    } else {
      i := ActsFrom(effects[1..], k);
      i := i + 1;
    }
  }

  /** The batch reconciles exactly when it has something to do. */
  lemma ChangesMeansActs(s: Supervisor, effects: seq<Effect>)
    requires PendingOk(s, effects)
    ensures ChangesBindings(effects) <==> exists k :: Acts(effects, k)
  {
    hide EffectsFor;
    if ChangesBindings(effects) {
      var i :| 0 <= i < |effects| && !effects[i].ScheduleRetry?;
      ActsInBatch(effects, i);
    }
    if k :| Acts(effects, k) {
      var i := ActsFrom(effects, k);
      assert Agrees(s, k, EffectsFor(effects, k));
      assert !effects[i].ScheduleRetry?;
    }
  }

  /** Starts are numbered from `bound` on. */
  ghost predicate StartsFrom(effects: seq<Effect>, bound: nat) {
    forall i :: 0 <= i < |effects| && effects[i].StartCapture? ==> effects[i].operationId >= bound
  }

  /** The stream before a batch is carried out: its ids lie below those of the batch. */
  ghost predicate BatchOn(s: Supervisor, m: Supervisor, effects: seq<Effect>) {
    && PendingOk(m, effects) && NoRestart(m.state)
    && StreamOk(s) && m.workers == s.workers && m.active == s.active
    && s.state.nextOperationId <= m.state.nextOperationId && StartsFrom(effects, s.state.nextOperationId)
    && ProcessLoopback !in s.workers
  }

  /** After the batch is applied, before the stream is looked at. */
  lemma BatchTable(s: Supervisor, m: Supervisor, effects: seq<Effect>, k: BindingKind)
    requires BatchOn(s, m, effects)
    ensures var after := ApplyAll(m, effects);
            && after.active == s.active
            && (k in after.workers <==> (k in s.workers && !StopPending(m, k)) || (k !in s.workers && Acts(effects, k)))
            && (k in after.workers && !Acts(effects, k) ==> after.workers[k] == s.workers[k])
            && (k in after.workers && Acts(effects, k) ==> after.workers[k].operationId >= s.state.nextOperationId)
            && (StopPending(m, k) ==> k in s.workers && Acts(effects, k))
            && (Acts(effects, k) && !StopPending(m, k) ==> k !in s.workers)
  {
    Applied(m, effects);
    assert Agrees(m, k, EffectsFor(effects, k));
    assert Tabled(m.workers, ApplyAll(m, effects).workers, k, EffectsFor(effects, k));
    if Acts(effects, k) {
      var i := ActsFrom(effects, k);
    }
    hide ApplyAll, EffectsFor;
  }

  /** What a step did to the stream, given whether it broke or repaired it. */
  ghost predicate StreamMoves(s: Supervisor, s': Supervisor, breaks: bool, repairs: bool) {
    && StreamOk(s')
    && (breaks ==> !StreamCurrent(s'))
    && (repairs ==> StreamCurrent(s'))
    && (!breaks && !repairs ==> (StreamCurrent(s') <==> StreamCurrent(s)))
    && (s'.active != s.active ==> StreamCurrent(s'))
  }

  /** A batch that does nothing leaves the stream alone. */
  lemma IdleBatch(s: Supervisor, m: Supervisor, effects: seq<Effect>)
    requires BatchOn(s, m, effects) && !ChangesBindings(effects)
    ensures StreamMoves(s, Execute(m, effects), false, exists k :: StopPending(m, k))
  {
    hide PendingOk, StreamCurrent, StreamOk, ApplyAll;
    ChangesMeansActs(m, effects);
    var s' := Execute(m, effects);
    forall k: BindingKind ensures !StopPending(m, k) && (k in s'.workers <==> k in s.workers)
      ensures k in s.workers ==> s'.workers[k] == s.workers[k]
    {
      BatchTable(s, m, effects, k);
    }
    assert s'.workers == s.workers;
    BatchTable(s, m, effects, Microphone);
    AppliedState(m, effects);
    SameStreamSameTable(s, s');
  }

  /** Ids are never taken back while effects are carried out. */
  lemma {:induction false} AppliedState(m: Supervisor, effects: seq<Effect>)
    requires PendingOk(m, effects) && NoRestart(m.state)
    ensures ApplyAll(m, effects).state.nextOperationId >= m.state.nextOperationId
    ensures PendingOk(ApplyAll(m, effects), [])
    ensures PinnedOnly(m.state) ==> PinnedOnly(ApplyAll(m, effects).state)
    ensures ApplyAll(m, effects).state.bindings.Keys == m.state.bindings.Keys
    decreases |effects|
  {
    hide PendingOk, NoRestart, ApplyAll, PinnedOnly;
    if effects == [] {
      NothingExecutes(m);
    } else {
      assert effects == [effects[0]] + effects[1..];
      var next := AppliedFirst(m, effects[0], effects[1..]);
      AppliedState(next, effects[1..]);
    }
  }

  /** A batch that stops something, or that starts something for a stream that served the table,
      changes the set of bindings: the stream is rebuilt. */
  lemma RebuildingBatch(s: Supervisor, m: Supervisor, effects: seq<Effect>, k: BindingKind)
    requires BatchOn(s, m, effects) && Acts(effects, k)
    requires StopPending(m, k) || StreamCurrent(s)
    ensures StreamCurrent(Execute(m, effects)) && StreamOk(Execute(m, effects))
  {
    hide PendingOk, ApplyAll, EffectsFor;
    ChangesMeansActs(m, effects);
    BatchTable(s, m, effects, k);
    var after := ApplyAll(m, effects);
    assert k in after.workers <==> k !in Served(s);
    assert Served(after) == Served(s);
    AppliedState(m, effects);
    SettledTable(after);
    RebuiltServes(after);
  }

  lemma SettledTable(s: Supervisor)
    requires PendingOk(s, [])
    ensures ProcessLoopback !in s.workers
    ensures forall k :: k in s.workers ==> s.workers[k].operationId < s.state.nextOperationId
  {
    forall k: BindingKind ensures TableOk(s, k) {
      assert Agrees(s, k, EffectsFor([], k));
    }
    assert TableOk(s, ProcessLoopback);
    forall k | k in s.workers ensures s.workers[k].operationId < s.state.nextOperationId {
      assert TableOk(s, k);
      OkOf(s.state, k);
    }
  }

  /** A batch that starts a binding while its sibling is awaited makes the sets of bindings equal:
      the stream stays, with the ids of the old generation. */
  lemma MaskingBatch(s: Supervisor, m: Supervisor, effects: seq<Effect>, k: BindingKind)
    requires BatchOn(s, m, effects) && Acts(effects, k) && !StreamCurrent(s)
    requires forall j :: !StopPending(m, j)
    ensures var s' := Execute(m, effects);
            !StreamCurrent(s') && StreamOk(s') && s'.active == s.active && s'.workers.Keys == Served(s')
  {
    hide PendingOk, ApplyAll, EffectsFor, StreamCurrent;
    ChangesMeansActs(m, effects);
    var after := ApplyAll(m, effects);
    AppliedState(m, effects);
    SettledTable(after);
    BatchTable(s, m, effects, k);
    var j :| Matched(s, j);
    BatchTable(s, m, effects, j);
    assert j in s.workers && k !in s.workers && k in after.workers && j in after.workers;
    assert k != ProcessLoopback && j != ProcessLoopback;
    BothServed(s, after, j, k);
    assert Execute(m, effects) == after;
    assert after.workers[j] == s.workers[j] && Matched(after, j);
    StaleId(after, k);
  }

  lemma BothServed(s: Supervisor, after: Supervisor, j: BindingKind, k: BindingKind)
    requires Microphone in Served(s) && EndpointLoopback in Served(s) && ProcessLoopback !in Served(s)
    requires j != k && j in after.workers && k in after.workers && ProcessLoopback !in after.workers
    ensures after.workers.Keys == Served(s)
  {
    assert j != ProcessLoopback && k != ProcessLoopback;
    assert Microphone == j || Microphone == k;
    assert EndpointLoopback == j || EndpointLoopback == k;
    forall x: BindingKind ensures x in after.workers <==> x in Served(s) {
      assert x == Microphone || x == EndpointLoopback || x == ProcessLoopback;
    }
  }

  lemma StaleId(s: Supervisor, k: BindingKind)
    requires s.active.Some? && k in s.workers && k in s.active.value.operationIds
    requires s.workers[k].operationId != s.active.value.operationIds[k]
    ensures !StreamCurrent(s)
  {
  }

  /** Any batch: it repairs the stream exactly when it stops something. */
  lemma BatchMovesStream(s: Supervisor, m: Supervisor, effects: seq<Effect>)
    requires BatchOn(s, m, effects)
    ensures StreamMoves(s, Execute(m, effects), false, exists k :: StopPending(m, k))
  {
    hide BatchOn, StreamCurrent, StreamOk, Execute, Acts;
    if k :| StopPending(m, k) {
      StopsAct(s, m, effects, k);
      RebuildingBatch(s, m, effects, k);
    } else if !ChangesBindings(effects) {
      IdleBatch(s, m, effects);
    } else {
      var k := SomeoneActs(s, m, effects);
      if StreamCurrent(s) {
        RebuildingBatch(s, m, effects, k);
      } else {
        MaskingBatch(s, m, effects, k);
      }
    }
  }

  lemma StopsAct(s: Supervisor, m: Supervisor, effects: seq<Effect>, k: BindingKind)
    requires BatchOn(s, m, effects) && StopPending(m, k)
    ensures Acts(effects, k)
  {
    BatchTable(s, m, effects, k);
  }

  lemma SomeoneActs(s: Supervisor, m: Supervisor, effects: seq<Effect>) returns (k: BindingKind)
    requires BatchOn(s, m, effects) && ChangesBindings(effects)
    ensures Acts(effects, k)
  {
    ChangesMeansActs(m, effects);
    k :| Acts(effects, k);
  }

  // ---- Events -----------------------------------------------------------------------

  /** What every reachable state of a pinned supervisor satisfies. */
  ghost predicate PinnedOk(s: Supervisor) {
    SupervisorOk(s) && PinnedOnly(s.state) && StreamOk(s)
  }

  ghost predicate Orders(s: Supervisor, event: Event, orders: seq<seq<BindingKind>>) {
    |orders| == |Batch(event)| && forall i :: 0 <= i < |orders| ==> Visits(orders[i], s.state.bindings.Keys)
  }

  lemma ReadyToDecide(s: Supervisor, event: Event, orders: seq<seq<BindingKind>>)
    requires PinnedOk(s) && Enabled(s, event) && Orders(s, event, orders)
    ensures BatchReady(s.state, Batch(event), orders)
    ensures forall k: BindingKind :: NotStopping(s, k)
  {
    hide WellFormed, StreamOk, Visits, ThreadsAccounted, PinnedOnly, EndpointsOnly;
    assert forall k: BindingKind :: NotStopping(s, k);
    forall k | k in s.state.bindings ensures !s.state.bindings[k].lifecycle.Stopping? {
      assert NotStopping(s, k);
    }
    BatchIsMacos(s, event);
  }

  lemma BatchIsMacos(s: Supervisor, event: Event)
    requires Enabled(s, event)
    ensures forall i :: 0 <= i < |Batch(event)| ==> MacosInput(Batch(event)[i])
  {
  }

  ghost predicate HaltedByEvent(event: Event, lc: Lifecycle) {
    lc.Running? &&
    match event
    case ShutdownSignal => true
    case DeviceChange(obs) => obs.EndpointRemoved? && lc.target == EndpointTarget(obs.endpointId)
    case DeviceList(removed, _) => lc.target.EndpointTarget? && lc.target.id in removed
    case _ => false
  }

  lemma HaltsInBatch(event: Event, lc: Lifecycle)
    ensures SomeHalts(Batch(event), lc) <==> HaltedByEvent(event, lc)
  {
    if event.DeviceList? {
      var inputs := Batch(event);
      if SomeHalts(inputs, lc) {
        var i :| 0 <= i < |inputs| && HaltedBy(inputs[i], lc);
        assert i < |event.removed| && inputs[i] == Observed(EndpointRemoved(event.removed[i]));
      }
      if HaltedByEvent(event, lc) {
        var i :| 0 <= i < |event.removed| && event.removed[i] == lc.target.id;
        assert inputs[i] == Observed(EndpointRemoved(event.removed[i])) && HaltedBy(inputs[i], lc);
      }
    } else if |Batch(event)| == 1 {
      assert SomeHalts(Batch(event), lc) <==> HaltedBy(Batch(event)[0], lc);
    }
  }

  /** The stops pending after the decisions of an event are the ones the guard names. */
  lemma PendingStops(s: Supervisor, event: Event, orders: seq<seq<BindingKind>>, m: Supervisor)
    requires PinnedOk(s) && Enabled(s, event) && Orders(s, event, orders)
    requires m.state == DecideAll(s.state, Batch(event), orders).state
    ensures forall k :: StopPending(m, k) <==> StopsBinding(s, event, k)
  {
    hide PinnedOk, DecideAll;
    ReadyToDecide(s, event, orders);
    BatchFrames(s.state, Batch(event), orders);
    forall k ensures StopPending(m, k) <==> StopsBinding(s, event, k) {
      if k in s.state.bindings {
        assert NotStopping(s, k);
        BatchStops(s.state, Batch(event), orders, k);
        HaltsInBatch(event, s.state.bindings[k].lifecycle);
      }
    }
  }

  /** The state in which the effects of a delivered event are pending. */
  function Decided(s: Supervisor, event: Event, orders: seq<seq<BindingKind>>): Supervisor
    requires |orders| == |Batch(event)|
  {
    var timers := if event.RetryDue? then s.timers - multiset{(event.binding, event.retryId)} else s.timers;
    s.(timers := timers, state := DecideAll(s.state, Batch(event), orders).state)
  }

  ghost predicate IsBatch(event: Event) {
    event.DeviceChange? || event.DeviceList? || event.StartAll? || event.ShutdownSignal? || event.RetryDue?
  }

  lemma DecidesOne(s: State, input: DecisionInput, order: seq<BindingKind>)
    ensures DecideAll(s, [input], [order]) == Decide(s, input, order)
  {
    assert [input][..0] == [];
    assert DecideAll(s, [input][..0], [order][..0]) == Outcome(s, []);
  }

  lemma DecidedPends(s: Supervisor, event: Event, orders: seq<seq<BindingKind>>)
    requires SupervisorOk(s) && Enabled(s, event) && Orders(s, event, orders) && IsBatch(event)
    ensures PendingOk(Decided(s, event, orders), DecideAll(s.state, Batch(event), orders).effects)
  {
    hide SupervisorOk, PendingOk, Decide;
    if event.RetryDue? {
      assert orders == [orders[0]];
      RetryPends(s, event.binding, event.retryId, orders[0]);
      DecidesOne(s.state, RetryTimerFired(event.binding, event.retryId), orders[0]);
    } else {
      BatchPends(s, Batch(event), orders);
    }
  }

  lemma NoProcessWorker(s: Supervisor)
    requires SupervisorOk(s)
    ensures ProcessLoopback !in s.workers
  {
    assert TableOk(s, ProcessLoopback);
  }

  /** Everything about a delivered batch before its effects are carried out. */
  lemma BatchIsPending(s: Supervisor, event: Event, orders: seq<seq<BindingKind>>)
    requires PinnedOk(s) && Enabled(s, event) && Orders(s, event, orders) && IsBatch(event)
    ensures var m, o := Decided(s, event, orders), DecideAll(s.state, Batch(event), orders);
            && PendingOk(m, o.effects) && NoRestart(m.state) && PinnedOnly(m.state)
            && Step(s, event, orders) == Execute(m, o.effects) && m.state == o.state
            && Frames(s.state, o.state, o.effects)
  {
    ReadyToDecide(s, event, orders);
    BatchFrames(s.state, Batch(event), orders);
    DecidedPends(s, event, orders);
    hide PinnedOk, PendingOk, NoRestart, PinnedOnly, DecideAll, Execute, Frames, BatchReady;
  }

  lemma BatchIsOn(s: Supervisor, event: Event, orders: seq<seq<BindingKind>>)
    requires PinnedOk(s) && Enabled(s, event) && Orders(s, event, orders) && IsBatch(event)
    ensures BatchOn(s, Decided(s, event, orders), DecideAll(s.state, Batch(event), orders).effects)
  {
    BatchIsPending(s, event, orders);
    NoProcessWorker(s);
    hide SupervisorOk, PendingOk, NoRestart, StreamOk, PinnedOnly, DecideAll, Execute, Step;
  }

  lemma BatchStep(s: Supervisor, event: Event, orders: seq<seq<BindingKind>>)
    requires PinnedOk(s) && Enabled(s, event) && Orders(s, event, orders) && IsBatch(event)
    ensures StreamMoves(s, Step(s, event, orders), Breaks(s, event), Repairs(s, event))
    ensures PinnedOnly(Step(s, event, orders).state)
  {
    var m := Decided(s, event, orders);
    var effects := DecideAll(s.state, Batch(event), orders).effects;
    BatchIsPending(s, event, orders);
    BatchIsOn(s, event, orders);
    PendingStops(s, event, orders, m);
    hide PinnedOk, PendingOk, NoRestart, PinnedOnly, DecideAll, Execute, StreamMoves, StopPending, StopsBinding, Step,
         BatchOn, Frames;
    BatchMovesStream(s, m, effects);
    ExecutedPinned(m, effects);
  }

  lemma ExecutedPinned(m: Supervisor, effects: seq<Effect>)
    requires PendingOk(m, effects) && NoRestart(m.state) && PinnedOnly(m.state)
    ensures PinnedOnly(Execute(m, effects).state)
  {
    hide PendingOk, NoRestart, ApplyAll, PinnedOnly;
    AppliedState(m, effects);
  }

  lemma FailedTable(s: Supervisor, k: BindingKind, error: string)
    requires SupervisorOk(s) && k in s.workers
    ensures var o := OnWorkerFailed(s.state, k, s.workers[k].operationId, error);
            var m := Execute(s.(state := o.state, workers := s.workers - {k}), o.effects);
            && m.workers == s.workers - {k} && m.active == s.active
            && m.state.nextOperationId == s.state.nextOperationId
            && SupervisorOk(m) && (PinnedOnly(s.state) ==> PinnedOnly(m.state))
  {
    FailSettles(s, k, error);
    var o := OnWorkerFailed(s.state, k, s.workers[k].operationId, error);
    FailedExecutes(s.(state := o.state, workers := s.workers - {k}), k, o);
  }

  lemma WorkersBelow(s: Supervisor)
    requires SupervisorOk(s)
    ensures ProcessLoopback !in s.workers
    ensures forall k :: k in s.workers ==> s.workers[k].operationId < s.state.nextOperationId
  {
    NothingPends(s);
    SettledTable(s);
  }

  lemma ErrorStep(s: Supervisor, k: BindingKind, error: string)
    requires PinnedOk(s) && k in s.workers
    ensures StreamMoves(s, Fail(s, k, error), Breaks(s, StreamError(k, error)), Repairs(s, StreamError(k, error)))
    ensures PinnedOnly(Fail(s, k, error).state)
  {
    hide StreamCurrent;
    FailedTable(s, k, error);
    var o := OnWorkerFailed(s.state, k, s.workers[k].operationId, error);
    var m := Execute(s.(state := o.state, workers := s.workers - {k}), o.effects);
    hide Execute, OnWorkerFailed;
    WorkersBelow(m);
    hide SupervisorOk;
    forall j ensures Matched(m, j) <==> j != k && Matched(s, j) {
    }
    assert AwaitsSiblings(m) <==> exists j :: Matched(m, j) by { AwaitsMatched(m); }
    assert k in Served(m) && k !in m.workers;
    if AwaitsSiblings(m) {
      Unserved(m, k);
      TwoServed(s, k);
    } else {
      RebuiltServes(m);
    }
  }

  lemma AwaitsMatched(s: Supervisor)
    ensures AwaitsSiblings(s) <==> exists j :: Matched(s, j)
  {
    if j :| Matched(s, j) {
      assert j in s.active.value.operationIds && j in s.workers;
    }
    if AwaitsSiblings(s) {
      var j :| j in s.active.value.operationIds && j in s.workers
               && s.workers[j].operationId == s.active.value.operationIds[j];
      assert Matched(s, j);
    }
  }

  lemma Unserved(s: Supervisor, k: BindingKind)
    requires k in Served(s) && k !in s.workers
    ensures !StreamCurrent(s)
  {
  }

  /** A stream with one binding in the table and another that is matched serves both. */
  lemma TwoServed(s: Supervisor, k: BindingKind)
    requires StreamOk(s) && k in s.workers && ProcessLoopback !in s.workers && exists j :: j != k && Matched(s, j)
    ensures Microphone in Served(s) && EndpointLoopback in Served(s)
  {
    var j :| j != k && Matched(s, j);
    assert j in Served(s) && k in Served(s) && j != ProcessLoopback && k != ProcessLoopback;
    assert Microphone == j || Microphone == k;
    assert EndpointLoopback == j || EndpointLoopback == k;
  }

  lemma StartedStep(s: Supervisor, k: BindingKind)
    requires PinnedOk(s) && k in s.workers
    ensures var s' := Step(s, StreamStarted(k), []);
            s'.workers == s.workers && s'.active == s.active && s'.state.nextOperationId == s.state.nextOperationId
            && PinnedOnly(s'.state)
  {
    var w := s.workers[k];
    NothingExecutes(s.(state := OnWorkerStarted(s.state, k, w.operationId, w.epoch, w.target).state));
  }

  lemma QuietStep(s: Supervisor, s': Supervisor, event: Event)
    requires PinnedOk(s) && !Breaks(s, event) && !Repairs(s, event)
    requires s'.workers == s.workers && s'.active == s.active && s.state.nextOperationId <= s'.state.nextOperationId
    ensures StreamMoves(s, s', Breaks(s, event), Repairs(s, event))
  {
    hide StreamCurrent, StreamOk, SupervisorOk;
    SameStreamSameTable(s, s');
  }

  /** Every event either breaks the stream, repairs it, or leaves it as good as it was; and it is
      rebuilt only into a stream that serves the table. */
  lemma StepMovesStream(s: Supervisor, event: Event, orders: seq<seq<BindingKind>>)
    requires PinnedOk(s) && Enabled(s, event) && Orders(s, event, orders)
    ensures StreamMoves(s, Step(s, event, orders), Breaks(s, event), Repairs(s, event))
    ensures PinnedOk(Step(s, event, orders))
  {
    hide Execute, DeliverAll, Fail, StreamMoves, StreamOk, SupervisorOk, PinnedOnly;
    StepKeeps(s, event, orders);
    var s' := Step(s, event, orders);
    if IsBatch(event) {
      BatchStep(s, event, orders);
    } else {
      match event
      case StreamError(k, error) =>
        if k in s.workers {
          ErrorStep(s, k, error);
        } else {
          StrangerFails(s, k, error);
          QuietStep(s, s', event);
        }
      case StreamStarted(k) =>
        if k in s.workers { StartedStep(s, k); }
        QuietStep(s, s', event);
      case StreamStopped => QuietStep(s, s', event);
      case JoinDone(_) => QuietStep(s, s', event);
    }
    MovedOk(s, s', event);
  }

  lemma StrangerFails(s: Supervisor, k: BindingKind, error: string)
    requires k !in s.workers
    ensures Fail(s, k, error) == s
  {
  }

  lemma MovedOk(s: Supervisor, s': Supervisor, event: Event)
    requires StreamMoves(s, s', Breaks(s, event), Repairs(s, event))
    ensures StreamOk(s')
  {
  }

  // ---- One event, exactly -----------------------------------------------------------

  /** A stream that serves the table stops serving it exactly when one of several bindings fails. */
  lemma CurrentBreaksExactly(s: Supervisor, event: Event, orders: seq<seq<BindingKind>>)
    requires PinnedOk(s) && Enabled(s, event) && Orders(s, event, orders) && StreamCurrent(s)
    ensures StreamCurrent(Step(s, event, orders)) <==>
              !(event.StreamError? && event.stream in s.workers && |s.workers| > 1)
  {
    hide Step;
    StepMovesStream(s, event, orders);
    if event.StreamError? && event.stream in s.workers {
      assert |s.workers| == |s.workers.Keys|;
      if |s.workers| > 1 {
        SomeoneElse(s.workers.Keys, event.stream);
        var j :| j in s.workers && j != event.stream;
        assert Matched(s, j);
      } else {
        OnlyOne(s.workers.Keys, event.stream);
        assert forall j :: j != event.stream ==> !Matched(s, j);
      }
    }
  }

  lemma SomeoneElse(keys: set<BindingKind>, k: BindingKind)
    requires k in keys && |keys| > 1
    ensures exists j :: j in keys && j != k
  {
    assert |keys - {k}| > 0;
    var j :| j in keys - {k};
  }

  lemma OnlyOne(keys: set<BindingKind>, k: BindingKind)
    requires k in keys && |keys| <= 1
    ensures forall j :: j in keys ==> j == k
  {
    assert |keys - {k}| == 0;
    assert keys - {k} == {};
    assert forall j :: j in keys ==> j in keys - {k} || j == k;
  }

  /** A stale stream is put right exactly by the last awaited error or by a stop. Until then even a
      binding that is started again, and makes the sets of bindings equal, leaves it stale. */
  lemma StaleRepairsExactly(s: Supervisor, event: Event, orders: seq<seq<BindingKind>>)
    requires PinnedOk(s) && Enabled(s, event) && Orders(s, event, orders) && !StreamCurrent(s)
    ensures StreamCurrent(Step(s, event, orders)) <==> Repairs(s, event)
    ensures !Repairs(s, event) ==> Step(s, event, orders).active == s.active
  {
    StepMovesStream(s, event, orders);
  }

  // ---- Runs -------------------------------------------------------------------------

  lemma StartsPinned(s: Supervisor)
    requires JustPinned(s)
    ensures PinnedOk(s) && StreamCurrent(s)
  {
    PinnedIsOk(s);
  }

  lemma {:induction false} RunsStayPinned(trace: seq<Supervisor>, deliveries: seq<Delivery>, n: nat)
    requires IsRun(trace, deliveries) && JustPinned(trace[0]) && n <= |deliveries|
    ensures PinnedOk(trace[n])
  {
    hide PinnedOk, Step;
    if n > 0 {
      RunsStayPinned(trace, deliveries, n - 1);
      StepOfRun(trace, deliveries, n - 1);
    } else {
      StartsPinned(trace[0]);
    }
  }

  lemma StepOfRun(trace: seq<Supervisor>, deliveries: seq<Delivery>, i: nat)
    requires IsRun(trace, deliveries) && i < |deliveries| && PinnedOk(trace[i])
    ensures var s, s', event := trace[i], trace[i + 1], deliveries[i].event;
            StreamMoves(s, s', Breaks(s, event), Repairs(s, event)) && PinnedOk(s')
  {
    hide PinnedOk, Step, StreamMoves;
    assert IsStep(trace[i], deliveries[i], trace[i + 1]);
    StepMovesStream(trace[i], deliveries[i].event, deliveries[i].orders);
  }

  /** Delivery `i` breaks the stream; delivery `j` repairs it. */
  ghost predicate BreaksAt(trace: seq<Supervisor>, deliveries: seq<Delivery>, i: nat) {
    i < |deliveries| && i < |trace| && Breaks(trace[i], deliveries[i].event)
  }

  ghost predicate RepairsAt(trace: seq<Supervisor>, deliveries: seq<Delivery>, j: nat) {
    j < |deliveries| && j < |trace| && Repairs(trace[j], deliveries[j].event)
  }

  ghost predicate AllRepaired(trace: seq<Supervisor>, deliveries: seq<Delivery>, n: nat) {
    forall i: nat :: i < n && BreaksAt(trace, deliveries, i) ==>
      exists j: nat :: i < j < n && RepairsAt(trace, deliveries, j)
  }

  /** Exactly when the stream serves the table, over any run: when every error that came in while a
      sibling was awaited has been followed by the last awaited error, or by a stop. */
  lemma {:induction false} StreamServesExactly(trace: seq<Supervisor>, deliveries: seq<Delivery>, n: nat)
    requires IsRun(trace, deliveries) && JustPinned(trace[0]) && n <= |deliveries|
    ensures StreamCurrent(trace[n]) <==> AllRepaired(trace, deliveries, n)
  {
    LengthOfRun(trace, deliveries);
    hide PinnedOk, StreamCurrent, Breaks, Repairs, IsRun, JustPinned;
    if n > 0 {
      var i := n - 1;
      StreamServesExactly(trace, deliveries, i);
      RunsStayPinned(trace, deliveries, i);
      StepOfRun(trace, deliveries, i);
      RepairedSoFar(trace, deliveries, i);
    } else {
      StartsPinned(trace[0]);
    }
  }

  lemma LengthOfRun(trace: seq<Supervisor>, deliveries: seq<Delivery>)
    requires IsRun(trace, deliveries)
    ensures |trace| == |deliveries| + 1
  {
  }

  lemma RepairedSoFar(trace: seq<Supervisor>, deliveries: seq<Delivery>, n: nat)
    ensures BreaksAt(trace, deliveries, n) ==> !AllRepaired(trace, deliveries, n + 1)
    ensures !BreaksAt(trace, deliveries, n) && RepairsAt(trace, deliveries, n) ==> AllRepaired(trace, deliveries, n + 1)
    ensures !BreaksAt(trace, deliveries, n) && !RepairsAt(trace, deliveries, n) ==>
              (AllRepaired(trace, deliveries, n + 1) <==> AllRepaired(trace, deliveries, n))
  {
    hide BreaksAt, RepairsAt;
    if AllRepaired(trace, deliveries, n) {
      forall i: nat | i < n && BreaksAt(trace, deliveries, i)
        ensures exists j: nat :: i < j < n + 1 && RepairsAt(trace, deliveries, j)
      {
        var j: nat :| i < j < n && RepairsAt(trace, deliveries, j);
      }
    }
  }

  /** Every rebuild of every run hands each served binding its own operation and its own epoch. */
  lemma RebuildServesEveryone(trace: seq<Supervisor>, deliveries: seq<Delivery>, n: nat, k: BindingKind)
    requires IsRun(trace, deliveries) && JustPinned(trace[0]) && n < |deliveries|
    requires trace[n + 1].active.Some? && trace[n + 1].active != trace[n].active
    ensures var s := trace[n + 1];
            var stream := s.active.value;
            && stream.bindings == s.workers.Keys
            && (k in s.workers ==>
                  && k in stream.operationIds && stream.operationIds[k] == s.workers[k].operationId
                  && stream.HandedEpoch(k) == Some(s.workers[k].epoch)
                  && (k == Microphone && s.workers[k].target.EndpointTarget? ==>
                        stream.microphoneDevice == Some(s.workers[k].target.id)))
  {
    hide PinnedOk, IsRun;
    RunsStayPinned(trace, deliveries, n);
    StepOfRun(trace, deliveries, n);
  }

  // ---- Bindings that keep running ---------------------------------------------------

  /** `k` runs in both states, if at all, under the same operation and epoch. */
  ghost predicate SameGeneration(s: State, s': State, k: BindingKind) {
    k in s.bindings && k in s'.bindings && s.bindings[k].lifecycle.Running? && s'.bindings[k].lifecycle.Running? ==>
      s'.bindings[k].lifecycle == s.bindings[k].lifecycle
  }

  /** Once a batch is carried out, the bindings it decided to stop are at rest. */
  lemma BatchRests(s: Supervisor, event: Event, orders: seq<seq<BindingKind>>, k: BindingKind)
    requires PinnedOk(s) && Enabled(s, event) && Orders(s, event, orders) && IsBatch(event)
    requires k in DecideAll(s.state, Batch(event), orders).state.bindings
    ensures var s' := Step(s, event, orders);
            && k in s'.state.bindings
            && s'.state.bindings[k].lifecycle
               == RestOf(DecideAll(s.state, Batch(event), orders).state.bindings[k].lifecycle)
  {
    hide PinnedOk, PendingOk, NoRestart, PinnedOnly, DecideAll, ApplyAll, Frames, RestOf, Step, Visits;
    var m, o := Decided(s, event, orders), DecideAll(s.state, Batch(event), orders);
    BatchIsPending(s, event, orders);
    AppliedRests(m, o.effects, k);
    ExecuteKeepsState(m, o.effects);
  }

  /** Rebuilding the stream decides nothing. */
  lemma ExecuteKeepsState(s: Supervisor, effects: seq<Effect>)
    ensures Execute(s, effects).state == ApplyAll(s, effects).state
  {
    hide ApplyAll;
  }

  lemma BatchKeepsGeneration(s: Supervisor, event: Event, orders: seq<seq<BindingKind>>, k: BindingKind)
    requires PinnedOk(s) && Enabled(s, event) && Orders(s, event, orders) && IsBatch(event)
    ensures SameGeneration(s.state, Step(s, event, orders).state, k)
  {
    hide PinnedOk, DecideAll, Step, Orders, BatchReady, Enabled;
    if k in s.state.bindings && s.state.bindings[k].lifecycle.Running? {
      ReadyToDecide(s, event, orders);
      assert NotStopping(s, k);
      BatchStops(s.state, Batch(event), orders, k);
      BatchRests(s, event, orders, k);
    }
  }

  lemma ReportKeepsGeneration(s: State, kind: BindingKind, w: Worker, error: string, k: BindingKind)
    ensures SameGeneration(s, OnWorkerStarted(s, kind, w.operationId, w.epoch, w.target).state, k)
    ensures SameGeneration(s, OnWorkerFailed(s, kind, w.operationId, error).state, k)
  {
  }

  lemma FailedState(s: Supervisor, k: BindingKind, error: string)
    requires k in s.workers
    ensures Fail(s, k, error).state == OnWorkerFailed(s.state, k, s.workers[k].operationId, error).state
  {
    var o := OnWorkerFailed(s.state, k, s.workers[k].operationId, error);
    FailedExecutes(s.(state := o.state, workers := s.workers - {k}), k, o);
  }

  /** A binding that runs before and after an event runs under the same operation and epoch: one
      that is restarted is only starting again. */
  lemma StepKeepsGeneration(s: Supervisor, event: Event, orders: seq<seq<BindingKind>>, k: BindingKind)
    requires PinnedOk(s) && Enabled(s, event) && Orders(s, event, orders)
    ensures SameGeneration(s.state, Step(s, event, orders).state, k)
  {
    hide PinnedOk, OnWorkerStarted, OnWorkerFailed;
    if IsBatch(event) {
      BatchKeepsGeneration(s, event, orders, k);
    } else {
      hide Fail;
      match event
      case StreamError(kind, error) =>
        if kind in s.workers {
          ReportKeepsGeneration(s.state, kind, s.workers[kind], error, k);
          FailedState(s, kind, error);
        } else {
          StrangerFails(s, kind, error);
        }
      case StreamStarted(kind) =>
        if kind in s.workers {
          var w := s.workers[kind];
          ReportKeepsGeneration(s.state, kind, w, "", k);
          StartedExecutes(s, kind);
        }
      case StreamStopped =>
      case JoinDone(_) =>
    }
  }

  lemma StartedExecutes(s: Supervisor, k: BindingKind)
    requires k in s.workers
    ensures var w := s.workers[k];
            Step(s, StreamStarted(k), []).state == OnWorkerStarted(s.state, k, w.operationId, w.epoch, w.target).state
  {
    var w := s.workers[k];
    NothingExecutes(s.(state := OnWorkerStarted(s.state, k, w.operationId, w.epoch, w.target).state));
  }

  /** So a binding that runs through a rebuild keeps its epoch, is handed it again, and has the
      frames that carry it accepted. */
  lemma SurvivorsStayAccepted(trace: seq<Supervisor>, deliveries: seq<Delivery>, n: nat, k: BindingKind)
    requires IsRun(trace, deliveries) && JustPinned(trace[0]) && n < |deliveries|
    requires trace[n + 1].active.Some? && trace[n + 1].active != trace[n].active
    requires k in trace[n].state.bindings && trace[n].state.bindings[k].lifecycle.Running?
    requires k in trace[n + 1].state.bindings && trace[n + 1].state.bindings[k].lifecycle.Running?
    ensures var s, epoch := trace[n + 1], trace[n].state.bindings[k].lifecycle.epoch;
            && s.state.bindings[k].lifecycle.epoch == epoch
            && k in s.active.value.bindings && s.active.value.HandedEpoch(k) == Some(epoch)
            && s.state.AcceptsEpoch(k, epoch)
  {
    hide PinnedOk, Step;
    RunsStayPinned(trace, deliveries, n);
    assert IsStep(trace[n], deliveries[n], trace[n + 1]);
    StepKeepsGeneration(trace[n], deliveries[n].event, deliveries[n].orders, k);
    RebuildServesEveryone(trace, deliveries, n, k);
    TableAgrees(trace, deliveries, n + 1, k);
  }
}
