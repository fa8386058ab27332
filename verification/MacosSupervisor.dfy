/**
  The macOS supervisor as the source has it: an object that updates the worker table, the
  shared stream and the decision state in place (macos_supervisor.rs:111-713), with `Execute`
  calling itself from inside its own effect loop.
*/
module MacosSupervisors {
  import opened Prelude
  import opened Rebinding
  import opened RebindingMoves
  import opened DecisionStates
  import opened MacosModel
  import opened MacosProofs
  import opened MacosStreams
  import opened MacosShutdown

  class MacosSupervisor {
    const decision: DecisionState
    var workers: map<BindingKind, Worker>
    var active: Option<SharedStream>
    var pendingJoins: nat
    var joining: set<nat>
    ghost var joined: set<nat>
    var timers: multiset<(BindingKind, nat)>
    var nextThread: nat

    ghost function View(): Supervisor
      reads this, decision
    {
      Supervisor(decision.View(), workers, active, pendingJoins, joining, joined, timers, nextThread)
    }

    ghost predicate Valid()
      reads this, decision
    {
      PinnedOk(View())
    }

    constructor ()
      ensures JustPinned(View()) && Valid() && fresh(decision)
    {
      decision := new DecisionState();
      workers, active, pendingJoins := map[], None, 0;
      joining, joined, timers, nextThread := {}, {}, multiset{}, 0;
    }

    /** Pins both bindings; only before the first start. */
    method PinDevices(microphone: EndpointId, render: EndpointId)
      requires JustPinned(View())
      modifies decision
      ensures JustPinned(View()) && Valid()
      ensures decision.bindings == old(decision.bindings)
                [Microphone := CaptureBinding(Microphone, Endpoint(Pinned(microphone)), Stopped, 0)]
                [EndpointLoopback := CaptureBinding(EndpointLoopback, Endpoint(Pinned(render)), Stopped, 0)]
    {
      hide PinnedOk;
      decision.Insert(CaptureBinding(Microphone, Endpoint(Pinned(microphone)), Stopped, 0));
      decision.Insert(CaptureBinding(EndpointLoopback, Endpoint(Pinned(render)), Stopped, 0));
      StartsPinned(View());
    }

    /** Tears the shared stream down and rebuilds it unless it covers the same bindings. */
    method ReconcileActiveStream()
      modifies this
      ensures View() == Reconcile(old(View()))
    {
      var desired := workers.Keys;
      var current := if active.Some? then active.value.bindings else {};
      if desired == current {
        return;
      }
      if active.Some? {
        pendingJoins := pendingJoins + 1;
        joining := joining + {active.value.thread};
        active := None;
      }
      if desired == {} {
        return;
      }
      var audio := if ProcessLoopback in desired then ProcessLoopback else EndpointLoopback;
      var microphoneEpoch := if Microphone in workers then Some(workers[Microphone].epoch) else None;
      var audioEpoch := if audio in workers then Some(workers[audio].epoch) else None;
      var device := MicrophoneDevice(workers);
      var operationIds := map k | k in workers :: workers[k].operationId;
      var stream := SharedStream(desired, operationIds, microphoneEpoch, audio, audioEpoch, device, nextThread);
      assert stream == BuildStream(workers, nextThread);
      hide BuildStream;
      active := Some(stream);
      nextThread := nextThread + 1;
    }

    /** Executes a batch of effects. A stop is reported to the decision at once and its answer is
        executed before the rest of the batch; the stream is reconciled after each batch. */
    method Execute(effects: seq<Effect>)
      modifies this, decision
      ensures View() == MacosModel.Execute(old(View()), effects)
      decreases StopCount(effects)
    {
      var bindingSetChanged := false;
      for i := 0 to |effects|
        invariant ApplyAll(View(), effects[i..]) == ApplyAll(old(View()), effects)
        invariant bindingSetChanged <==> ChangesBindings(effects[..i])
      {
        assert effects[i..][1..] == effects[i + 1..];
        ChangesSoFar(effects, i);
        match effects[i] {
          case StartCapture(_, binding, operationId, epoch, target) =>
            workers := workers[binding := Worker(operationId, epoch, target)];
            bindingSetChanged := true;
          case StopCapture(_, binding, operationId, epoch) =>
            StopUnfolds(View(), effects[i..]);
            StopsAreCounted(effects, i);
            StopsAnswerWithoutStops(decision.View(), binding, operationId, epoch);
            workers := workers - {binding};
            bindingSetChanged := true;
            var answer;
            ghost var order;
            answer, order := decision.Decide(Observed(WorkerStopped(binding, operationId, epoch)));
            Execute(answer);
          case ScheduleRetry(_, binding, retryId, _) =>
            timers := timers + multiset{(binding, retryId)};
        }
      }
      assert effects[..|effects|] == effects;
      if bindingSetChanged {
        ReconcileActiveStream();
      }
    }

    method HandleStreamStarted(stream: BindingKind)
      requires Valid()
      modifies this, decision
      ensures View() == Step(old(View()), StreamStarted(stream), []) && Valid()
    {
      hide PinnedOk, MacosModel.Execute;
      StepMovesStream(View(), StreamStarted(stream), []);
      if stream in workers {
        var worker := workers[stream];
        var input := Observed(WorkerStarted(stream, worker.operationId, worker.epoch, worker.target));
        var effects;
        ghost var order;
        effects, order := decision.Decide(input);
        Execute(effects);
      }
    }

    method HandleStreamError(stream: BindingKind, error: string)
      requires Valid()
      modifies this, decision
      ensures View() == Step(old(View()), StreamError(stream, error), []) && Valid()
    {
      hide PinnedOk, MacosModel.Execute, Reconcile, Decide, OnWorkerFailed, Visits, AwaitsSiblings;
      ghost var before := View();
      StepMovesStream(before, StreamError(stream, error), []);
      if stream in workers {
        var operationId := workers[stream].operationId;
        var effects;
        ghost var order;
        effects, order := decision.Decide(Observed(WorkerFailed(stream, operationId, error)));
        FailedIsDecision(before.state, stream, operationId, error, order);
        workers := workers - {stream};
        Execute(effects);
        var awaiting := StillAwaitingSiblings();
        if !awaiting {
          ReconcileActiveStream();
        }
      }
    }

    method StillAwaitingSiblings() returns (awaiting: bool)
      ensures awaiting == AwaitsSiblings(View())
    {
      awaiting := active.Some? &&
                  exists k :: k in active.value.operationIds && k in workers
                              && workers[k].operationId == active.value.operationIds[k];
    }

    /** Decides every input of a batch, then executes all the effects together. */
    method DecideThenExecute(inputs: seq<DecisionInput>) returns (ghost orders: seq<seq<BindingKind>>)
      modifies this, decision
      ensures |orders| == |inputs|
      ensures forall i :: 0 <= i < |orders| ==> Visits(orders[i], old(decision.bindings.Keys))
      ensures View() == DeliverAll(old(View()), inputs, orders)
    {
      hide Decide, MacosModel.Execute, Visits;
      var effects := [];
      orders := [];
      ghost var before := View();
      for i := 0 to |inputs|
        invariant |orders| == i && decision.bindings.Keys == old(decision.bindings.Keys)
        invariant forall j :: 0 <= j < i ==> Visits(orders[j], old(decision.bindings.Keys))
        invariant Outcome(decision.View(), effects) == DecideAll(before.state, inputs[..i], orders)
        invariant View() == before.(state := decision.View())
      {
        ghost var s := decision.View();
        var more;
        ghost var order;
        more, order := decision.Decide(inputs[i]);
        DecideFrames(s, inputs[i], order);
        assert inputs[..i + 1][..i] == inputs[..i] && (orders + [order])[..i] == orders;
        effects, orders := effects + more, orders + [order];
      }
      assert inputs[..|inputs|] == inputs;
      Execute(effects);
    }

    method HandleBatch(event: Event) returns (ghost orders: seq<seq<BindingKind>>)
      requires Valid() && Enabled(View(), event)
      requires event.DeviceChange? || event.DeviceList? || event.StartAll? || event.ShutdownSignal?
      modifies this, decision
      ensures |orders| == |Batch(event)|
      ensures forall i :: 0 <= i < |orders| ==> Visits(orders[i], old(decision.bindings.Keys))
      ensures View() == Step(old(View()), event, orders) && Valid()
    {
      hide PinnedOk, DeliverAll;
      ghost var before := View();
      orders := DecideThenExecute(Batch(event));
      StepMovesStream(before, event, orders);
    }

    method HandleRetry(binding: BindingKind, retryId: nat) returns (ghost orders: seq<seq<BindingKind>>)
      requires Valid() && (binding, retryId) in timers
      modifies this, decision
      ensures |orders| == 1 && Visits(orders[0], old(decision.bindings.Keys))
      ensures View() == Step(old(View()), RetryDue(binding, retryId), orders) && Valid()
    {
      hide PinnedOk, DeliverAll;
      ghost var before := View();
      timers := timers - multiset{(binding, retryId)};
      orders := DecideThenExecute([RetryTimerFired(binding, retryId)]);
      StepMovesStream(before, RetryDue(binding, retryId), orders);
    }

    method HandleJoinResult(thread: nat)
      requires Valid() && thread in joining
      modifies this
      ensures View() == Step(old(View()), JoinDone(thread), []) && Valid()
    {
      hide PinnedOk;
      StepMovesStream(View(), JoinDone(thread), []);
      pendingJoins := if pendingJoins == 0 then 0 else pendingJoins - 1;
      joining := joining - {thread};
      joined := joined + {thread};
    }

    /** Starts both bindings in one batch, so that one stream is built for both. */
    method StartAllBindings()
      requires Valid()
      modifies this, decision
      ensures Valid()
      ensures exists orders :: Orders(old(View()), StartAll, orders) && View() == Step(old(View()), StartAll, orders)
    {
      hide PinnedOk, Step;
      ghost var before := View();
      ghost var orders := HandleBatch(StartAll);
      assert Orders(before, StartAll, orders);
    }

    /** Handles what arrives on the capture channel. */
    method HandleCaptureEvent(event: Event)
      requires Valid() && (event.StreamStarted? || event.StreamError? || event.StreamStopped?)
      modifies this, decision
      ensures View() == Step(old(View()), event, []) && Valid()
    {
      hide PinnedOk, Fail, MacosModel.Execute;
      match event {
        case StreamStarted(stream) => HandleStreamStarted(stream);
        case StreamError(stream, error) => HandleStreamError(stream, error);
        case StreamStopped =>
      }
    }

    /** Handles whatever one channel delivered. */
    method Dispatch(event: Event) returns (ghost orders: seq<seq<BindingKind>>)
      requires Valid() && Enabled(View(), event) && !event.StartAll? && !event.ShutdownSignal?
      modifies this, decision
      ensures Orders(old(View()), event, orders)
      ensures View() == Step(old(View()), event, orders) && Valid()
    {
      hide PinnedOk, Step;
      if event.DeviceChange? || event.DeviceList? {
        orders := HandleBatch(event);
      } else if event.RetryDue? {
        orders := HandleRetry(event.binding, event.retryId);
      } else if event.JoinDone? {
        HandleJoinResult(event.thread);
        orders := [];
      } else {
        HandleCaptureEvent(event);
        orders := [];
      }
    }

    method CanDeliver(event: Event) returns (yes: bool)
      ensures yes == Enabled(View(), event)
    {
      match event
      case JoinDone(thread) => yes := thread in joining;
      case RetryDue(binding, retryId) => yes := (binding, retryId) in timers;
      case DeviceChange(obs) =>
        yes := obs.EndpointRemoved? || obs.EndpointAdded? || obs.DefaultEndpointChanged? || obs.ProcessExited?;
      case _ => yes := true;
    }

    /** Waits for the torn-down streams one report at a time; `timedOut` says that it gave up. */
    method DrainPendingJoins() returns (timedOut: bool, ghost trace: seq<Supervisor>, ghost deliveries: seq<Delivery>)
      requires Valid()
      modifies this, decision
      ensures Valid() && IsDrain(trace, deliveries)
      ensures trace[0] == old(View()) && trace[|deliveries|] == View()
      ensures !timedOut ==> pendingJoins == 0
    {
      hide PinnedOk, Step;
      timedOut, trace, deliveries := false, [View()], [];
      while pendingJoins > 0
        invariant Valid() && IsDrain(trace, deliveries)
        invariant trace[0] == old(View()) && trace[|deliveries|] == View()
        decreases pendingJoins
      {
        var reports: bool := *;
        if !reports {
          timedOut := true;
          return;
        }
        ghost var before := View();
        ThreadsOf(before);
        SomeoneJoining(before);
        var thread :| thread in joining;
        DrainStep(before, thread);
        HandleJoinResult(thread);
        assert IsStep(before, Delivery(JoinDone(thread), []), View());
        trace, deliveries := trace + [View()], deliveries + [Delivery(JoinDone(thread), [])];
      }
    }

    /** The last branch of the event loop: request shutdown, then drain. */
    method Shutdown() returns (timedOut: bool)
      requires Valid()
      modifies this, decision
      ensures Valid()
      ensures forall k :: k in old(decision.bindings) && old(decision.bindings)[k].lifecycle.Running? ==>
                k in decision.bindings && decision.bindings[k].lifecycle.Stopped?
      ensures !timedOut ==> forall t: nat :: t < nextThread ==> t in joined || Serves(View(), t)
    {
      hide PinnedOk, Step, IsDrain;
      ghost var before := View();
      ghost var orders := HandleBatch(ShutdownSignal);
      ghost var trace, deliveries;
      timedOut, trace, deliveries := DrainPendingJoins();
      DrainingJoinsWhatRan(before, orders, trace, deliveries);
    }

    /** The event loop over whatever the channels deliver until the shutdown signal comes.
        A report that has no joiner or timer behind it cannot be delivered and is passed over. */
    method RunUntilShutdown(script: seq<Event>)
        returns (timedOut: bool, ghost trace: seq<Supervisor>, ghost deliveries: seq<Delivery>)
      requires Valid()
      modifies this, decision
      ensures Valid() && IsRun(trace, deliveries) && trace[0] == old(View())
      ensures forall k :: k in trace[|deliveries|].state.bindings ==>
                (trace[|deliveries|].state.bindings[k].lifecycle.Running? ==>
                   k in decision.bindings && decision.bindings[k].lifecycle.Stopped?)
      ensures !timedOut ==> forall t: nat :: t < nextThread ==> t in joined || Serves(View(), t)
    {
      hide PinnedOk, Step, Enabled, Serves;
      trace, deliveries := [View()], [];
      for i := 0 to |script|
        invariant Valid() && IsRun(trace, deliveries)
        invariant trace[0] == old(View()) && trace[|deliveries|] == View()
      {
        var event := script[i];
        if event.ShutdownSignal? {
          break;
        }
        var deliverable := CanDeliver(event);
        if deliverable && !event.StartAll? {
          ghost var before := View();
          ghost var orders := Dispatch(event);
          assert IsStep(before, Delivery(event, orders), View());
          trace, deliveries := trace + [View()], deliveries + [Delivery(event, orders)];
        }
      }
      timedOut := Shutdown();
    }
  }

  lemma ChangesSoFar(effects: seq<Effect>, i: nat)
    requires i < |effects|
    ensures ChangesBindings(effects[..i + 1]) <==> ChangesBindings(effects[..i]) || !effects[i].ScheduleRetry?
  {
    if ChangesBindings(effects[..i]) {
      var j :| 0 <= j < i && !effects[..i][j].ScheduleRetry?;
      assert !effects[..i + 1][j].ScheduleRetry?;
    }
    if !effects[i].ScheduleRetry? {
      assert !effects[..i + 1][i].ScheduleRetry?;
    }
    if ChangesBindings(effects[..i + 1]) && effects[i].ScheduleRetry? {
      var j :| 0 <= j < i + 1 && !effects[..i + 1][j].ScheduleRetry?;
      assert !effects[..i][j].ScheduleRetry?;
    }
  }

  lemma {:induction false} StopsAreCounted(effects: seq<Effect>, i: nat)
    requires i < |effects| && effects[i].StopCapture?
    ensures StopCount(effects) > 0
  {
    if i > 0 {
      StopsAreCounted(effects[1..], i - 1);
    }
  }

  lemma SomeoneJoining(s: Supervisor)
    requires ThreadsAccounted(s) && s.pendingJoins > 0
    ensures exists t :: t in s.joining
  {
    assert s.joining != {};
    var t :| t in s.joining;
  }
}
