/**
  The Windows supervisor as the source has it: an object whose methods update the worker
  table, the join counter and the decision state in place (windows_supervisor.rs:72-519).

  Every handler is proved to make exactly the step of `WindowsModel` and to keep the
  agreement of table, joiners, timers and state. Threads, joiners and timers that are still
  at work are part of the state, because each of them reports exactly once.
*/
module WindowsSupervisors {
  import opened Rebinding
  import opened RebindingMoves
  import opened DecisionStates
  import opened WindowsModel
  import IterationOrder
  import opened WindowsProofs

  class WindowsSupervisor {
    const decision: DecisionState
    var workers: map<BindingKind, Worker>
    var pendingJoins: nat
    var joiners: map<nat, Joiner>
    var timers: multiset<(BindingKind, nat)>
    ghost var joined: set<nat>
    var nextThread: nat
    var forwarded: seq<(BindingKind, nat)>

    ghost function View(): Supervisor
      reads this, decision
    {
      Supervisor(decision.View(), workers, pendingJoins, joiners, timers, joined, nextThread, forwarded)
    }

    ghost predicate Valid()
      reads this, decision
    {
      SupervisorOk(View())
    }

    constructor ()
      ensures JustPinned(View()) && Valid() && fresh(decision)
    {
      decision := new DecisionState();
      workers, pendingJoins, joiners, timers := map[], 0, map[], multiset{};
      joined, nextThread, forwarded := {}, 0, [];
    }

    /** Pins both bindings; only before the first start. */
    method PinDevices(microphone: EndpointId, render: EndpointId)
      requires JustPinned(View())
      modifies decision
      ensures JustPinned(View()) && Valid()
      ensures decision.bindings == old(decision.bindings)
                [Microphone := CaptureBinding(Microphone, Endpoint(Pinned(microphone)), Stopped, 0)]
                [EndpointLoopback := CaptureBinding(EndpointLoopback, Endpoint(Pinned(render)), Stopped, 0)]
    {
      hide SupervisorOk;
      decision.Insert(CaptureBinding(Microphone, Endpoint(Pinned(microphone)), Stopped, 0));
      decision.Insert(CaptureBinding(EndpointLoopback, Endpoint(Pinned(render)), Stopped, 0));
      PinnedIsOk(View());
    }

    method SpawnJoiner(binding: BindingKind, operationId: nat, epoch: nat, thread: nat)
      modifies this`pendingJoins, this`joiners
      ensures View() == WindowsModel.SpawnJoiner(old(View()), Joiner(binding, operationId, epoch), thread)
    {
      pendingJoins := pendingJoins + 1;
      joiners := joiners[thread := Joiner(binding, operationId, epoch)];
    }

    /** Starts a capture thread; the two arms marked unreachable in the source are ruled out. */
    method SpawnCaptureThread(binding: BindingKind, target: ResolvedTarget) returns (thread: nat)
      requires binding != ProcessLoopback && target.EndpointTarget?
      modifies this`nextThread
      ensures thread == old(nextThread) && nextThread == thread + 1
    {
      thread := nextThread;
      nextThread := nextThread + 1;
    }

    method Execute(effects: seq<Effect>)
      requires forall i :: 0 <= i < |effects| ==> Buildable(effects[i])
      modifies this
      ensures View() == WindowsModel.Execute(old(View()), effects)
    {
      for i := 0 to |effects|
        invariant decision.View() == old(decision.View())
        invariant WindowsModel.Execute(View(), effects[i..]) == WindowsModel.Execute(old(View()), effects)
      {
        ghost var before := View();
        assert effects[i..][1..] == effects[i + 1..];
        assert WindowsModel.Execute(before, effects[i..])
            == WindowsModel.Execute(ExecuteOne(before, effects[i]), effects[i + 1..]);
        hide WindowsModel.Execute;
        match effects[i] {
          case StartCapture(_, binding, operationId, epoch, target) =>
            assert Buildable(effects[i]);
            var thread := SpawnCaptureThread(binding, target);
            workers := workers[binding := Worker(operationId, epoch, target, thread)];
          case StopCapture(_, binding, operationId, epoch) =>
            if binding in workers {
              var worker := workers[binding];
              workers := workers - {binding};
              SpawnJoiner(binding, operationId, epoch, worker.thread);
            }
          case ScheduleRetry(_, binding, retryId, _) =>
            timers := timers + multiset{(binding, retryId)};
        }
        assert View() == ExecuteOne(before, effects[i]);
      }
    }

    /** Feeds one input to the decision and executes what comes back. */
    method Deliver(input: DecisionInput) returns (ghost order: seq<BindingKind>)
      requires ReadyFor(View(), input)
      modifies this, decision
      ensures Visits(order, old(decision.bindings.Keys))
      ensures View() == WindowsModel.Deliver(old(View()), input, order)
      ensures Valid()
    {
      ghost var before := View();
      var effects;
      effects, order := decision.Decide(input);
      DecidePends(before, input, order);
      Execute(effects);
      DeliverKeeps(before, input, order);
    }

    method ReapDeadWorker(binding: BindingKind, operationId: nat)
      modifies this
      ensures View() == Reap(old(View()), binding, operationId)
    {
      if binding !in workers || workers[binding].operationId != operationId {
        return;
      }
      var worker := workers[binding];
      workers := workers - {binding};
      SpawnJoiner(binding, worker.operationId, worker.epoch, worker.thread);
    }

    /** A worker reported that it died: decide, execute, then reclaim its handle. */
    method HandleDeath(stream: BindingKind, error: string) returns (ghost order: seq<BindingKind>)
      requires Valid()
      modifies this, decision
      ensures Visits(order, old(decision.bindings.Keys))
      ensures View() == Fail(old(View()), stream, error, order) && Valid()
    {
      hide Decide, WellFormed, EndpointsOnly, FramesOk, ThreadsAccounted, OperationsAccounted;
      ghost var before := View();
      order := SomeOrder(decision.bindings.Keys);
      if stream in workers {
        var operationId := workers[stream].operationId;
        var input := Observed(WorkerFailed(stream, operationId, error));
        var effects;
        effects, order := decision.Decide(input);
        assert CoreOk(before);
        CoreDecides(before, input, order);
        Execute(effects);
        ReapDeadWorker(stream, operationId);
      }
      FailKeeps(before, stream, error, order);
    }

    method HandleCaptureEvent(event: Event) returns (ghost order: seq<BindingKind>)
      requires Valid()
      requires event.Frame? || event.StreamStarted? || event.StreamError? || event.StreamStalled?
               || event.StreamStopped? || event.SessionDisconnected?
      modifies this, decision
      ensures Visits(order, old(decision.bindings.Keys))
      ensures View() == Step(old(View()), event, order) && Valid()
    {
      hide SupervisorOk, ReadyFor, WindowsModel.Deliver, Fail, Visits;
      ghost var before := View();
      order := SomeOrder(decision.bindings.Keys);
      match event {
        case Frame(stream, epoch) =>
          if decision.View().AcceptsEpoch(stream, epoch) {
            forwarded := forwarded + [(stream, epoch)];
          }
        case StreamStarted(stream) =>
          if stream in workers {
            var worker := workers[stream];
            StartReportIsReady(before, stream);
            order := Deliver(Observed(WorkerStarted(stream, worker.operationId, worker.epoch, worker.target)));
          }
        case StreamError(stream, error) =>
          order := HandleDeath(stream, error);
        case StreamStalled(_) =>
        case StreamStopped(stream, deviceLost) =>
          if deviceLost {
            order := HandleDeath(stream, "worker stopped unexpectedly (exit=DeviceLost)");
          }
        case SessionDisconnected(stream, reason) =>
          order := HandleDeath(stream, "audio session disconnected (reason=" + reason + ")");
      }
      StepKeeps(before, event, order);
    }

    method HandleDeviceChange(observation: Observation) returns (ghost order: seq<BindingKind>)
      requires Valid() && IsDeviceChange(observation)
      modifies this, decision
      ensures Visits(order, old(decision.bindings.Keys))
      ensures View() == Step(old(View()), DeviceChange(observation), order) && Valid()
    {
      hide SupervisorOk, ReadyFor, WindowsModel.Deliver, Visits;
      SettledIsReady(View(), Observed(observation));
      order := Deliver(Observed(observation));
    }

    method HandleJoinResult(thread: nat) returns (ghost order: seq<BindingKind>)
      requires Valid() && thread in joiners
      modifies this, decision
      ensures Visits(order, old(decision.bindings.Keys))
      ensures View() == Step(old(View()), JoinDone(thread), order) && Valid()
    {
      hide SupervisorOk, ReadyFor, WindowsModel.Deliver;
      JoinIsReady(View(), thread);
      var result := joiners[thread];
      pendingJoins := if pendingJoins == 0 then 0 else pendingJoins - 1;
      joiners := joiners - {thread};
      joined := joined + {thread};
      order := Deliver(Observed(WorkerStopped(result.binding, result.operationId, result.epoch)));
    }

    method HandleRetry(binding: BindingKind, retryId: nat) returns (ghost order: seq<BindingKind>)
      requires Valid() && (binding, retryId) in timers
      modifies this, decision
      ensures Visits(order, old(decision.bindings.Keys))
      ensures View() == Step(old(View()), RetryDue(binding, retryId), order) && Valid()
    {
      hide SupervisorOk, ReadyFor, WindowsModel.Deliver, Visits;
      TimerIsReady(View(), binding, retryId);
      timers := timers - multiset{(binding, retryId)};
      order := Deliver(RetryTimerFired(binding, retryId));
    }

    method StartAll()
      requires Valid()
      modifies this, decision
      ensures Valid()
      ensures exists a, b :: && Visits(a, old(decision.bindings.Keys)) && Visits(b, old(decision.bindings.Keys))
                && View() == Step(Step(old(View()), StartRequest(Microphone), a), StartRequest(EndpointLoopback), b)
    {
      ghost var before := View();
      SettledIsReady(View(), UserStart(Microphone));
      ghost var a := Deliver(UserStart(Microphone));
      DecideFrames(before.state, UserStart(Microphone), a);
      DeliverDecides(before, UserStart(Microphone), a);
      SettledIsReady(View(), UserStart(EndpointLoopback));
      ghost var b := Deliver(UserStart(EndpointLoopback));
      assert View() == Step(Step(before, StartRequest(Microphone), a), StartRequest(EndpointLoopback), b);
    }

    /** Waits for the outstanding joiners one report at a time; `timedOut` says that it gave up. */
    method DrainPendingJoins() returns (timedOut: bool, ghost trace: seq<Supervisor>, ghost deliveries: seq<Delivery>)
      requires Valid() && decision.shutdown
      modifies this, decision
      ensures Valid() && IsDrain(trace, deliveries)
      ensures trace[0] == old(View()) && trace[|deliveries|] == View()
      ensures !timedOut ==> pendingJoins == 0
    {
      hide SupervisorOk, Visits, Step;
      timedOut, trace, deliveries := false, [View()], [];
      while pendingJoins > 0
        invariant Valid() && decision.shutdown
        invariant IsDrain(trace, deliveries) && trace[0] == old(View()) && trace[|deliveries|] == View()
        decreases pendingJoins
      {
        var reports: bool := *;
        if !reports {
          timedOut := true;
          return;
        }
        ghost var before := View();
        ThreadsOf(before);
        JoinersRemain(before);
        var thread :| thread in joiners;
        ghost var order := HandleJoinResult(thread);
        DrainStep(before, thread, order);
        assert IsStep(before, Delivery(JoinDone(thread), order), View());
        trace, deliveries := trace + [View()], deliveries + [Delivery(JoinDone(thread), order)];
      }
    }

    /** Handles whatever one channel delivered. */
    method Dispatch(event: Event) returns (ghost order: seq<BindingKind>)
      requires Valid() && Enabled(View(), event) && !event.StartRequest? && !event.ShutdownSignal?
      modifies this, decision
      ensures Visits(order, old(decision.bindings.Keys))
      ensures View() == Step(old(View()), event, order) && Valid()
    {
      hide SupervisorOk, Step, Visits;
      if event.DeviceChange? {
        order := HandleDeviceChange(event.observation);
      } else if event.JoinDone? {
        order := HandleJoinResult(event.thread);
      } else if event.RetryDue? {
        order := HandleRetry(event.binding, event.retryId);
      } else {
        order := HandleCaptureEvent(event);
      }
    }

    /** The event loop over whatever the channels deliver until the shutdown signal comes.
        A report that has no joiner or timer behind it cannot be delivered and is passed over. */
    method RunUntilShutdown(script: seq<Event>)
        returns (timedOut: bool, ghost trace: seq<Supervisor>, ghost deliveries: seq<Delivery>)
      requires Valid()
      modifies this, decision
      ensures Valid() && IsRun(trace, deliveries) && trace[0] == old(View())
      ensures !timedOut ==> forall k :: k in trace[|deliveries|].state.bindings ==>
                && k in decision.bindings
                && !decision.bindings[k].lifecycle.Stopping?
                && (trace[|deliveries|].state.bindings[k].lifecycle.Running? ==>
                     decision.bindings[k].lifecycle.Stopped?)
    {
      hide SupervisorOk, Step, Visits, Enabled;
      trace, deliveries := [View()], [];
      for i := 0 to |script|
        invariant Valid() && IsRun(trace, deliveries)
        invariant trace[0] == old(View()) && trace[|deliveries|] == View()
      {
        var event := script[i];
        if event.ShutdownSignal? {
          break;
        }
        var deliverable := CanDeliver(event);
        if deliverable && !event.StartRequest? {
          ghost var before := View();
          ghost var order := Dispatch(event);
          assert IsStep(before, Delivery(event, order), View());
          trace, deliveries := trace + [View()], deliveries + [Delivery(event, order)];
        }
      }
      timedOut := Shutdown();
    }

    method CanDeliver(event: Event) returns (yes: bool)
      ensures yes == Enabled(View(), event)
    {
      match event
      case DeviceChange(observation) => yes := IsDeviceChange(observation);
      case JoinDone(thread) => yes := thread in joiners;
      case RetryDue(binding, retryId) => yes := (binding, retryId) in timers;
      case _ => yes := true;
    }

    /** The last branch of the event loop: request shutdown, then drain. */
    method Shutdown() returns (timedOut: bool)
      requires Valid()
      modifies this, decision
      ensures Valid()
      ensures !timedOut ==> forall k :: k in old(decision.bindings) ==>
                && k in decision.bindings
                && !decision.bindings[k].lifecycle.Stopping?
                && (old(decision.bindings)[k].lifecycle.Running? ==> decision.bindings[k].lifecycle.Stopped?)
    {
      hide SupervisorOk, Decide, IsDrain, Visits;
      ghost var before := View();
      SettledIsReady(before, ShutdownRequested);
      ghost var order := Deliver(ShutdownRequested);
      DeliverDecides(before, ShutdownRequested, order);
      IterationOrder.ShutdownRaisesFlag(before.state, order);
      ghost var trace, deliveries;
      timedOut, trace, deliveries := DrainPendingJoins();
      DrainingStopsWhatRan(before, order, trace, deliveries);
    }
  }

  lemma ThreadsOf(s: Supervisor)
    requires SupervisorOk(s)
    ensures ThreadsAccounted(s)
  {
    CoreParts(s);
  }

  lemma JoinersRemain(s: Supervisor)
    requires ThreadsAccounted(s) && s.pendingJoins > 0
    ensures exists t :: t in s.joiners
  {
    assert s.joiners != map[];
    assert s.joiners.Keys != {};
    var t :| t in s.joiners.Keys;
  }
}
