/**
  The mutable decision state (crates/capture-api/src/rebinding.rs:210-259, 400-775).

  Every method updates the fields in place and is proved to compute exactly the outcome
  that `Rebinding` specifies. `VisitOrder` stands for one walk over the hash map: it picks
  the keys in an arbitrary order, and `Decide` reports the order it happened to use.
*/
module DecisionStates {
  import opened Prelude
  import opened Rebinding

  function AsList(effect: Option<Effect>): seq<Effect> {
    if effect.Some? then [effect.value] else []
  }

  class DecisionState {
    var bindings: map<BindingKind, CaptureBinding>
    var defaultRoutes: Routes
    var nextOperationId: nat
    var nextStreamEpoch: nat
    var nextEffectId: nat
    var shutdown: bool

    function View(): State
      reads this
    {
      State(bindings, defaultRoutes, nextOperationId, nextStreamEpoch, nextEffectId, shutdown)
    }

    constructor ()
      ensures View() == State(map[], map[], 0, 0, 0, false)
    {
      bindings, defaultRoutes := map[], map[];
      nextOperationId, nextStreamEpoch, nextEffectId, shutdown := 0, 0, 0, false;
    }

    method Insert(binding: CaptureBinding)
      modifies this
      ensures View() == old(View()).(bindings := old(bindings)[binding.kind := binding])
    {
      bindings := bindings[binding.kind := binding];
    }

    method AllocOperationId() returns (id: nat)
      modifies this`nextOperationId
      ensures id == old(nextOperationId) && nextOperationId == id + 1
    {
      id := nextOperationId;
      nextOperationId := nextOperationId + 1;
    }

    method AllocStreamEpoch() returns (epoch: nat)
      modifies this`nextStreamEpoch
      ensures epoch == old(nextStreamEpoch) && nextStreamEpoch == epoch + 1
    {
      epoch := nextStreamEpoch;
      nextStreamEpoch := nextStreamEpoch + 1;
    }

    method AllocEffectId() returns (id: nat)
      modifies this`nextEffectId
      ensures id == old(nextEffectId) && nextEffectId == id + 1
    {
      id := nextEffectId;
      nextEffectId := nextEffectId + 1;
    }

    method SetLifecycle(kind: BindingKind, lifecycle: Lifecycle)
      requires kind in bindings
      modifies this`bindings
      ensures bindings == old(bindings)[kind := old(bindings)[kind].(lifecycle := lifecycle)]
    {
      bindings := bindings[kind := bindings[kind].(lifecycle := lifecycle)];
    }

    /** One walk over the hash map: any order of its keys. */
    method VisitOrder() returns (order: seq<BindingKind>)
      ensures Visits(order, bindings.Keys)
    {
      order := [];
      var rest := bindings.Keys;
      while rest != {}
        invariant rest <= bindings.Keys
        invariant Visits(order, bindings.Keys - rest)
        decreases rest
      {
        var kind :| kind in rest;
        rest := rest - {kind};
        order := order + [kind];
      }
    }

    method StartBinding(kind: BindingKind) returns (effect: Option<Effect>)
      modifies this
      ensures Outcome(View(), AsList(effect)) == Rebinding.StartBinding(old(View()), kind)
    {
      if shutdown || kind !in bindings {
        return None;
      }
      var binding := bindings[kind];
      if !(binding.lifecycle.Stopped? || binding.lifecycle.Waiting?) {
        return None;
      }
      match ResolveTarget(binding.selection, defaultRoutes) {
        case Some(target) =>
          var operationId := AllocOperationId();
          var epoch := AllocStreamEpoch();
          var effectId := AllocEffectId();
          SetLifecycle(kind, Starting(operationId, epoch, target));
          return Some(StartCapture(effectId, kind, operationId, epoch, target));
        case None =>
          SetLifecycle(kind, Waiting(DeviceUnavailable));
          return None;
      }
    }

    method StopBinding(kind: BindingKind, next: AfterStop) returns (effect: Option<Effect>)
      modifies this
      ensures Outcome(View(), AsList(effect)) == Rebinding.StopBinding(old(View()), kind, next)
    {
      if kind !in bindings || !bindings[kind].lifecycle.Running? {
        return None;
      }
      var running := bindings[kind].lifecycle;
      var effectId := AllocEffectId();
      SetLifecycle(kind, Stopping(running.operationId, running.epoch, next));
      return Some(StopCapture(effectId, kind, running.operationId, running.epoch));
    }

    /** One visit of a pass over several bindings. */
    method Visit(reaction: Reaction, kind: BindingKind) returns (effect: Option<Effect>)
      modifies this
      ensures Outcome(View(), AsList(effect)) == React(old(View()), reaction, kind)
    {
      match reaction
      case StopThen(next) => effect := StopBinding(kind, next);
      case StartNow => effect := StartBinding(kind);
      case Rebind =>
        if kind !in bindings {
          return None;
        }
        var binding := bindings[kind];
        match binding.lifecycle {
          case Running(_, _, target) =>
            if SelectionTargets(binding.selection, target, defaultRoutes) {
              return None;
            }
            effect := StopBinding(kind, ResolveAndStart);
          case Waiting(_) =>
            effect := StartBinding(kind);
          case _ =>
            effect := None;
        }
    }

    method VisitAll(reaction: Reaction, kinds: seq<BindingKind>) returns (effects: seq<Effect>)
      modifies this
      ensures Outcome(View(), effects) == ReactAll(old(View()), reaction, kinds)
    {
      effects := [];
      for i := 0 to |kinds|
        invariant Outcome(View(), effects) == ReactAll(old(View()), reaction, kinds[..i])
      {
        assert kinds[..i + 1][..i] == kinds[..i];
        var effect := Visit(reaction, kinds[i]);
        effects := effects + AsList(effect);
      }
      assert kinds[..|kinds|] == kinds;
    }

    /** The bindings an observation singles out, collected before any of them changes. */
    method Collect(obs: Observation, order: seq<BindingKind>) returns (kinds: seq<BindingKind>)
      ensures kinds == Selected(View(), obs, order)
    {
      kinds := [];
      for i := 0 to |order|
        invariant kinds == Selected(View(), obs, order[..i])
      {
        assert order[..i + 1][..i] == order[..i];
        if Selects(View(), obs, order[i]) {
          kinds := kinds + [order[i]];
        }
      }
      assert order[..|order|] == order;
    }

    method HandleObservation(obs: Observation) returns (effects: seq<Effect>, ghost order: seq<BindingKind>)
      modifies this
      ensures Visits(order, old(bindings.Keys))
      ensures Outcome(View(), effects) == Observe(old(View()), obs, order)
    {
      order := SomeOrder(bindings.Keys);
      match obs {
        case DefaultEndpointChanged(flow, role, id) =>
          var walk := VisitOrder();
          order := walk;
          defaultRoutes := defaultRoutes[(flow, role) := id];
          var affected := Collect(obs, walk);
          effects := VisitAll(Rebind, affected);
        case EndpointRemoved(_) =>
          var walk := VisitOrder();
          order := walk;
          var affected := Collect(obs, walk);
          effects := VisitAll(StopThen(WaitForRecovery(DeviceUnavailable)), affected);
        case EndpointAdded(_) =>
          var walk := VisitOrder();
          order := walk;
          var affected := Collect(obs, walk);
          effects := VisitAll(StartNow, affected);
        case ProcessExited(pid) =>
          effects := [];
          if RunsProcess(View(), pid) {
            var effect := StopBinding(ProcessLoopback, WaitForRecovery(ProcessNotFound));
            effects := AsList(effect);
          }
        case ProcessRestarted(oldPid, newPid) =>
          effects := [];
          if RunsProcess(View(), oldPid) {
            var binding := bindings[ProcessLoopback];
            if binding.selection.Process? {
              var selection := binding.selection.(pid := Some(newPid));
              bindings := bindings[ProcessLoopback := binding.(selection := selection)];
            }
            var effect := StopBinding(ProcessLoopback, ResolveAndStart);
            effects := AsList(effect);
          }
        case WorkerStarted(kind, op, epoch, target) =>
          effects := [];
          if kind in bindings {
            var lc := bindings[kind].lifecycle;
            if lc.Starting? && lc.operationId == op && lc.epoch == epoch {
              SetLifecycle(kind, Running(op, epoch, target));
              bindings := bindings[kind := bindings[kind].(retryAttempt := 0)];
            }
          }
        case WorkerStopped(kind, op, epoch) =>
          effects := HandleWorkerStopped(kind, op, epoch);
        case WorkerFailed(kind, op, error) =>
          effects := HandleWorkerFailed(kind, op, error);
      }
    }

    method HandleWorkerStopped(kind: BindingKind, op: nat, epoch: nat) returns (effects: seq<Effect>)
      modifies this
      ensures Outcome(View(), effects) == OnWorkerStopped(old(View()), kind, op, epoch)
    {
      if kind !in bindings {
        return [];
      }
      var lc := bindings[kind].lifecycle;
      if !lc.Stopping? || lc.operationId != op || lc.epoch != epoch {
        return [];
      }
      match lc.next {
        case RemainStopped =>
          SetLifecycle(kind, Stopped);
          return [];
        case WaitForRecovery(why) =>
          SetLifecycle(kind, Waiting(why));
          return [];
        case ResolveAndStart =>
          SetLifecycle(kind, Stopped);
          var effect := StartBinding(kind);
          return AsList(effect);
      }
    }

    method HandleWorkerFailed(kind: BindingKind, op: nat, error: string) returns (effects: seq<Effect>)
      modifies this
      ensures Outcome(View(), effects) == OnWorkerFailed(old(View()), kind, op, error)
    {
      if kind !in bindings {
        return [];
      }
      var binding := bindings[kind];
      if !binding.lifecycle.Live() || binding.lifecycle.operationId != op {
        return [];
      }
      var attempt := binding.retryAttempt + 1;
      if attempt > MAX_RETRY_ATTEMPTS {
        bindings := bindings[kind := binding.(retryAttempt := attempt, lifecycle := Failed(attempt, error))];
        return [];
      }
      bindings := bindings[kind := binding.(retryAttempt := attempt,
                                            lifecycle := Waiting(RetryableFailure(attempt)))];
      var effectId := AllocEffectId();
      return [ScheduleRetry(effectId, kind, attempt, attempt)];
    }

    method HandleRetryTimer(kind: BindingKind, retryId: nat) returns (effects: seq<Effect>)
      modifies this
      ensures Outcome(View(), effects) == OnRetryTimer(old(View()), kind, retryId)
    {
      if kind !in bindings {
        return [];
      }
      var binding := bindings[kind];
      if !(binding.lifecycle.Waiting? && binding.lifecycle.reason.RetryableFailure?) {
        return [];
      }
      if binding.retryAttempt != retryId {
        return [];
      }
      var effect := StartBinding(kind);
      return AsList(effect);
    }

    /** The only entry point: the new state and the effects are those of `Rebinding.Decide`
        for the order in which the binding map happened to be visited. */
    method Decide(input: DecisionInput) returns (effects: seq<Effect>, ghost order: seq<BindingKind>)
      modifies this
      ensures Visits(order, old(bindings.Keys))
      ensures Outcome(View(), effects) == Rebinding.Decide(old(View()), input, order)
    {
      match input {
        case ShutdownRequested =>
          shutdown := true;
          var kinds := VisitOrder();
          order := kinds;
          effects := VisitAll(StopThen(RemainStopped), kinds);
        case UserStart(kind) =>
          order := SomeOrder(bindings.Keys);
          var effect := StartBinding(kind);
          effects := AsList(effect);
        case UserStop(kind) =>
          order := SomeOrder(bindings.Keys);
          var effect := StopBinding(kind, RemainStopped);
          effects := AsList(effect);
        case RetryTimerFired(kind, retryId) =>
          order := SomeOrder(bindings.Keys);
          effects := HandleRetryTimer(kind, retryId);
        case Observed(obs) =>
          effects, order := HandleObservation(obs);
      }
    }
  }
}
