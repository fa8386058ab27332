/** Theorems about every run of the macOS supervisor. */
module MacosProofs {
  import opened Rebinding
  import opened RebindingMoves
  import opened MacosModel

  ghost predicate SupervisorOk(s: Supervisor) {
    && WellFormed(s.state)
    && EndpointsOnly(s.state)
    && ThreadsAccounted(s)
    && forall k: BindingKind :: TableOk(s, k) && NotStopping(s, k) && TimerOk(s, k)
  }

  // ---- The shared stream ------------------------------------------------------------

  lemma TearDownKeepsThreads(s: Supervisor)
    requires ThreadsAccounted(s)
    ensures ThreadsAccounted(TearDown(s)) && TearDown(s).active.None?
  {
    if s.active.Some? {
      assert |s.joining + {s.active.value.thread}| == |s.joining| + 1;
    }
  }

  lemma ReconcileKeepsThreads(s: Supervisor)
    requires ThreadsAccounted(s)
    ensures ThreadsAccounted(Reconcile(s))
  {
    TearDownKeepsThreads(s);
  }

  // ---- Executing effects ------------------------------------------------------------

  ghost predicate Settled(s: Supervisor, k: BindingKind) {
    TableOk(s, k) && NotStopping(s, k) && TimerOk(s, k)
  }

  ghost predicate Agrees(s: Supervisor, k: BindingKind, es: seq<Effect>) {
    if es == [] then Settled(s, k)
    else
      && |es| == 1 && k in s.state.bindings
      && var lc := s.state.bindings[k].lifecycle;
         match es[0]
         case StartCapture(_, _, op, epoch, target) => lc == Starting(op, epoch, target) && k !in s.workers
         case StopCapture(_, _, op, epoch) =>
           lc.Stopping? && lc.operationId == op && lc.epoch == epoch && k in s.workers
         case ScheduleRetry(_, _, _, _) => false
  }

  ghost predicate PendingOk(s: Supervisor, effects: seq<Effect>) {
    && WellFormed(s.state)
    && EndpointsOnly(s.state)
    && ThreadsAccounted(s)
    && forall k: BindingKind :: Agrees(s, k, EffectsFor(effects, k))
  }

  lemma AgreesFirst(s: Supervisor, e: Effect, rest: seq<Effect>)
    requires forall k: BindingKind :: Agrees(s, k, EffectsFor([e] + rest, k))
    ensures EffectsFor(rest, e.binding) == [] && Agrees(s, e.binding, [e])
    ensures forall k: BindingKind :: k != e.binding ==> Agrees(s, k, EffectsFor(rest, k))
  {
    assert ([e] + rest)[1..] == rest;
    assert Agrees(s, e.binding, EffectsFor([e] + rest, e.binding));
    assert EffectsFor([e] + rest, e.binding) == [e] + EffectsFor(rest, e.binding);
    forall k: BindingKind | k != e.binding ensures Agrees(s, k, EffectsFor(rest, k)) {
      assert Agrees(s, k, EffectsFor([e] + rest, k));
    }
  }

  lemma StartApplies(s: Supervisor, e: Effect, rest: seq<Effect>)
    requires e.StartCapture? && PendingOk(s, [e] + rest)
    ensures PendingOk(s.(workers := s.workers[e.binding := Worker(e.operationId, e.epoch, e.target)]), rest)
  {
    hide WellFormed, ThreadsAccounted, EffectsFor;
    var s' := s.(workers := s.workers[e.binding := Worker(e.operationId, e.epoch, e.target)]);
    AgreesFirst(s, e, rest);
    forall k: BindingKind ensures Agrees(s', k, EffectsFor(rest, k)) {
    }
    assert ThreadsAccounted(s') by { ThreadsIgnoreTable(s, s'); }
  }

  lemma ThreadsIgnoreTable(s: Supervisor, s': Supervisor)
    requires ThreadsAccounted(s)
    requires s'.active == s.active && s'.pendingJoins == s.pendingJoins && s'.joining == s.joining
    requires s'.joined == s.joined && s'.nextThread == s.nextThread
    ensures ThreadsAccounted(s')
  {
  }

  /** The stop is reported at once: the binding moves on and its answer is what is pending now. */
  lemma StopApplies(s: Supervisor, e: Effect, rest: seq<Effect>)
    requires e.StopCapture? && PendingOk(s, [e] + rest)
    ensures var o := OnWorkerStopped(s.state, e.binding, e.operationId, e.epoch);
            PendingOk(s.(workers := s.workers - {e.binding}, state := o.state), o.effects + rest)
  {
    hide WellFormed, ThreadsAccounted, EffectsFor, BindingOk;
    var o := OnWorkerStopped(s.state, e.binding, e.operationId, e.epoch);
    var s' := s.(workers := s.workers - {e.binding}, state := o.state);
    AgreesFirst(s, e, rest);
    assert WellFormed(o.state) && EndpointsOnly(o.state) by {
      StoppedStaysOk(s.state, e.binding, e.operationId, e.epoch);
    }
    assert ThreadsAccounted(s') by { ThreadsIgnoreTable(s, s'); }
    forall k: BindingKind ensures Agrees(s', k, EffectsFor(o.effects + rest, k)) {
      EffectsForConcat(o.effects, rest, k);
      StopMoves(s, e, k, EffectsFor(rest, k));
    }
  }

  lemma StoppedStaysOk(s: State, k: BindingKind, op: nat, epoch: nat)
    requires WellFormed(s) && EndpointsOnly(s)
    ensures var o := OnWorkerStopped(s, k, op, epoch); WellFormed(o.state) && EndpointsOnly(o.state)
  {
    hide BindingOk, Unshared, OnWorkerStopped, Moves;
    var order := SomeOrder(s.bindings.Keys);
    var input := Observed(WorkerStopped(k, op, epoch));
    assert Decide(s, input, order) == OnWorkerStopped(s, k, op, epoch);
    DecideKeepsWellFormed(s, input, order);
    DecideFrames(s, input, order);
    var s' := OnWorkerStopped(s, k, op, epoch).state;
    forall j | j in s'.bindings ensures j != ProcessLoopback && s'.bindings[j].selection.Endpoint? {
      DecideMoves(s, input, order, j);
      SelectionStays(s, s', input, j, EffectsFor(OnWorkerStopped(s, k, op, epoch).effects, j));
    }
  }

  lemma StopMoves(s: Supervisor, e: Effect, k: BindingKind, es: seq<Effect>)
    requires WellFormed(s.state) && e.StopCapture? && Agrees(s, e.binding, [e])
    requires k != e.binding ==> Agrees(s, k, es)
    requires k == e.binding ==> es == []
    ensures var o := OnWorkerStopped(s.state, e.binding, e.operationId, e.epoch);
            Agrees(s.(workers := s.workers - {e.binding}, state := o.state), k, EffectsFor(o.effects, k) + es)
  {
    hide OnWorkerStopped, Agrees, WellFormed;
    var o := OnWorkerStopped(s.state, e.binding, e.operationId, e.epoch);
    StoppedFrames(s.state, e.binding, e.operationId, e.epoch);
    if k == e.binding {
      EffectsForAll(o.effects, k);
      assert EffectsFor(o.effects, k) + es == o.effects;
      StopMovesItself(s, e);
    } else {
      NoEffectsFor(o.effects, k);
      assert EffectsFor(o.effects, k) + es == es;
      StopLeavesOthers(s, e, k, es);
    }
  }

  lemma StopMovesItself(s: Supervisor, e: Effect)
    requires WellFormed(s.state) && e.StopCapture? && Agrees(s, e.binding, [e])
    ensures var o := OnWorkerStopped(s.state, e.binding, e.operationId, e.epoch);
            Agrees(s.(workers := s.workers - {e.binding}, state := o.state), e.binding, o.effects)
  {
    OkOf(s.state, e.binding);
    hide WellFormed;
  }

  lemma StopLeavesOthers(s: Supervisor, e: Effect, k: BindingKind, es: seq<Effect>)
    requires e.StopCapture? && Agrees(s, k, es) && k != e.binding
    ensures var o := OnWorkerStopped(s.state, e.binding, e.operationId, e.epoch);
            Agrees(s.(workers := s.workers - {e.binding}, state := o.state), k, es)
  {
    StoppedFrames(s.state, e.binding, e.operationId, e.epoch);
    hide OnWorkerStopped;
  }

  lemma ReconcileKeepsPending(s: Supervisor, effects: seq<Effect>)
    requires PendingOk(s, effects)
    ensures PendingOk(Reconcile(s), effects)
  {
    hide EffectsFor, WellFormed, ThreadsAccounted;
    ReconcileKeepsThreads(s);
    forall k: BindingKind ensures Agrees(Reconcile(s), k, EffectsFor(effects, k)) {
      assert Agrees(s, k, EffectsFor(effects, k));
    }
  }

  /** Executing a batch, nested answers included, leaves exactly the rest pending. */
  lemma {:induction false} ExecuteLeaves(s: Supervisor, effects: seq<Effect>, rest: seq<Effect>)
    requires PendingOk(s, effects + rest)
    ensures PendingOk(Execute(s, effects), rest)
    decreases StopCount(effects), |effects|, 1
  {
    hide PendingOk, Reconcile;
    ApplyAllLeaves(s, effects, rest);
    ReconcileKeepsPending(ApplyAll(s, effects), rest);
  }

  lemma {:induction false} ApplyAllLeaves(s: Supervisor, effects: seq<Effect>, rest: seq<Effect>)
    requires PendingOk(s, effects + rest)
    ensures PendingOk(ApplyAll(s, effects), rest)
    decreases StopCount(effects), |effects|, 0
  {
    hide PendingOk, OnWorkerStopped, Execute;
    if effects == [] {
      assert effects + rest == rest;
    } else {
      var e, more := effects[0], effects[1..];
      assert effects + rest == [e] + (more + rest);
      RetriesNeverPend(s, e, more + rest);
      match e
      case StartCapture(_, binding, op, epoch, target) =>
        StartApplies(s, e, more + rest);
        ApplyAllLeaves(s.(workers := s.workers[binding := Worker(op, epoch, target)]), more, rest);
      case StopCapture(_, binding, op, epoch) =>
        var o := OnWorkerStopped(s.state, binding, op, epoch);
        var m := s.(workers := s.workers - {binding}, state := o.state);
        StopApplies(s, e, more + rest);
        StopsAnswerWithoutStops(s.state, binding, op, epoch);
        ExecuteLeaves(m, o.effects, more + rest);
        ApplyAllLeaves(Execute(m, o.effects), more, rest);
      case ScheduleRetry(_, _, _, _) =>
        assert false;
    }
  }

  lemma RetriesNeverPend(s: Supervisor, e: Effect, rest: seq<Effect>)
    requires PendingOk(s, [e] + rest)
    ensures !e.ScheduleRetry?
  {
    AgreesFirst(s, e, rest);
  }

  lemma ExecuteSettles(s: Supervisor, effects: seq<Effect>)
    requires PendingOk(s, effects)
    ensures SupervisorOk(Execute(s, effects))
  {
    hide Execute;
    assert effects + [] == effects;
    ExecuteLeaves(s, effects, []);
    var s' := Execute(s, effects);
    forall k: BindingKind ensures TableOk(s', k) && NotStopping(s', k) && TimerOk(s', k) {
      assert Agrees(s', k, EffectsFor([], k));
    }
  }

  // ---- Deciding a batch -------------------------------------------------------------

  ghost predicate WorkerReport(input: DecisionInput) {
    input.Observed? &&
    (input.observation.WorkerStarted? || input.observation.WorkerStopped? || input.observation.WorkerFailed?)
  }

  ghost predicate DeviceOrUser(input: DecisionInput) {
    !WorkerReport(input) && !input.RetryTimerFired?
  }

  /** One more decision before anything is executed: each binding still has at most one effect pending. */
  lemma DecideAppends(s: Supervisor, effects: seq<Effect>, input: DecisionInput, order: seq<BindingKind>)
    requires PendingOk(s, effects) && DeviceOrUser(input) && Visits(order, s.state.bindings.Keys)
    ensures var o := Decide(s.state, input, order);
            PendingOk(s.(state := o.state), effects + o.effects) && o.state.bindings.Keys == s.state.bindings.Keys
  {
    hide Decide, Moves, EffectsFor, Agrees, WellFormed, ThreadsAccounted;
    var o := Decide(s.state, input, order);
    DecideStaysOk(s.state, input, order);
    assert ThreadsAccounted(s.(state := o.state)) by { ThreadsIgnoreTable(s, s.(state := o.state)); }
    forall k: BindingKind ensures Agrees(s.(state := o.state), k, EffectsFor(effects + o.effects, k)) {
      EffectsForConcat(effects, o.effects, k);
      if k in s.state.bindings {
        DecideMoves(s.state, input, order, k);
        MoveAppends(s, o.state, input, k, EffectsFor(effects, k), EffectsFor(o.effects, k));
      } else {
        StrangersAgree(s, o, k, EffectsFor(effects, k));
      }
    }
  }

  lemma StrangersAgree(s: Supervisor, o: Outcome, k: BindingKind, es: seq<Effect>)
    requires k !in s.state.bindings && k !in o.state.bindings && Agrees(s, k, es)
    requires forall i :: 0 <= i < |o.effects| ==> o.effects[i].binding in s.state.bindings
    ensures Agrees(s.(state := o.state), k, es + EffectsFor(o.effects, k))
  {
    NoEffectsFor(o.effects, k);
    assert es + [] == es;
  }

  lemma DecideStaysOk(s: State, input: DecisionInput, order: seq<BindingKind>)
    requires WellFormed(s) && EndpointsOnly(s) && Visits(order, s.bindings.Keys)
    ensures var o := Decide(s, input, order);
            && WellFormed(o.state) && EndpointsOnly(o.state) && o.state.bindings.Keys == s.bindings.Keys
            && (s.shutdown ==> o.state.shutdown)
            && (forall i :: 0 <= i < |o.effects| ==> o.effects[i].binding in s.bindings)
  {
    hide Decide, Moves, BindingOk, Unshared;
    var o := Decide(s, input, order);
    DecideKeepsWellFormed(s, input, order);
    DecideFrames(s, input, order);
    forall j | j in o.state.bindings ensures j != ProcessLoopback && o.state.bindings[j].selection.Endpoint? {
      DecideMoves(s, input, order, j);
      SelectionStays(s, o.state, input, j, EffectsFor(o.effects, j));
    }
  }

  lemma MoveAppends(s: Supervisor, m: State, input: DecisionInput, k: BindingKind, es: seq<Effect>, more: seq<Effect>)
    requires k in s.state.bindings && k in m.bindings && Moves(s.state, m, input, k, more)
    requires Agrees(s, k, es) && DeviceOrUser(input) && (s.state.shutdown ==> m.shutdown)
    ensures Agrees(s.(state := m), k, es + more)
  {
    if es == [] {
      assert [] + more == more;
      MoveStarts(s, m, input, k, more);
    } else {
      MoveWaits(s, m, input, k, es, more);
      assert es + [] == es;
    }
  }

  lemma MoveStarts(s: Supervisor, m: State, input: DecisionInput, k: BindingKind, more: seq<Effect>)
    requires k in s.state.bindings && k in m.bindings && Moves(s.state, m, input, k, more)
    requires Settled(s, k) && DeviceOrUser(input) && (s.state.shutdown ==> m.shutdown)
    ensures Agrees(s.(state := m), k, more)
  {
  }

  /** A binding with an effect pending does not move again before it is executed. */
  lemma MoveWaits(s: Supervisor, m: State, input: DecisionInput, k: BindingKind, es: seq<Effect>, more: seq<Effect>)
    requires k in s.state.bindings && k in m.bindings && Moves(s.state, m, input, k, more)
    requires Agrees(s, k, es) && es != [] && DeviceOrUser(input) && (s.state.shutdown ==> m.shutdown)
    ensures more == [] && Agrees(s.(state := m), k, es)
  {
  }

  /** All effects of a batch are consistent with the state the batch leads to. */
  lemma {:induction false} BatchPends(s: Supervisor, inputs: seq<DecisionInput>, orders: seq<seq<BindingKind>>)
    requires SupervisorOk(s) && |orders| == |inputs|
    requires forall i :: 0 <= i < |inputs| ==> DeviceOrUser(inputs[i]) && Visits(orders[i], s.state.bindings.Keys)
    ensures var o := DecideAll(s.state, inputs, orders);
            PendingOk(s.(state := o.state), o.effects) && o.state.bindings.Keys == s.state.bindings.Keys
  {
    hide Decide, PendingOk;
    if inputs == [] {
      NothingPends(s);
    } else {
      var n := |inputs| - 1;
      BatchPends(s, inputs[..n], orders[..n]);
      var before := DecideAll(s.state, inputs[..n], orders[..n]);
      DecideAppends(s.(state := before.state), before.effects, inputs[n], orders[n]);
    }
  }

  lemma NothingPends(s: Supervisor)
    requires SupervisorOk(s)
    ensures PendingOk(s, [])
  {
  }

  lemma DeliverAllKeeps(s: Supervisor, inputs: seq<DecisionInput>, orders: seq<seq<BindingKind>>)
    requires SupervisorOk(s) && |orders| == |inputs|
    requires forall i :: 0 <= i < |inputs| ==> DeviceOrUser(inputs[i]) && Visits(orders[i], s.state.bindings.Keys)
    ensures SupervisorOk(DeliverAll(s, inputs, orders))
  {
    hide SupervisorOk, PendingOk, Execute;
    BatchPends(s, inputs, orders);
    var o := DecideAll(s.state, inputs, orders);
    ExecuteSettles(s.(state := o.state), o.effects);
  }

  // ---- Timers and worker reports ----------------------------------------------------

  lemma RetryKeeps(s: Supervisor, binding: BindingKind, retryId: nat, order: seq<BindingKind>)
    requires SupervisorOk(s) && Visits(order, s.state.bindings.Keys)
    ensures var m := s.(timers := s.timers - multiset{(binding, retryId)});
            SupervisorOk(DeliverAll(m, [RetryTimerFired(binding, retryId)], [order]))
  {
    hide SupervisorOk, Decide, Execute, PendingOk;
    var m := s.(timers := s.timers - multiset{(binding, retryId)});
    var input := RetryTimerFired(binding, retryId);
    var o := Decide(s.state, input, order);
    assert DecideAll(m.state, [input], [order]) == o by {
      assert [input][..0] == [] && DecideAll(m.state, [input][..0], [order][..0]) == Outcome(m.state, []);
    }
    RetryPends(s, binding, retryId, order);
    ExecuteSettles(m.(state := o.state), o.effects);
  }

  lemma RetryPends(s: Supervisor, binding: BindingKind, retryId: nat, order: seq<BindingKind>)
    requires SupervisorOk(s) && Visits(order, s.state.bindings.Keys)
    ensures var m := s.(timers := s.timers - multiset{(binding, retryId)});
            var o := Decide(s.state, RetryTimerFired(binding, retryId), order);
            PendingOk(m.(state := o.state), o.effects)
  {
    hide Decide, Moves, EffectsFor, WellFormed, ThreadsAccounted;
    var m := s.(timers := s.timers - multiset{(binding, retryId)});
    var input := RetryTimerFired(binding, retryId);
    var o := Decide(s.state, input, order);
    DecideStaysOk(s.state, input, order);
    assert ThreadsAccounted(m.(state := o.state)) by { ThreadsIgnoreTable(s, m.(state := o.state)); }
    forall k: BindingKind ensures Agrees(m.(state := o.state), k, EffectsFor(o.effects, k)) {
      assert Settled(s, k);
      if k in s.state.bindings {
        assert BindingOk(s.state, k) by { OkOf(s.state, k); }
        DecideMoves(s.state, input, order, k);
        if k == binding && retryId == s.state.bindings[k].retryAttempt {
          FiredTimerMoves(s.state, order, k);
        }
        TimedMoveAgrees(s, m, o.state, input, k, EffectsFor(o.effects, k));
      } else {
        NoEffectsFor(o.effects, k);
      }
    }
  }

  lemma TimedMoveAgrees(s: Supervisor, m: Supervisor, t: State, input: DecisionInput, k: BindingKind, es: seq<Effect>)
    requires k in s.state.bindings && k in t.bindings && Moves(s.state, t, input, k, es)
    requires Settled(s, k) && BindingOk(s.state, k) && input.RetryTimerFired? && (s.state.shutdown ==> t.shutdown)
    requires m == s.(timers := s.timers - multiset{(input.binding, input.retryId)})
    requires k == input.binding && input.retryId == s.state.bindings[k].retryAttempt && !s.state.shutdown
             && s.state.bindings[k].lifecycle.Waiting? && s.state.bindings[k].lifecycle.reason.RetryableFailure? ==>
               !(t.bindings[k].lifecycle.Waiting? && t.bindings[k].lifecycle.reason.RetryableFailure?)
    ensures Agrees(m.(state := t), k, es)
  {
  }

  lemma StartedKeeps(s: Supervisor, k: BindingKind)
    requires SupervisorOk(s) && k in s.workers
    ensures var w := s.workers[k];
            var o := OnWorkerStarted(s.state, k, w.operationId, w.epoch, w.target);
            SupervisorOk(Execute(s.(state := o.state), o.effects))
  {
    hide WellFormed, BindingOk, Unshared;
    var w := s.workers[k];
    var input := Observed(WorkerStarted(k, w.operationId, w.epoch, w.target));
    var order := SomeOrder(s.state.bindings.Keys);
    DecideStaysOk(s.state, input, order);
    var o := OnWorkerStarted(s.state, k, w.operationId, w.epoch, w.target);
    assert o == Decide(s.state, input, order) && o.effects == [];
    var s' := s.(state := o.state);
    assert Execute(s', []) == s';
    forall j: BindingKind ensures TableOk(s', j) && NotStopping(s', j) && TimerOk(s', j) {
      assert TableOk(s, j) && NotStopping(s, j) && TimerOk(s, j);
    }
  }

  lemma FailedIsDecision(s: State, k: BindingKind, op: nat, error: string, order: seq<BindingKind>)
    ensures OnWorkerFailed(s, k, op, error) == Decide(s, Observed(WorkerFailed(k, op, error)), order)
  {
  }

  /** After a failure is executed everything is settled, with or without a rebuild. */
  lemma FailSettles(s: Supervisor, k: BindingKind, error: string)
    requires SupervisorOk(s) && k in s.workers
    ensures var o := OnWorkerFailed(s.state, k, s.workers[k].operationId, error);
            SupervisorOk(Execute(s.(state := o.state, workers := s.workers - {k}), o.effects))
  {
    hide WellFormed, ThreadsAccounted, Execute, BindingOk, Unshared, Decide, NotStopping, TimerOk;
    var op := s.workers[k].operationId;
    assert TableOk(s, k);
    var input := Observed(WorkerFailed(k, op, error));
    var order := SomeOrder(s.state.bindings.Keys);
    DecideStaysOk(s.state, input, order);
    var o := OnWorkerFailed(s.state, k, op, error);
    FailedIsDecision(s.state, k, op, error, order);
    var m := s.(state := o.state, workers := s.workers - {k});
    FailedExecutes(m, k, o);
    var m' := Execute(m, o.effects);
    assert ThreadsAccounted(m') by { ThreadsIgnoreTable(s, m'); }
    forall j: BindingKind ensures TableOk(m', j) && NotStopping(m', j) && TimerOk(m', j) {
      assert TableOk(s, j) && NotStopping(s, j) && TimerOk(s, j);
      FailLeaves(s, k, error, m', j);
    }
  }

  lemma FailLeaves(s: Supervisor, k: BindingKind, error: string, m': Supervisor, j: BindingKind)
    requires Settled(s, j) && TableOk(s, k) && k in s.workers
    requires var o := OnWorkerFailed(s.state, k, s.workers[k].operationId, error);
             && m'.state == o.state && m'.workers == s.workers - {k} && s.timers <= m'.timers
             && (o.effects != [] ==> (o.effects[0].binding, o.effects[0].retryId) in m'.timers)
    ensures TableOk(m', j) && NotStopping(m', j) && TimerOk(m', j)
  {
  }

  lemma FailKeeps(s: Supervisor, k: BindingKind, error: string)
    requires SupervisorOk(s)
    ensures SupervisorOk(Fail(s, k, error))
  {
    hide SupervisorOk, Execute, OnWorkerFailed;
    if k in s.workers {
      FailSettles(s, k, error);
      var o := OnWorkerFailed(s.state, k, s.workers[k].operationId, error);
      ReconcileKeepsOk(Execute(s.(state := o.state, workers := s.workers - {k}), o.effects));
    }
  }

  lemma ReconcileKeepsOk(s: Supervisor)
    requires SupervisorOk(s)
    ensures SupervisorOk(Reconcile(s))
  {
    hide WellFormed, ThreadsAccounted;
    ReconcileKeepsThreads(s);
    forall j: BindingKind ensures TableOk(Reconcile(s), j) && NotStopping(Reconcile(s), j) && TimerOk(Reconcile(s), j) {
      assert TableOk(s, j) && NotStopping(s, j) && TimerOk(s, j);
    }
  }

  lemma FailedExecutes(m: Supervisor, k: BindingKind, o: Outcome)
    requires |o.effects| <= 1 && forall i :: 0 <= i < |o.effects| ==> o.effects[i].ScheduleRetry?
    ensures Execute(m, o.effects) ==
              if o.effects == [] then m
              else m.(timers := m.timers + multiset{(o.effects[0].binding, o.effects[0].retryId)})
  {
    if o.effects != [] {
      assert o.effects[1..] == [];
      assert ApplyAll(m, o.effects) ==
             ApplyAll(m.(timers := m.timers + multiset{(o.effects[0].binding, o.effects[0].retryId)}), []);
    }
  }

  lemma JoinKeeps(s: Supervisor, thread: nat)
    requires SupervisorOk(s) && thread in s.joining
    ensures SupervisorOk(Step(s, JoinDone(thread), []))
  {
    hide WellFormed;
    var s' := Step(s, JoinDone(thread), []);
    assert |s.joining - {thread}| == |s.joining| - 1;
    forall j: BindingKind ensures TableOk(s', j) && NotStopping(s', j) && TimerOk(s', j) {
      assert TableOk(s, j) && NotStopping(s, j) && TimerOk(s, j);
    }
  }

  // ---- Runs -------------------------------------------------------------------------

  /** Every event keeps table and state in agreement and leaves no binding stopping. */
  lemma StepKeeps(s: Supervisor, event: Event, orders: seq<seq<BindingKind>>)
    requires SupervisorOk(s) && Enabled(s, event) && |orders| == |Batch(event)|
    requires forall i :: 0 <= i < |orders| ==> Visits(orders[i], s.state.bindings.Keys)
    ensures SupervisorOk(Step(s, event, orders))
  {
    hide SupervisorOk, DeliverAll, Fail, Execute;
    match event
    case StreamStarted(k) => if k in s.workers { StartedKeeps(s, k); }
    case StreamError(k, error) => FailKeeps(s, k, error);
    case StreamStopped =>
    case JoinDone(thread) => JoinKeeps(s, thread);
    case RetryDue(binding, retryId) =>
      assert orders == [orders[0]];
      RetryKeeps(s, binding, retryId, orders[0]);
    case DeviceChange(_) => DeliverAllKeeps(s, Batch(event), orders);
    case DeviceList(_, _) => DeliverAllKeeps(s, Batch(event), orders);
    case StartAll => DeliverAllKeeps(s, Batch(event), orders);
    case ShutdownSignal => DeliverAllKeeps(s, Batch(event), orders);
  }

  datatype Delivery = Delivery(event: Event, orders: seq<seq<BindingKind>>)

  ghost predicate IsStep(s: Supervisor, d: Delivery, s': Supervisor) {
    && Enabled(s, d.event)
    && |d.orders| == |Batch(d.event)|
    && (forall i :: 0 <= i < |d.orders| ==> Visits(d.orders[i], s.state.bindings.Keys))
    && s' == Step(s, d.event, d.orders)
  }

  ghost predicate IsRun(trace: seq<Supervisor>, deliveries: seq<Delivery>) {
    && |trace| == |deliveries| + 1
    && forall i :: 0 <= i < |deliveries| ==> IsStep(trace[i], deliveries[i], trace[i + 1])
  }

  ghost predicate JustPinned(s: Supervisor) {
    && (forall k :: k in s.state.bindings ==>
          && s.state.bindings[k].kind == k && s.state.bindings[k].lifecycle == Stopped
          && s.state.bindings[k].retryAttempt == 0)
    && PinnedOnly(s.state)
    && s.workers == map[] && s.active.None? && s.joining == {} && s.joined == {}
    && s.pendingJoins == 0 && s.nextThread == 0
  }

  lemma {:induction false} RunsStayOk(trace: seq<Supervisor>, deliveries: seq<Delivery>, n: nat)
    requires IsRun(trace, deliveries) && JustPinned(trace[0]) && n <= |deliveries|
    ensures SupervisorOk(trace[n])
  {
    hide SupervisorOk, Step;
    if n > 0 {
      RunsStayOk(trace, deliveries, n - 1);
      assert IsStep(trace[n - 1], deliveries[n - 1], trace[n]);
      StepKeeps(trace[n - 1], deliveries[n - 1].event, deliveries[n - 1].orders);
    } else {
      PinnedIsOk(trace[0]);
    }
  }

  lemma PinnedIsOk(s: Supervisor)
    requires JustPinned(s)
    ensures SupervisorOk(s)
  {
  }

  /** In every reachable state: no binding is stopping, the table holds exactly the live
      bindings under their own ids, and no thread is unaccounted for. */
  lemma TableAgrees(trace: seq<Supervisor>, deliveries: seq<Delivery>, n: nat, k: BindingKind)
    requires IsRun(trace, deliveries) && JustPinned(trace[0]) && n <= |deliveries|
    ensures var s := trace[n];
            && (k in s.state.bindings ==> !s.state.bindings[k].lifecycle.Stopping?)
            && (k in s.workers <==> k in s.state.bindings && s.state.bindings[k].lifecycle.Live())
            && (k in s.workers ==>
                  && s.workers[k].operationId == s.state.bindings[k].lifecycle.operationId
                  && s.workers[k].epoch == s.state.bindings[k].lifecycle.epoch)
            && ThreadsAccounted(s)
  {
    RunsStayOk(trace, deliveries, n);
    assert TableOk(trace[n], k) && NotStopping(trace[n], k);
  }

  // ---- One stop in a batch -------------------------------------------------------------

  function AfterStopOf(s: Supervisor, e: Effect): Supervisor
    requires e.StopCapture?
  {
    s.(workers := s.workers - {e.binding}, state := OnWorkerStopped(s.state, e.binding, e.operationId, e.epoch).state)
  }

  lemma StopUnfolds(s: Supervisor, effects: seq<Effect>)
    requires effects != [] && effects[0].StopCapture?
    ensures var o := OnWorkerStopped(s.state, effects[0].binding, effects[0].operationId, effects[0].epoch);
            ApplyAll(s, effects) == ApplyAll(Execute(AfterStopOf(s, effects[0]), o.effects), effects[1..])
  {
    hide OnWorkerStopped, Execute;
  }
}
