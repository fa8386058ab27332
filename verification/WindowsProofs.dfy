/** Theorems about every run of the Windows supervisor. */
module WindowsProofs {
  import opened Rebinding
  import opened RebindingMoves
  import opened RebindingHistory
  import IterationOrder
  import opened WindowsModel

  // ---- Executing effects ------------------------------------------------------------

  lemma JoinersGrow(s: Supervisor, joiner: Joiner, thread: nat)
    requires thread !in s.joiners
    ensures |SpawnJoiner(s, joiner, thread).joiners| == |s.joiners| + 1
  {
    assert SpawnJoiner(s, joiner, thread).joiners.Keys == s.joiners.Keys + {thread};
    assert |s.joiners.Keys| == |s.joiners| && |s.joiners.Keys + {thread}| == |s.joiners| + 1;
    assert |SpawnJoiner(s, joiner, thread).joiners.Keys| == |SpawnJoiner(s, joiner, thread).joiners|;
  }

  /** Handing a worker to a joiner moves its thread and its operation id along. */
  lemma HandOver(s: Supervisor, k: BindingKind)
    requires k in s.workers && ThreadsAccounted(s) && OperationsAccounted(s)
    ensures var w := s.workers[k];
            var s' := SpawnJoiner(s.(workers := s.workers - {k}), Joiner(k, w.operationId, w.epoch), w.thread);
            ThreadsAccounted(s') && OperationsAccounted(s')
  {
    hide ThreadsAccounted, OperationsAccounted;
    HandOverThread(s, k);
    HandOverOperation(s, k);
  }

  lemma HandOverOperation(s: Supervisor, k: BindingKind)
    requires k in s.workers && OperationsAccounted(s)
    ensures var w := s.workers[k];
            OperationsAccounted(SpawnJoiner(s.(workers := s.workers - {k}), Joiner(k, w.operationId, w.epoch),
                                            w.thread))
  {
  }

  lemma HandOverThread(s: Supervisor, k: BindingKind)
    requires k in s.workers && ThreadsAccounted(s)
    ensures var w := s.workers[k];
            ThreadsAccounted(SpawnJoiner(s.(workers := s.workers - {k}), Joiner(k, w.operationId, w.epoch), w.thread))
  {
    var w := s.workers[k];
    var s' := SpawnJoiner(s.(workers := s.workers - {k}), Joiner(k, w.operationId, w.epoch), w.thread);
    JoinersGrow(s.(workers := s.workers - {k}), Joiner(k, w.operationId, w.epoch), w.thread);
    forall t: nat | t < s'.nextThread ensures t in s'.joiners || t in s'.joined || OwnsThread(s', t) {
      if t !in s.joiners && t !in s.joined && t != w.thread {
        assert OwnsThread(s, t);
        var j :| j in s.workers && s.workers[j].thread == t;
        assert j in s'.workers && s'.workers[j].thread == t;
      }
    }
  }

  lemma StartKeepsThreads(s: Supervisor, e: Effect)
    requires e.StartCapture? && e.binding !in s.workers && UnusedOperation(s, e.operationId)
    requires ThreadsAccounted(s)
    ensures ThreadsAccounted(ExecuteOne(s, e))
  {
    var s' := ExecuteOne(s, e);
    forall t: nat | t < s'.nextThread ensures t in s'.joiners || t in s'.joined || OwnsThread(s', t) {
      StartKeepsOwners(s, e, t);
    }
    hide OwnsThread;
  }

  lemma StartKeepsOwners(s: Supervisor, e: Effect, t: nat)
    requires e.StartCapture? && e.binding !in s.workers
    ensures t == s.nextThread || OwnsThread(s, t) ==> OwnsThread(ExecuteOne(s, e), t)
  {
    var s' := ExecuteOne(s, e);
    if t == s.nextThread {
      assert e.binding in s'.workers && s'.workers[e.binding].thread == t;
    } else if OwnsThread(s, t) {
      var j :| j in s.workers && s.workers[j].thread == t;
      assert j in s'.workers && s'.workers[j].thread == t;
    }
  }

  lemma StartKeepsOperations(s: Supervisor, e: Effect)
    requires e.StartCapture? && e.binding !in s.workers && UnusedOperation(s, e.operationId)
    requires e.operationId < s.state.nextOperationId && OperationsAccounted(s)
    ensures OperationsAccounted(ExecuteOne(s, e))
  {
  }

  lemma ExecuteOneKeepsCore(s: Supervisor, e: Effect)
    requires CoreOk(s) && Agrees(s, e.binding, [e])
    ensures CoreOk(ExecuteOne(s, e))
  {
    hide ThreadsAccounted, OperationsAccounted, WellFormed, EndpointsOnly, FramesOk;
    var s' := ExecuteOne(s, e);
    assert FramesOk(s') && EndpointsOnly(s'.state) by { FramesDependOnState(s, s'); }
    assert BindingOk(s.state, e.binding) by { OkOf(s.state, e.binding); }
    match e
    case StartCapture(_, _, _, _, _) => StartKeepsThreads(s, e); StartKeepsOperations(s, e);
    case StopCapture(_, _, _, _) => HandOver(s, e.binding);
    case ScheduleRetry(_, _, _, _) =>
  }

  lemma FramesDependOnState(s: Supervisor, s': Supervisor)
    requires FramesOk(s) && EndpointsOnly(s.state) && s'.state == s.state && s'.forwarded == s.forwarded
    ensures FramesOk(s') && EndpointsOnly(s'.state)
  {
  }

  lemma AgreesFirst(s: Supervisor, e: Effect, rest: seq<Effect>)
    requires forall k: BindingKind :: Agrees(s, k, EffectsFor([e] + rest, k))
    ensures EffectsFor(rest, e.binding) == [] && Agrees(s, e.binding, [e])
    ensures forall k: BindingKind :: k != e.binding ==> Agrees(s, k, EffectsFor(rest, k))
  {
    assert ([e] + rest)[1..] == rest;
    assert Agrees(s, e.binding, EffectsFor([e] + rest, e.binding));
    assert EffectsFor([e] + rest, e.binding) == [e] + EffectsFor(rest, e.binding);
    forall k: BindingKind | k != e.binding ensures Agrees(s, k, EffectsFor(rest, k)) {
      assert Agrees(s, k, EffectsFor([e] + rest, k));
    }
  }

  lemma JoinersOnlyGrow(s: Supervisor, e: Effect, joiner: Joiner)
    requires ThreadsAccounted(s) && HasJoiner(s, joiner)
    ensures HasJoiner(ExecuteOne(s, e), joiner)
  {
    var t :| t in s.joiners && s.joiners[t] == joiner;
    assert t in ExecuteOne(s, e).joiners && ExecuteOne(s, e).joiners[t] == joiner;
  }

  /** Executing an effect for one binding leaves the others as they were. */
  lemma OthersStillAgree(s: Supervisor, e: Effect, k: BindingKind, es: seq<Effect>)
    requires CoreOk(s) && Agrees(s, e.binding, [e])
    requires k != e.binding && Agrees(s, k, es)
    ensures Agrees(ExecuteOne(s, e), k, es)
  {
    if es == [] {
      SettledUnaffected(s, e, k);
    } else {
      hide CoreOk;
      CoreParts(s);
      hide WellFormed, ThreadsAccounted, OperationsAccounted, FramesOk, EndpointsOnly;
      PendingUnaffected(s, e, k, es);
    }
  }

  lemma SettledUnaffected(s: Supervisor, e: Effect, k: BindingKind)
    requires CoreOk(s) && Agrees(s, e.binding, [e])
    requires k != e.binding && TableOk(s, k) && JoinOk(s, k) && TimerOk(s, k)
    ensures var s' := ExecuteOne(s, e); TableOk(s', k) && JoinOk(s', k) && TimerOk(s', k)
  {
    CoreParts(s);
    hide CoreOk, TableOk, JoinOk, TimerOk, Agrees, ExecuteOne;
    TableUnaffected(s, e, k);
    TimerUnaffected(s, e, k);
    JoinUnaffected(s, e, k);
  }

  lemma TableUnaffected(s: Supervisor, e: Effect, k: BindingKind)
    requires k != e.binding && TableOk(s, k)
    ensures TableOk(ExecuteOne(s, e), k)
  {
  }

  lemma TimerUnaffected(s: Supervisor, e: Effect, k: BindingKind)
    requires TimerOk(s, k)
    ensures TimerOk(ExecuteOne(s, e), k)
  {
  }

  lemma JoinUnaffected(s: Supervisor, e: Effect, k: BindingKind)
    requires ThreadsAccounted(s) && JoinOk(s, k)
    ensures JoinOk(ExecuteOne(s, e), k)
  {
    if k in s.state.bindings && s.state.bindings[k].lifecycle.Stopping? {
      var lc := s.state.bindings[k].lifecycle;
      JoinersOnlyGrow(s, e, Joiner(k, lc.operationId, lc.epoch));
    }
    hide ThreadsAccounted, HasJoiner;
  }

  lemma PendingUnaffected(s: Supervisor, e: Effect, k: BindingKind, es: seq<Effect>)
    requires WellFormed(s.state) && Agrees(s, e.binding, [e])
    requires k != e.binding && es != [] && Agrees(s, k, es)
    ensures Agrees(ExecuteOne(s, e), k, es)
  {
    assert Unshared(s.state, e.binding, k);
    hide WellFormed, TableOk, JoinOk, TimerOk;
  }

  lemma ItselfSettles(s: Supervisor, e: Effect)
    requires CoreOk(s) && Agrees(s, e.binding, [e])
    ensures Agrees(ExecuteOne(s, e), e.binding, [])
  {
    var s' := ExecuteOne(s, e);
    if e.StopCapture? {
      var t := s.workers[e.binding].thread;
      assert t in s'.joiners && s'.joiners[t] == Joiner(e.binding, e.operationId, e.epoch);
    }
  }

  lemma ExecuteOneKeeps(s: Supervisor, e: Effect, rest: seq<Effect>)
    requires PendingOk(s, [e] + rest)
    ensures PendingOk(ExecuteOne(s, e), rest)
  {
    hide ExecuteOne, CoreOk, Agrees, EffectsFor;
    AgreesFirst(s, e, rest);
    ExecuteOneKeepsCore(s, e);
    forall k: BindingKind ensures Agrees(ExecuteOne(s, e), k, EffectsFor(rest, k)) {
      if k == e.binding {
        ItselfSettles(s, e);
      } else {
        OthersStillAgree(s, e, k, EffectsFor(rest, k));
      }
    }
    forall i | 0 <= i < |rest| ensures Buildable(rest[i]) {
      assert rest[i] == ([e] + rest)[i + 1];
    }
  }

  /** Executing all effects of a decision restores the agreement of table and state. */
  lemma {:induction false} ExecuteKeeps(s: Supervisor, effects: seq<Effect>)
    requires PendingOk(s, effects)
    ensures SupervisorOk(Execute(s, effects))
    decreases |effects|
  {
    hide CoreOk, ExecuteOne, TableOk, JoinOk, TimerOk;
    if effects == [] {
      forall k: BindingKind ensures TableOk(s, k) && JoinOk(s, k) && TimerOk(s, k) {
        assert Agrees(s, k, EffectsFor(effects, k));
      }
    } else {
      assert effects == [effects[0]] + effects[1..];
      ExecuteOneKeeps(s, effects[0], effects[1..]);
      ExecuteKeeps(ExecuteOne(s, effects[0]), effects[1..]);
    }
  }

  // ---- Deciding ---------------------------------------------------------------------

  /** What a decision needs: every binding is settled, unless this very input settles it. */
  ghost predicate ReadyFor(s: Supervisor, input: DecisionInput) {
    && CoreOk(s)
    && (forall k: BindingKind :: TableOk(s, k))
    && (forall k: BindingKind :: JoinOk(s, k)
          || (k in s.state.bindings && IsMatchingStop(input, k, s.state.bindings[k].lifecycle)))
    && (forall k: BindingKind :: TimerOk(s, k)
          || (k in s.state.bindings && input == RetryTimerFired(k, s.state.bindings[k].retryAttempt)))
    && !(input.Observed? && input.observation.WorkerFailed?)
    && (input.Observed? && input.observation.WorkerStarted? ==>
          var k := input.observation.binding;
          k in s.workers && input.observation.target == s.workers[k].target)
  }

  /** The step from settled to pending for one binding. */
  lemma BindingDecides(s: Supervisor, input: DecisionInput, order: seq<BindingKind>, k: BindingKind)
    requires ReadyFor(s, input) && Visits(order, s.state.bindings.Keys) && k in s.state.bindings
    ensures var o := Decide(s.state, input, order);
            Agrees(s.(state := o.state), k, EffectsFor(o.effects, k))
  {
    hide Decide, Moves, CoreOk;
    var o := Decide(s.state, input, order);
    assert WellFormed(s.state) && OperationsAccounted(s) by { CoreParts(s); }
    DecideMoves(s.state, input, order, k);
    DecideFrames(s.state, input, order);
    assert TableOk(s, k) && BindingOk(s.state, k);
    if input == RetryTimerFired(k, s.state.bindings[k].retryAttempt) {
      FiredTimerMoves(s.state, order, k);
    }
    MatchingStopMoves(s.state, input, order, k);
    MoveAgrees(s, o.state, input, k, EffectsFor(o.effects, k));
  }

  lemma MatchingStopMoves(s: State, input: DecisionInput, order: seq<BindingKind>, k: BindingKind)
    requires k in s.bindings
    ensures var o := Decide(s, input, order);
            IsMatchingStop(input, k, s.bindings[k].lifecycle) ==>
              k in o.state.bindings && !o.state.bindings[k].lifecycle.Stopping?
  {
  }

  lemma CoreParts(s: Supervisor)
    requires CoreOk(s)
    ensures WellFormed(s.state) && OperationsAccounted(s) && ThreadsAccounted(s) && EndpointsOnly(s.state)
            && FramesOk(s)
  {
  }

  lemma MoveAgrees(s: Supervisor, m: State, input: DecisionInput, k: BindingKind, es: seq<Effect>)
    requires k in s.state.bindings && k in m.bindings && Moves(s.state, m, input, k, es)
    requires OperationsAccounted(s) && TableOk(s, k) && BindingOk(s.state, k)
    requires s.state.shutdown ==> m.shutdown
    requires JoinOk(s, k) || IsMatchingStop(input, k, s.state.bindings[k].lifecycle)
    requires TimerOk(s, k) ||
             !(m.bindings[k].lifecycle.Waiting? && m.bindings[k].lifecycle.reason.RetryableFailure?)
    requires !(input.Observed? && input.observation.WorkerFailed?)
    requires IsMatchingStop(input, k, s.state.bindings[k].lifecycle) ==> !m.bindings[k].lifecycle.Stopping?
    requires input.Observed? && input.observation.WorkerStarted? && input.observation.binding == k ==>
               k in s.workers && input.observation.target == s.workers[k].target
    ensures Agrees(s.(state := m), k, es)
  {
  }

  /** The accounts of threads and operations survive a decision: ids only go up. */
  lemma TablesIgnoreState(s: Supervisor, m: State)
    requires ThreadsAccounted(s) && OperationsAccounted(s) && s.state.nextOperationId <= m.nextOperationId
    ensures ThreadsAccounted(s.(state := m)) && OperationsAccounted(s.(state := m))
  {
    OwnersIgnoreState(s, m);
    hide OwnsThread;
  }

  lemma OwnersIgnoreState(s: Supervisor, m: State)
    ensures forall t: nat :: OwnsThread(s.(state := m), t) == OwnsThread(s, t)
  {
  }

  lemma CoreDecides(s: Supervisor, input: DecisionInput, order: seq<BindingKind>)
    requires CoreOk(s) && Visits(order, s.state.bindings.Keys)
    ensures CoreOk(s.(state := Decide(s.state, input, order).state))
    ensures forall i :: 0 <= i < |Decide(s.state, input, order).effects| ==>
              Buildable(Decide(s.state, input, order).effects[i])
  {
    CoreParts(s);
    hide Decide, Moves, WellFormed, FramesOk, ThreadsAccounted, OperationsAccounted, StartsAscend;
    var o := Decide(s.state, input, order);
    DecideKeepsWellFormed(s.state, input, order);
    DecideFrames(s.state, input, order);
    TablesIgnoreState(s, o.state);
    forall k | k in o.state.bindings
      ensures k != ProcessLoopback && o.state.bindings[k].selection.Endpoint?
    {
      DecideMoves(s.state, input, order, k);
      SelectionStays(s.state, o.state, input, k, EffectsFor(o.effects, k));
    }
    forall i | 0 <= i < |o.effects| ensures Buildable(o.effects[i]) {
      StartIsBuildable(s.state, input, order, i);
    }
    FramesDecide(s, input, order);
  }

  /** The two `unreachable!` arms of `build_stream` are never reached. */
  lemma StartIsBuildable(s: State, input: DecisionInput, order: seq<BindingKind>, i: nat)
    requires WellFormed(s) && EndpointsOnly(s) && Visits(order, s.bindings.Keys)
    requires i < |Decide(s, input, order).effects|
    ensures Buildable(Decide(s, input, order).effects[i])
  {
    hide Decide, Moves;
    var o := Decide(s, input, order);
    var k := o.effects[i].binding;
    EffectMeans(s, input, order, i);
    DecideMoves(s, input, order, k);
    SelectionStays(s, o.state, input, k, EffectsFor(o.effects, k));
  }

  lemma FramesDecide(s: Supervisor, input: DecisionInput, order: seq<BindingKind>)
    requires WellFormed(s.state) && FramesOk(s) && Visits(order, s.state.bindings.Keys)
    ensures FramesOk(s.(state := Decide(s.state, input, order).state))
  {
    hide Decide, Moves;
    var o := Decide(s.state, input, order);
    DecideFrames(s.state, input, order);
    forall i | 0 <= i < |s.forwarded| ensures FrameOk(o.state, s.forwarded[i].0, s.forwarded[i].1) {
      var k := s.forwarded[i].0;
      if k in o.state.bindings && o.state.bindings[k].lifecycle.Holds() {
        DecideMoves(s.state, input, order, k);
        MovesHeld(s.state, o.state, input, k, EffectsFor(o.effects, k));
        assert FrameOk(s.state, k, s.forwarded[i].1);
      }
    }
  }

  lemma DecidePends(s: Supervisor, input: DecisionInput, order: seq<BindingKind>)
    requires ReadyFor(s, input) && Visits(order, s.state.bindings.Keys)
    ensures PendingOk(s.(state := Decide(s.state, input, order).state), Decide(s.state, input, order).effects)
  {
    hide Decide, CoreOk, Agrees;
    var o := Decide(s.state, input, order);
    CoreDecides(s, input, order);
    DecideFrames(s.state, input, order);
    forall k: BindingKind ensures Agrees(s.(state := o.state), k, EffectsFor(o.effects, k)) {
      if k in s.state.bindings {
        BindingDecides(s, input, order, k);
      } else {
        UnknownAgrees(s, o.state, k);
        NoEffectsFor(o.effects, k);
      }
    }
  }

  /** No start in a batch finds a worker still registered for its binding. */
  lemma {:induction false} BatchNeverOverwrites(s: Supervisor, effects: seq<Effect>, i: nat)
    requires PendingOk(s, effects) && i < |effects| && effects[i].StartCapture?
    ensures effects[i].binding !in Execute(s, effects[..i]).workers
    decreases i
  {
    hide CoreOk, ExecuteOne;
    assert effects == [effects[0]] + effects[1..];
    if i == 0 {
      AgreesFirst(s, effects[0], effects[1..]);
    } else {
      ExecuteOneKeeps(s, effects[0], effects[1..]);
      BatchNeverOverwrites(ExecuteOne(s, effects[0]), effects[1..], i - 1);
      assert effects[..i][0] == effects[0] && effects[..i][1..] == effects[1..][..i - 1];
    }
  }

  /** So a start never overwrites a worker: the warning about a dropped handle is never logged. */
  lemma StartNeverOverwrites(s: Supervisor, input: DecisionInput, order: seq<BindingKind>, i: nat)
    requires ReadyFor(s, input) && Visits(order, s.state.bindings.Keys)
    requires var o := Decide(s.state, input, order); i < |o.effects| && o.effects[i].StartCapture?
    ensures var o := Decide(s.state, input, order);
            o.effects[i].binding !in Execute(s.(state := o.state), o.effects[..i]).workers
  {
    hide Decide, PendingOk, Execute, ReadyFor;
    DecidePends(s, input, order);
    BatchNeverOverwrites(s.(state := Decide(s.state, input, order).state), Decide(s.state, input, order).effects, i);
  }

  lemma UnknownAgrees(s: Supervisor, m: State, k: BindingKind)
    requires k !in s.state.bindings && k !in m.bindings && TableOk(s, k)
    ensures Agrees(s.(state := m), k, [])
  {
  }

  lemma DeliverKeeps(s: Supervisor, input: DecisionInput, order: seq<BindingKind>)
    requires ReadyFor(s, input) && Visits(order, s.state.bindings.Keys)
    ensures SupervisorOk(Deliver(s, input, order))
  {
    hide Decide, ReadyFor;
    DecidePends(s, input, order);
    var o := Decide(s.state, input, order);
    ExecuteKeeps(s.(state := o.state), o.effects);
  }

  // ---- A worker that died on its own ------------------------------------------------

  lemma FailKeeps(s: Supervisor, k: BindingKind, error: string, order: seq<BindingKind>)
    requires SupervisorOk(s) && Visits(order, s.state.bindings.Keys)
    ensures SupervisorOk(Fail(s, k, error, order))
  {
    hide Decide, Deliver, CoreOk, ThreadsAccounted, OperationsAccounted, WellFormed, EndpointsOnly, FramesOk;
    hide Reap, TableOk, JoinOk, TimerOk;
    if k in s.workers {
      var op := s.workers[k].operationId;
      var input := Observed(WorkerFailed(k, op, error));
      FailureInDetail(s, k, error, order);
      CoreDecides(s, input, order);
      var o := Decide(s.state, input, order);
      var m := s.(state := o.state, timers := s.timers + RetryOf(o, k));
      assert CoreOk(m) by { TimersDoNotMatter(s.(state := o.state), m); }
      ReapKeepsCore(m, k, op);
      assert Fail(s, k, error, order) == Reap(m, k, op);
      forall j: BindingKind
        ensures TableOk(Reap(m, k, op), j) && JoinOk(Reap(m, k, op), j) && TimerOk(Reap(m, k, op), j)
      {
        FailureSettles(s, m, k, j, op);
      }
    }
  }

  lemma ReapKeepsCore(m: Supervisor, k: BindingKind, op: nat)
    requires CoreOk(m) && k in m.workers && m.workers[k].operationId == op
    ensures CoreOk(Reap(m, k, op))
  {
    hide CoreOk, ThreadsAccounted, OperationsAccounted, WellFormed, EndpointsOnly, FramesOk;
    CoreParts(m);
    HandOver(m, k);
    CoreFrom(m, Reap(m, k, op));
  }

  ghost function RetryOf(o: Outcome, k: BindingKind): multiset<(BindingKind, nat)> {
    if k in o.state.bindings && o.state.bindings[k].lifecycle.Waiting?
       && o.state.bindings[k].lifecycle.reason.RetryableFailure?
    then multiset{(k, o.state.bindings[k].lifecycle.reason.attempt)}
    else multiset{}
  }

  lemma FailureOutcome(s: State, k: BindingKind, op: nat, error: string, order: seq<BindingKind>)
    requires k in s.bindings && s.bindings[k].lifecycle.Live() && s.bindings[k].lifecycle.operationId == op
    ensures var o := Decide(s, Observed(WorkerFailed(k, op, error)), order);
            && k in o.state.bindings
            && !o.state.bindings[k].lifecycle.Holds()
            && o.state == s.(bindings := s.bindings[k := o.state.bindings[k]], nextEffectId := o.state.nextEffectId)
            && (|| (o.effects == [] && RetryOf(o, k) == multiset{})
                || (exists id: nat, n: nat, a: nat ::
                      o.effects == [ScheduleRetry(id, k, n, a)] && RetryOf(o, k) == multiset{(k, n)}))
  {
    var attempt := s.bindings[k].retryAttempt + 1;
    var o := OnWorkerFailed(s, k, op, error);
    if attempt <= MAX_RETRY_ATTEMPTS {
      assert o.effects == [ScheduleRetry(s.nextEffectId, k, attempt, attempt)];
    }
  }

  lemma RetryExecutes(s: Supervisor, id: nat, k: BindingKind, n: nat, a: nat)
    ensures Execute(s, [ScheduleRetry(id, k, n, a)]) == s.(timers := s.timers + multiset{(k, n)})
  {
    var es := [ScheduleRetry(id, k, n, a)];
    assert es[1..] == [];
    assert Execute(s, es) == Execute(ExecuteOne(s, es[0]), []);
  }

  lemma FailureInDetail(s: Supervisor, k: BindingKind, error: string, order: seq<BindingKind>)
    requires SupervisorOk(s) && k in s.workers
    ensures var op := s.workers[k].operationId;
            var o := Decide(s.state, Observed(WorkerFailed(k, op, error)), order);
            && Deliver(s, Observed(WorkerFailed(k, op, error)), order)
                 == s.(state := o.state, timers := s.timers + RetryOf(o, k))
            && k in o.state.bindings && k in s.state.bindings
            && !o.state.bindings[k].lifecycle.Holds()
            && o.state == s.state.(bindings := s.state.bindings[k := o.state.bindings[k]],
                                   nextEffectId := o.state.nextEffectId)
  {
    hide Decide, CoreOk, RetryOf;
    assert TableOk(s, k);
    var op := s.workers[k].operationId;
    var o := Decide(s.state, Observed(WorkerFailed(k, op, error)), order);
    FailureOutcome(s.state, k, op, error, order);
    var m := s.(state := o.state);
    if o.effects != [] {
      var id: nat, n: nat, a: nat :| o.effects == [ScheduleRetry(id, k, n, a)] && RetryOf(o, k) == multiset{(k, n)};
      RetryExecutes(m, id, k, n, a);
    }
  }

  lemma TimersDoNotMatter(s: Supervisor, m: Supervisor)
    requires CoreOk(s) && m == s.(timers := m.timers)
    ensures CoreOk(m)
  {
  }

  lemma CoreFrom(m: Supervisor, s': Supervisor)
    requires CoreOk(m) && ThreadsAccounted(s') && OperationsAccounted(s')
    requires s'.state == m.state && s'.forwarded == m.forwarded
    ensures CoreOk(s')
  {
  }

  /** `m` is `s` after the failure of `k` was decided and its retry scheduled. */
  ghost predicate FailedInto(s: Supervisor, m: Supervisor, k: BindingKind, op: nat) {
    && k in s.workers && s.workers[k].operationId == op && k in m.state.bindings && k in s.state.bindings
    && m == s.(state := m.state, timers := m.timers)
    && m.state == s.state.(bindings := s.state.bindings[k := m.state.bindings[k]], nextEffectId := m.state.nextEffectId)
    && !m.state.bindings[k].lifecycle.Holds() && s.timers <= m.timers
    && (m.state.bindings[k].lifecycle.Waiting? && m.state.bindings[k].lifecycle.reason.RetryableFailure? ==>
          (k, m.state.bindings[k].lifecycle.reason.attempt) in m.timers)
  }

  lemma FailureSettles(s: Supervisor, m: Supervisor, k: BindingKind, j: BindingKind, op: nat)
    requires SupervisorOk(s) && FailedInto(s, m, k, op)
    ensures TableOk(Reap(m, k, op), j) && JoinOk(Reap(m, k, op), j) && TimerOk(Reap(m, k, op), j)
  {
    CoreParts(s);
    assert TableOk(s, j) && JoinOk(s, j) && TimerOk(s, j);
    hide SupervisorOk, ThreadsAccounted, TableOk, JoinOk, TimerOk, FailedInto, Reap;
    FailureTable(s, m, k, j, op);
    FailureJoin(s, m, k, j, op);
    FailureTimer(s, m, k, j, op);
  }

  lemma FailureTable(s: Supervisor, m: Supervisor, k: BindingKind, j: BindingKind, op: nat)
    requires TableOk(s, j) && FailedInto(s, m, k, op)
    ensures TableOk(Reap(m, k, op), j)
  {
  }

  lemma FailureTimer(s: Supervisor, m: Supervisor, k: BindingKind, j: BindingKind, op: nat)
    requires TimerOk(s, j) && FailedInto(s, m, k, op)
    ensures TimerOk(Reap(m, k, op), j)
  {
  }

  lemma FailureJoin(s: Supervisor, m: Supervisor, k: BindingKind, j: BindingKind, op: nat)
    requires ThreadsAccounted(s) && JoinOk(s, j) && FailedInto(s, m, k, op)
    ensures JoinOk(Reap(m, k, op), j)
  {
    ThreadsIgnoreState(s, m);
    ReapKeepsJoiners(m, k, op);
    hide ThreadsAccounted;
    var s' := Reap(m, k, op);
    if j in s'.state.bindings && s'.state.bindings[j].lifecycle.Stopping? {
      var joiner := Joiner(j, s'.state.bindings[j].lifecycle.operationId, s'.state.bindings[j].lifecycle.epoch);
      var t :| t in s.joiners && s.joiners[t] == joiner;
      assert t in s'.joiners && s'.joiners[t] == joiner;
    }
  }

  lemma ThreadsIgnoreState(s: Supervisor, m: Supervisor)
    requires ThreadsAccounted(s) && m == s.(state := m.state, timers := m.timers)
    ensures ThreadsAccounted(m)
  {
    assert forall t: nat :: OwnsThread(m, t) == OwnsThread(s, t);
    hide OwnsThread;
  }

  lemma ReapKeepsJoiners(m: Supervisor, k: BindingKind, op: nat)
    requires ThreadsAccounted(m)
    ensures forall t :: t in m.joiners ==> t in Reap(m, k, op).joiners && Reap(m, k, op).joiners[t] == m.joiners[t]
  {
  }

  // ---- Every event ------------------------------------------------------------------

  lemma SettledIsReady(s: Supervisor, input: DecisionInput)
    requires SupervisorOk(s)
    requires !(input.Observed? && (input.observation.WorkerFailed? || input.observation.WorkerStarted?))
    ensures ReadyFor(s, input)
  {
    hide CoreOk, TableOk, JoinOk, TimerOk;
  }

  /** Reporting a join takes one joiner away; only the binding it reports on can miss it. */
  lemma JoinIsReady(s: Supervisor, thread: nat)
    requires SupervisorOk(s) && thread in s.joiners
    ensures var j := s.joiners[thread];
            ReadyFor(JoinReported(s, thread), Observed(WorkerStopped(j.binding, j.operationId, j.epoch)))
  {
    hide WellFormed, EndpointsOnly, FramesOk;
    var j := s.joiners[thread];
    var m := JoinReported(s, thread);
    var input := Observed(WorkerStopped(j.binding, j.operationId, j.epoch));
    assert CoreOk(m) by { JoinKeepsCore(s, thread); }
    forall k: BindingKind
      ensures TableOk(m, k) && TimerOk(m, k)
      ensures JoinOk(m, k) || (k in m.state.bindings && IsMatchingStop(input, k, m.state.bindings[k].lifecycle))
    {
      assert TableOk(s, k) && TimerOk(s, k) && JoinOk(s, k);
      if k in s.state.bindings && s.state.bindings[k].lifecycle.Stopping? {
        var lc := s.state.bindings[k].lifecycle;
        var t :| t in s.joiners && s.joiners[t] == Joiner(k, lc.operationId, lc.epoch);
        assert t == thread || (t in m.joiners && m.joiners[t] == Joiner(k, lc.operationId, lc.epoch));
      }
    }
  }

  lemma JoinKeepsThreads(s: Supervisor, thread: nat)
    requires ThreadsAccounted(s) && thread in s.joiners
    ensures ThreadsAccounted(JoinReported(s, thread))
  {
    var m := JoinReported(s, thread);
    assert m.joiners.Keys == s.joiners.Keys - {thread};
    assert |m.joiners.Keys| == |m.joiners| && |s.joiners.Keys| == |s.joiners|;
    forall t: nat | t < m.nextThread ensures t in m.joiners || t in m.joined || OwnsThread(m, t) {
      if t != thread && t !in s.joiners && t !in s.joined {
        assert OwnsThread(s, t);
        var k :| k in s.workers && s.workers[k].thread == t;
        assert k in m.workers && m.workers[k].thread == t;
      }
    }
  }

  lemma JoinKeepsOperations(s: Supervisor, thread: nat)
    requires OperationsAccounted(s)
    ensures OperationsAccounted(JoinReported(s, thread))
  {
  }

  lemma JoinKeepsCore(s: Supervisor, thread: nat)
    requires CoreOk(s) && thread in s.joiners
    ensures CoreOk(JoinReported(s, thread))
  {
    hide WellFormed, EndpointsOnly, FramesOk, ThreadsAccounted, OperationsAccounted;
    FramesDependOnState(s, JoinReported(s, thread));
    JoinKeepsThreads(s, thread);
    JoinKeepsOperations(s, thread);
  }

  lemma TimerIsReady(s: Supervisor, binding: BindingKind, retryId: nat)
    requires SupervisorOk(s)
    ensures ReadyFor(s.(timers := s.timers - multiset{(binding, retryId)}), RetryTimerFired(binding, retryId))
  {
    hide WellFormed, EndpointsOnly, FramesOk, ThreadsAccounted, OperationsAccounted;
    var m := s.(timers := s.timers - multiset{(binding, retryId)});
    assert CoreOk(m) by { TimersDoNotMatter(s, m); }
    forall k: BindingKind
      ensures TableOk(m, k) && JoinOk(m, k)
      ensures TimerOk(m, k)
              || (k in m.state.bindings
                  && RetryTimerFired(binding, retryId) == RetryTimerFired(k, m.state.bindings[k].retryAttempt))
    {
      assert TableOk(s, k) && JoinOk(s, k) && TimerOk(s, k);
      if k in s.state.bindings { OkOf(s.state, k); }
    }
  }

  lemma FrameKeeps(s: Supervisor, stream: BindingKind, epoch: nat)
    requires SupervisorOk(s) && s.state.AcceptsEpoch(stream, epoch)
    ensures SupervisorOk(s.(forwarded := s.forwarded + [(stream, epoch)]))
  {
    hide WellFormed, EndpointsOnly, ThreadsAccounted, OperationsAccounted;
    var m := s.(forwarded := s.forwarded + [(stream, epoch)]);
    OkOf(s.state, stream);
    assert FramesOk(m) by {
      forall i | 0 <= i < |s.forwarded| && s.forwarded[i].0 == stream ensures s.forwarded[i].1 <= epoch {
        assert FrameOk(s.state, s.forwarded[i].0, s.forwarded[i].1);
      }
    }
    assert CoreOk(m) by { CoreIgnoresFrames(s, m); }
    forall k: BindingKind ensures TableOk(m, k) && JoinOk(m, k) && TimerOk(m, k) {
      assert TableOk(s, k) && JoinOk(s, k) && TimerOk(s, k);
    }
  }

  lemma CoreIgnoresFrames(s: Supervisor, m: Supervisor)
    requires CoreOk(s) && FramesOk(m) && m == s.(forwarded := m.forwarded)
    ensures CoreOk(m)
  {
  }

  /** Every event keeps table, joiners, timers, threads and state in agreement. */
  lemma StepKeeps(s: Supervisor, event: Event, order: seq<BindingKind>)
    requires SupervisorOk(s) && Enabled(s, event) && Visits(order, s.state.bindings.Keys)
    ensures SupervisorOk(Step(s, event, order))
  {
    hide SupervisorOk, ReadyFor, Deliver, Fail;
    match event
    case Frame(stream, epoch) =>
      if s.state.AcceptsEpoch(stream, epoch) { FrameKeeps(s, stream, epoch); }
    case StreamStarted(stream) =>
      if stream in s.workers {
        var w := s.workers[stream];
        StartReportIsReady(s, stream);
        DeliverKeeps(s, Observed(WorkerStarted(stream, w.operationId, w.epoch, w.target)), order);
      }
    case StreamError(stream, error) => FailKeeps(s, stream, error, order);
    case StreamStalled(_) =>
    case StreamStopped(stream, deviceLost) =>
      if deviceLost { FailKeeps(s, stream, "worker stopped unexpectedly (exit=DeviceLost)", order); }
    case SessionDisconnected(stream, reason) =>
      FailKeeps(s, stream, "audio session disconnected (reason=" + reason + ")", order);
    case DeviceChange(obs) => SettledIsReady(s, Observed(obs)); DeliverKeeps(s, Observed(obs), order);
    case JoinDone(thread) =>
      var j := s.joiners[thread];
      JoinIsReady(s, thread);
      DeliverKeeps(JoinReported(s, thread), Observed(WorkerStopped(j.binding, j.operationId, j.epoch)), order);
    case RetryDue(binding, retryId) =>
      TimerIsReady(s, binding, retryId);
      DeliverKeeps(s.(timers := s.timers - multiset{(binding, retryId)}), RetryTimerFired(binding, retryId), order);
    case StartRequest(binding) => SettledIsReady(s, UserStart(binding)); DeliverKeeps(s, UserStart(binding), order);
    case ShutdownSignal => SettledIsReady(s, ShutdownRequested); DeliverKeeps(s, ShutdownRequested, order);
  }

  lemma StartReportIsReady(s: Supervisor, stream: BindingKind)
    requires SupervisorOk(s) && stream in s.workers
    ensures var w := s.workers[stream];
            ReadyFor(s, Observed(WorkerStarted(stream, w.operationId, w.epoch, w.target)))
  {
    hide CoreOk, TableOk, JoinOk, TimerOk;
  }

  // ---- Runs -------------------------------------------------------------------------

  datatype Delivery = Delivery(event: Event, order: seq<BindingKind>)

  /** `trace` is a run: each state follows from the one before by one enabled event. */
  ghost predicate IsRun(trace: seq<Supervisor>, deliveries: seq<Delivery>) {
    && |trace| == |deliveries| + 1
    && forall i :: 0 <= i < |deliveries| ==> IsStep(trace[i], deliveries[i], trace[i + 1])
  }

  ghost predicate IsStep(s: Supervisor, d: Delivery, s': Supervisor) {
    && Visits(d.order, s.state.bindings.Keys)
    && Enabled(s, d.event)
    && s' == Step(s, d.event, d.order)
  }

  /** What `pin_devices` leaves behind on a new supervisor. */
  ghost predicate JustPinned(s: Supervisor) {
    && RebindingHistory.Fresh(s.state)
    && EndpointsOnly(s.state)
    && s.workers == map[] && s.joiners == map[] && s.timers == multiset{}
    && s.joined == {} && s.pendingJoins == 0 && s.nextThread == 0 && s.forwarded == []
  }

  lemma {:induction false} RunsStayOk(trace: seq<Supervisor>, deliveries: seq<Delivery>, n: nat)
    requires IsRun(trace, deliveries) && JustPinned(trace[0]) && n <= |deliveries|
    ensures SupervisorOk(trace[n])
  {
    hide SupervisorOk, Step, JustPinned;
    if n > 0 {
      RunsStayOk(trace, deliveries, n - 1);
      assert IsStep(trace[n - 1], deliveries[n - 1], trace[n]);
      StepKeeps(trace[n - 1], deliveries[n - 1].event, deliveries[n - 1].order);
    } else {
      PinnedIsOk(trace[0]);
    }
  }

  lemma PinnedIsOk(s: Supervisor)
    requires JustPinned(s)
    ensures SupervisorOk(s)
  {
  }

  /** In every reachable state the worker table and the state machine agree, in both directions. */
  lemma TableAgrees(trace: seq<Supervisor>, deliveries: seq<Delivery>, n: nat, k: BindingKind)
    requires IsRun(trace, deliveries) && JustPinned(trace[0]) && n <= |deliveries|
    ensures var s := trace[n];
            && (k in s.workers <==> k in s.state.bindings && s.state.bindings[k].lifecycle.Live())
            && (k in s.workers ==>
                  && s.workers[k].operationId == s.state.bindings[k].lifecycle.operationId
                  && s.workers[k].epoch == s.state.bindings[k].lifecycle.epoch
                  && s.workers[k].target == s.state.bindings[k].lifecycle.target)
  {
    RunsStayOk(trace, deliveries, n);
    assert TableOk(trace[n], k);
  }

  ghost function Count(b: bool): nat { if b then 1 else 0 }

  /** Every spawned thread is in exactly one place, so no handle is ever overwritten or dropped,
      and `pending_joins` counts the outstanding joiners. */
  lemma NoThreadIsLost(trace: seq<Supervisor>, deliveries: seq<Delivery>, n: nat, thread: nat)
    requires IsRun(trace, deliveries) && JustPinned(trace[0]) && n <= |deliveries|
    ensures var s := trace[n];
            && (thread < s.nextThread <==>
                  Count(OwnsThread(s, thread)) + Count(thread in s.joiners) + Count(thread in s.joined) == 1)
            && Count(OwnsThread(s, thread)) + Count(thread in s.joiners) + Count(thread in s.joined) <= 1
            && s.pendingJoins == |s.joiners|
  {
    RunsStayOk(trace, deliveries, n);
    CoreParts(trace[n]);
  }

  /** A stopping binding has exactly one outstanding joiner, and it carries the binding's ids. */
  lemma StoppingHasOneJoiner(s: Supervisor, k: BindingKind) returns (thread: nat)
    requires SupervisorOk(s) && k in s.state.bindings && s.state.bindings[k].lifecycle.Stopping?
    ensures var lc := s.state.bindings[k].lifecycle;
            && thread in s.joiners && s.joiners[thread] == Joiner(k, lc.operationId, lc.epoch)
            && forall t :: t in s.joiners && s.joiners[t].operationId == lc.operationId ==> t == thread
  {
    assert JoinOk(s, k);
    var lc := s.state.bindings[k].lifecycle;
    thread :| thread in s.joiners && s.joiners[thread] == Joiner(k, lc.operationId, lc.epoch);
  }

  /** A binding that is on its way somewhere: not resting, not parked for a device, not failed. */
  ghost predicate InTransit(s: Supervisor, k: BindingKind) {
    && k in s.state.bindings
    && var lc := s.state.bindings[k].lifecycle;
       lc.Holds() || (lc.Waiting? && lc.reason.RetryableFailure?)
  }

  /** Before shutdown no binding is stranded: some event that is enabled now moves it on. */
  lemma NothingIsStranded(s: Supervisor, k: BindingKind, order: seq<BindingKind>) returns (event: Event)
    requires SupervisorOk(s) && !s.state.shutdown && InTransit(s, k)
    ensures Enabled(s, event)
    ensures k in Step(s, event, order).state.bindings
    ensures Step(s, event, order).state.bindings[k].lifecycle != s.state.bindings[k].lifecycle
  {
    hide CoreOk, Execute, Decide;
    assert TableOk(s, k) && JoinOk(s, k) && TimerOk(s, k);
    assert BindingOk(s.state, k) by { CoreParts(s); OkOf(s.state, k); }
    var lc := s.state.bindings[k].lifecycle;
    match lc
    case Starting(op, epoch, target) =>
      event := StreamStarted(k);
      DeliverDecides(s, Observed(WorkerStarted(k, op, epoch, target)), order);
      LiveMoves(s.state, k, order);
    case Running(op, _, _) =>
      event := StreamError(k, "");
      DeliverDecides(s, Observed(WorkerFailed(k, op, "")), order);
      LiveMoves(s.state, k, order);
    case Stopping(op, epoch, _) =>
      var thread := StoppingHasOneJoiner(s, k);
      event := JoinDone(thread);
      DeliverDecides(JoinReported(s, thread), Observed(WorkerStopped(k, op, epoch)), order);
      MatchingStopMoves(s.state, Observed(WorkerStopped(k, op, epoch)), order, k);
    case Waiting(reason) =>
      event := RetryDue(k, reason.attempt);
      DeliverDecides(s.(timers := s.timers - multiset{(k, reason.attempt)}), RetryTimerFired(k, reason.attempt), order);
      FiredTimerMoves(s.state, order, k);
  }

  lemma LiveMoves(s: State, k: BindingKind, order: seq<BindingKind>)
    requires k in s.bindings && s.bindings[k].lifecycle.Live()
    ensures var lc := s.bindings[k].lifecycle;
            var up := Decide(s, Observed(WorkerStarted(k, lc.operationId, lc.epoch, lc.target)), order).state;
            var down := Decide(s, Observed(WorkerFailed(k, lc.operationId, "")), order).state;
            && k in up.bindings && k in down.bindings
            && (lc.Starting? ==> up.bindings[k].lifecycle.Running?)
            && !down.bindings[k].lifecycle.Live()
  {
  }

  lemma {:induction false} ExecuteKeepsState(s: Supervisor, effects: seq<Effect>)
    ensures Execute(s, effects).state == s.state
    decreases |effects|
  {
    if effects != [] {
      ExecuteKeepsState(ExecuteOne(s, effects[0]), effects[1..]);
    }
  }

  lemma DeliverDecides(s: Supervisor, input: DecisionInput, order: seq<BindingKind>)
    ensures Deliver(s, input, order).state == Decide(s.state, input, order).state
  {
    hide Decide;
    var o := Decide(s.state, input, order);
    ExecuteKeepsState(s.(state := o.state), o.effects);
  }

  /** Frames passed on for one binding never go back to an earlier generation. */
  lemma FramesFollowGenerations(trace: seq<Supervisor>, deliveries: seq<Delivery>, n: nat)
    requires IsRun(trace, deliveries) && JustPinned(trace[0]) && n <= |deliveries|
    ensures forall i, j :: 0 <= i < j < |trace[n].forwarded| && trace[n].forwarded[i].0 == trace[n].forwarded[j].0 ==>
              trace[n].forwarded[i].1 <= trace[n].forwarded[j].1
  {
    RunsStayOk(trace, deliveries, n);
    CoreParts(trace[n]);
  }

  // ---- Shutdown ---------------------------------------------------------------------

  /** One reported join while draining: one joiner fewer, and nothing new is started. */
  lemma DrainStep(s: Supervisor, thread: nat, order: seq<BindingKind>)
    requires SupervisorOk(s) && s.state.shutdown && thread in s.joiners && Visits(order, s.state.bindings.Keys)
    ensures var s' := Step(s, JoinDone(thread), order);
            && SupervisorOk(s') && s'.state.shutdown && s'.pendingJoins == s.pendingJoins - 1
            && s'.workers == s.workers
            && s'.state.bindings.Keys == s.state.bindings.Keys
            && forall k :: k in s.state.bindings ==>
                 var lc, lc' := s.state.bindings[k].lifecycle, s'.state.bindings[k].lifecycle;
                 lc' == lc || (lc.Stopping? && (lc.next.RemainStopped? ==> lc'.Stopped?))
  {
    hide CoreOk, Decide, OnWorkerStopped;
    StepKeeps(s, JoinDone(thread), order);
    CoreParts(s);
    hide SupervisorOk;
    assert |s.joiners| > 0 by { assert thread in s.joiners.Keys; }
    hide ThreadsAccounted, OperationsAccounted, WellFormed, EndpointsOnly, FramesOk;
    var j := s.joiners[thread];
    var m := JoinReported(s, thread);
    var o := OnWorkerStopped(m.state, j.binding, j.operationId, j.epoch);
    StopReportIsDecision(m.state, j.binding, j.operationId, j.epoch, order);
    StoppedAtShutdown(m.state, j.binding, j.operationId, j.epoch);
    assert Step(s, JoinDone(thread), order) == m.(state := o.state);
  }

  lemma StopReportIsDecision(s: State, k: BindingKind, op: nat, epoch: nat, order: seq<BindingKind>)
    ensures Decide(s, Observed(WorkerStopped(k, op, epoch)), order) == OnWorkerStopped(s, k, op, epoch)
  {
  }

  /** After shutdown a stop report starts nothing: its binding comes to rest. */
  lemma StoppedAtShutdown(s: State, k: BindingKind, op: nat, epoch: nat)
    requires s.shutdown
    ensures var o := OnWorkerStopped(s, k, op, epoch);
            && o.effects == [] && o.state.shutdown && o.state.bindings.Keys == s.bindings.Keys
            && forall j :: j in s.bindings ==>
                 var lc, lc' := s.bindings[j].lifecycle, o.state.bindings[j].lifecycle;
                 lc' == lc || (lc.Stopping? && (lc.next.RemainStopped? ==> lc'.Stopped?))
  {
  }

  /** `trace` drains: every step reports one outstanding join. */
  ghost predicate IsDrain(trace: seq<Supervisor>, deliveries: seq<Delivery>) {
    IsRun(trace, deliveries) && forall i :: 0 <= i < |deliveries| ==> deliveries[i].event.JoinDone?
  }

  ghost predicate StopsForGood(lc: Lifecycle) {
    lc.Stopping? && lc.next.RemainStopped?
  }

  lemma {:induction false} DrainProgress(trace: seq<Supervisor>, deliveries: seq<Delivery>, n: nat)
    requires IsDrain(trace, deliveries) && SupervisorOk(trace[0]) && trace[0].state.shutdown && n <= |deliveries|
    ensures SupervisorOk(trace[n]) && trace[n].state.shutdown
    ensures trace[n].pendingJoins == trace[0].pendingJoins - n
    ensures trace[n].state.bindings.Keys == trace[0].state.bindings.Keys
    ensures forall k :: k in trace[0].state.bindings && StopsForGood(trace[0].state.bindings[k].lifecycle) ==>
              || trace[n].state.bindings[k].lifecycle.Stopped?
              || trace[n].state.bindings[k].lifecycle == trace[0].state.bindings[k].lifecycle
  {
    hide SupervisorOk, Step;
    if n > 0 {
      DrainProgress(trace, deliveries, n - 1);
      var d := deliveries[n - 1];
      assert IsStep(trace[n - 1], d, trace[n]);
      DrainStep(trace[n - 1], d.event.thread, d.order);
    }
  }

  /** Without an outstanding joiner nothing is stopping. */
  lemma NothingStopping(s: Supervisor)
    requires SupervisorOk(s) && s.pendingJoins == 0
    ensures forall k :: k in s.state.bindings ==> !s.state.bindings[k].lifecycle.Stopping?
  {
    CoreParts(s);
    hide CoreOk, TableOk, TimerOk;
    assert s.joiners == map[] by { assert |s.joiners| == 0; }
    forall k | k in s.state.bindings ensures !s.state.bindings[k].lifecycle.Stopping? {
      assert JoinOk(s, k);
    }
  }

  /** Shutdown, then draining: at most `pending_joins` reports are waited for; once they are in,
      nothing is stopping any more and whatever ran at shutdown is stopped. */
  lemma DrainingStopsWhatRan(s: Supervisor, order: seq<BindingKind>, trace: seq<Supervisor>, deliveries: seq<Delivery>)
    requires SupervisorOk(s) && Visits(order, s.state.bindings.Keys)
    requires IsDrain(trace, deliveries) && trace[0] == Step(s, ShutdownSignal, order)
    ensures |deliveries| <= trace[0].pendingJoins
    ensures trace[|deliveries|].pendingJoins == trace[0].pendingJoins - |deliveries|
    ensures |deliveries| == trace[0].pendingJoins ==>
              forall k :: k in s.state.bindings ==>
                && k in trace[|deliveries|].state.bindings
                && !trace[|deliveries|].state.bindings[k].lifecycle.Stopping?
                && (s.state.bindings[k].lifecycle.Running? ==> trace[|deliveries|].state.bindings[k].lifecycle.Stopped?)
  {
    hide CoreOk, Decide;
    StepKeeps(s, ShutdownSignal, order);
    DeliverDecides(s, ShutdownRequested, order);
    DecideFrames(s.state, ShutdownRequested, order);
    var last := trace[|deliveries|];
    IterationOrder.ShutdownRaisesFlag(s.state, order);
    DrainProgress(trace, deliveries, |deliveries|);
    hide SupervisorOk;
    if |deliveries| == trace[0].pendingJoins {
      NothingStopping(last);
      forall k | k in s.state.bindings
        ensures !last.state.bindings[k].lifecycle.Stopping?
        ensures s.state.bindings[k].lifecycle.Running? ==> last.state.bindings[k].lifecycle.Stopped?
      {
        if s.state.bindings[k].lifecycle.Running? {
          IterationOrder.ShutdownStopsRunning(s.state, order, k);
        }
      }
    }
  }

}
