/**
  One decision seen from one binding.

  `Moves` is the complete table of what a single call of `Decide` can do to one binding and
  which effects it can emit for it; `DecideMoves` proves the table for every input and every
  visiting order. The history theorems and both supervisors use only this table.
*/
module RebindingMoves {
  import opened Prelude
  import opened Rebinding

  ghost function EffectsFor(effects: seq<Effect>, kind: BindingKind): seq<Effect> {
    if effects == [] then []
    else if effects[0].binding == kind then [effects[0]] + EffectsFor(effects[1..], kind)
    else EffectsFor(effects[1..], kind)
  }

  lemma {:induction false} EffectsForConcat(a: seq<Effect>, b: seq<Effect>, kind: BindingKind)
    ensures EffectsFor(a + b, kind) == EffectsFor(a, kind) + EffectsFor(b, kind)
  {
    if a == [] {
      assert a + b == b;
    } else {
      assert (a + b)[1..] == a[1..] + b;
      EffectsForConcat(a[1..], b, kind);
    }
  }

  ghost predicate BindingOk(s: State, kind: BindingKind)
    requires kind in s.bindings
  {
    var b := s.bindings[kind];
    && b.kind == kind
    && !b.lifecycle.Resolving?
    && (b.lifecycle.Holds() ==>
          b.lifecycle.operationId < s.nextOperationId && b.lifecycle.epoch < s.nextStreamEpoch)
    && b.retryAttempt <= MAX_RETRY_ATTEMPTS + 1
    && (b.lifecycle.Failed? <==> b.retryAttempt > MAX_RETRY_ATTEMPTS)
    && (b.lifecycle.Waiting? && b.lifecycle.reason.RetryableFailure? ==>
          b.lifecycle.reason.attempt == b.retryAttempt)
    && (b.lifecycle.Stopping? && b.lifecycle.next.WaitForRecovery? ==>
          !b.lifecycle.next.why.RetryableFailure?)
  }

  ghost predicate Unshared(s: State, j: BindingKind, k: BindingKind)
    requires j in s.bindings && k in s.bindings
  {
    s.bindings[j].lifecycle.Holds() && s.bindings[k].lifecycle.Holds() ==>
      s.bindings[j].lifecycle.operationId != s.bindings[k].lifecycle.operationId &&
      s.bindings[j].lifecycle.epoch != s.bindings[k].lifecycle.epoch
  }

  /** What every reachable decision state satisfies. */
  ghost predicate WellFormed(s: State) {
    && (forall k :: k in s.bindings ==> BindingOk(s, k))
    && (forall j, k :: j in s.bindings && k in s.bindings && j != k ==> Unshared(s, j, k))
  }

  // ---- The table --------------------------------------------------------------------

  ghost predicate Stays(b: CaptureBinding, b': CaptureBinding, es: seq<Effect>) {
    b'.lifecycle == b.lifecycle && b'.retryAttempt == b.retryAttempt && es == []
  }

  /** Nothing is left running and a capture is started under fresh ids. */
  ghost predicate Begins(s: State, s': State, b: CaptureBinding, b': CaptureBinding, es: seq<Effect>) {
    && !s.shutdown
    && (b.lifecycle.Stopped? || b.lifecycle.Waiting? || (b.lifecycle.Stopping? && b.lifecycle.next.ResolveAndStart?))
    && b'.lifecycle.Starting?
    && b'.retryAttempt == b.retryAttempt
    && |es| == 1 && es[0].StartCapture?
    && es[0].operationId == b'.lifecycle.operationId
    && es[0].epoch == b'.lifecycle.epoch
    && es[0].target == b'.lifecycle.target
    && s.nextOperationId <= es[0].operationId < s'.nextOperationId
    && s.nextStreamEpoch <= es[0].epoch < s'.nextStreamEpoch
    && ResolveTarget(b'.selection, s'.defaultRoutes) == Some(es[0].target)
  }

  ghost predicate Halts(b: CaptureBinding, b': CaptureBinding, es: seq<Effect>) {
    && b.lifecycle.Running? && b'.lifecycle.Stopping?
    && b'.lifecycle.operationId == b.lifecycle.operationId
    && b'.lifecycle.epoch == b.lifecycle.epoch
    && b'.retryAttempt == b.retryAttempt
    && (b'.lifecycle.next.WaitForRecovery? ==> !b'.lifecycle.next.why.RetryableFailure?)
    && |es| == 1 && es[0].StopCapture?
    && es[0].operationId == b.lifecycle.operationId
    && es[0].epoch == b.lifecycle.epoch
  }

  ghost predicate ComesUp(input: DecisionInput, kind: BindingKind, b: CaptureBinding, b': CaptureBinding,
                          es: seq<Effect>) {
    && b.lifecycle.Starting? && es == [] && b'.retryAttempt == 0
    && input.Observed? && input.observation.WorkerStarted?
    && b'.lifecycle == Running(b.lifecycle.operationId, b.lifecycle.epoch, input.observation.target)
    && input.observation.binding == kind
    && input.observation.operationId == b.lifecycle.operationId
    && input.observation.epoch == b.lifecycle.epoch
  }

  ghost predicate IsMatchingStop(input: DecisionInput, kind: BindingKind, lifecycle: Lifecycle) {
    lifecycle.Stopping? && input == Observed(WorkerStopped(kind, lifecycle.operationId, lifecycle.epoch))
  }

  /** A stop completes without a new start. */
  ghost predicate Rests(input: DecisionInput, kind: BindingKind, b: CaptureBinding, b': CaptureBinding,
                        es: seq<Effect>) {
    && IsMatchingStop(input, kind, b.lifecycle)
    && es == [] && b'.retryAttempt == b.retryAttempt
    && (b'.lifecycle.Stopped? || (b'.lifecycle.Waiting? && !b'.lifecycle.reason.RetryableFailure?))
    && (b.lifecycle.next.RemainStopped? ==> b'.lifecycle.Stopped?)
  }

  ghost predicate IsFailure(input: DecisionInput, kind: BindingKind, lifecycle: Lifecycle) {
    && lifecycle.Live()
    && input.Observed? && input.observation.WorkerFailed?
    && input.observation.binding == kind
    && input.observation.operationId == lifecycle.operationId
  }

  ghost predicate Retries(input: DecisionInput, kind: BindingKind, b: CaptureBinding, b': CaptureBinding,
                          es: seq<Effect>) {
    && IsFailure(input, kind, b.lifecycle)
    && b'.retryAttempt == b.retryAttempt + 1 <= MAX_RETRY_ATTEMPTS
    && b'.lifecycle == Waiting(RetryableFailure(b'.retryAttempt))
    && |es| == 1 && es[0].ScheduleRetry? && es[0].retryId == b'.retryAttempt
  }

  ghost predicate GivesUp(input: DecisionInput, kind: BindingKind, b: CaptureBinding, b': CaptureBinding,
                          es: seq<Effect>) {
    && IsFailure(input, kind, b.lifecycle)
    && b'.retryAttempt == b.retryAttempt + 1 > MAX_RETRY_ATTEMPTS
    && b'.lifecycle.Failed? && es == []
  }

  /** A start that found no target. */
  ghost predicate Parks(s: State, b: CaptureBinding, b': CaptureBinding, es: seq<Effect>) {
    && !s.shutdown
    && (b.lifecycle.Stopped? || b.lifecycle.Waiting?)
    && b'.lifecycle == Waiting(DeviceUnavailable) && b'.retryAttempt == b.retryAttempt && es == []
  }

  ghost predicate Moves(s: State, s': State, input: DecisionInput, kind: BindingKind, es: seq<Effect>)
    requires kind in s.bindings && kind in s'.bindings
  {
    var b, b' := s.bindings[kind], s'.bindings[kind];
    && b'.kind == b.kind
    && (kind != ProcessLoopback ==> b'.selection == b.selection)
    && (forall i :: 0 <= i < |es| ==> es[i].binding == kind)
    && (b.lifecycle.Stopping? && b'.lifecycle != b.lifecycle ==> IsMatchingStop(input, kind, b.lifecycle))
    && (|| Stays(b, b', es)
        || Begins(s, s', b, b', es)
        || Halts(b, b', es)
        || ComesUp(input, kind, b, b', es)
        || Rests(input, kind, b, b', es)
        || Retries(input, kind, b, b', es)
        || GivesUp(input, kind, b, b', es)
        || Parks(s, b, b', es))
  }

  /** The `StartCapture` effects carry strictly ascending ids taken from [lo, hi). */
  ghost predicate StartsAscend(es: seq<Effect>, s: State, s': State) {
    && (forall i :: 0 <= i < |es| && es[i].StartCapture? ==>
          s.nextOperationId <= es[i].operationId < s'.nextOperationId &&
          s.nextStreamEpoch <= es[i].epoch < s'.nextStreamEpoch)
    && (forall i, j :: 0 <= i < j < |es| && es[i].StartCapture? && es[j].StartCapture? ==>
          es[i].operationId < es[j].operationId && es[i].epoch < es[j].epoch)
  }

  /** What a decision leaves alone, whatever the binding. */
  ghost predicate Frames(s: State, s': State, es: seq<Effect>) {
    && s'.bindings.Keys == s.bindings.Keys
    && s.nextOperationId <= s'.nextOperationId
    && s.nextStreamEpoch <= s'.nextStreamEpoch
    && (s.shutdown ==> s'.shutdown)
    && StartsAscend(es, s, s')
    && (forall i :: 0 <= i < |es| ==> es[i].binding in s.bindings)
  }

  // ---- Proof of the table -----------------------------------------------------------

  ghost predicate Usual(reaction: Reaction) {
    reaction.StopThen? && reaction.next.WaitForRecovery? ==> !reaction.next.why.RetryableFailure?
  }

  lemma ReactMoves(s: State, reaction: Reaction, kind: BindingKind, input: DecisionInput)
    requires kind in s.bindings && Usual(reaction)
    ensures var o := React(s, reaction, kind);
            && Frames(s, o.state, o.effects)
            && o.state.shutdown == s.shutdown
            && o.state.defaultRoutes == s.defaultRoutes
            && Moves(s, o.state, input, kind, o.effects)
            && (forall j :: j in s.bindings && j != kind ==> o.state.bindings[j] == s.bindings[j])
  {
    hide StartBinding, StopBinding, Moves, Frames;
    NothingMoves(s, kind, input);
    StartMoves(s, kind, input);
    match reaction
    case StopThen(next) => StopMoves(s, kind, next, input);
    case StartNow =>
    case Rebind => StopMoves(s, kind, ResolveAndStart, input);
  }

  /** An outcome that concerns only `kind` and fits the table. */
  ghost predicate MovesAlone(s: State, o: Outcome, input: DecisionInput, kind: BindingKind)
    requires kind in s.bindings
  {
    && Frames(s, o.state, o.effects)
    && o.state.shutdown == s.shutdown
    && o.state.defaultRoutes == s.defaultRoutes
    && Moves(s, o.state, input, kind, o.effects)
    && (forall j :: j in s.bindings && j != kind ==> o.state.bindings[j] == s.bindings[j])
  }

  lemma NothingMoves(s: State, kind: BindingKind, input: DecisionInput)
    requires kind in s.bindings
    ensures MovesAlone(s, Outcome(s, []), input, kind)
  {
  }

  lemma StartMoves(s: State, kind: BindingKind, input: DecisionInput)
    requires kind in s.bindings
    ensures MovesAlone(s, StartBinding(s, kind), input, kind)
  {
    StartFrames(s, kind);
    hide Frames;
  }

  lemma StopMoves(s: State, kind: BindingKind, next: AfterStop, input: DecisionInput)
    requires kind in s.bindings && Usual(StopThen(next))
    ensures MovesAlone(s, StopBinding(s, kind, next), input, kind)
  {
    StopFrames(s, kind, next);
    hide Frames;
  }

  /** A reaction touches only the binding it visits. */
  lemma ReactFrames(s: State, reaction: Reaction, kind: BindingKind)
    ensures var o := React(s, reaction, kind);
            && Frames(s, o.state, o.effects)
            && o.state.shutdown == s.shutdown
            && o.state.defaultRoutes == s.defaultRoutes
            && (forall i :: 0 <= i < |o.effects| ==> o.effects[i].binding == kind)
            && |o.effects| <= 1
            && (forall j :: j in s.bindings && j != kind ==> o.state.bindings[j] == s.bindings[j])
  {
    hide StartBinding, StopBinding, Frames;
    NothingFrames(s, kind);
    StartFrames(s, kind);
    match reaction
    case StopThen(next) => StopFrames(s, kind, next);
    case StartNow =>
    case Rebind => StopFrames(s, kind, ResolveAndStart);
  }

  /** An outcome that touches only `kind`, with at most one effect. */
  ghost predicate TouchesOnly(s: State, o: Outcome, kind: BindingKind) {
    && Frames(s, o.state, o.effects)
    && o.state.shutdown == s.shutdown
    && o.state.defaultRoutes == s.defaultRoutes
    && (forall i :: 0 <= i < |o.effects| ==> o.effects[i].binding == kind)
    && |o.effects| <= 1
    && (forall j :: j in s.bindings && j != kind ==> o.state.bindings[j] == s.bindings[j])
  }

  lemma NothingFrames(s: State, kind: BindingKind)
    ensures TouchesOnly(s, Outcome(s, []), kind)
  {
  }

  lemma StartFrames(s: State, kind: BindingKind)
    ensures TouchesOnly(s, StartBinding(s, kind), kind)
  {
  }

  lemma StopFrames(s: State, kind: BindingKind, next: AfterStop)
    ensures TouchesOnly(s, StopBinding(s, kind, next), kind)
  {
  }

  lemma ReportFrames(s: State, kind: BindingKind, op: nat, epoch: nat, target: ResolvedTarget, error: string)
    ensures TouchesOnly(s, OnWorkerStarted(s, kind, op, epoch, target), kind)
    ensures TouchesOnly(s, OnWorkerFailed(s, kind, op, error), kind)
  {
    hide TouchesOnly, OnWorkerStarted, OnWorkerFailed;
    StartedFrames(s, kind, op, epoch, target);
    FailedFrames(s, kind, op, error);
  }

  lemma StartedFrames(s: State, kind: BindingKind, op: nat, epoch: nat, target: ResolvedTarget)
    ensures TouchesOnly(s, OnWorkerStarted(s, kind, op, epoch, target), kind)
  {
  }

  lemma FailedFrames(s: State, kind: BindingKind, op: nat, error: string)
    ensures TouchesOnly(s, OnWorkerFailed(s, kind, op, error), kind)
  {
  }

  lemma StoppedFrames(s: State, kind: BindingKind, op: nat, epoch: nat)
    ensures TouchesOnly(s, OnWorkerStopped(s, kind, op, epoch), kind)
  {
    hide StartBinding, TouchesOnly;
    NothingFrames(s, kind);
    if kind in s.bindings && s.bindings[kind].lifecycle.Stopping? {
      match s.bindings[kind].lifecycle.next
      case RemainStopped => RestFrames(s, kind, Stopped);
      case WaitForRecovery(why) => RestFrames(s, kind, Waiting(why));
      case ResolveAndStart => RestartFrames(s, kind);
    }
  }

  lemma RestFrames(s: State, kind: BindingKind, lc: Lifecycle)
    requires kind in s.bindings
    ensures TouchesOnly(s, Outcome(s.WithLifecycle(kind, lc), []), kind)
  {
  }

  lemma RestartFrames(s: State, kind: BindingKind)
    requires kind in s.bindings
    ensures TouchesOnly(s, StartBinding(s.WithLifecycle(kind, Stopped), kind), kind)
  {
    StartFrames(s.WithLifecycle(kind, Stopped), kind);
    hide StartBinding;
  }

  lemma FramesCompose(s: State, m: State, s': State, a: seq<Effect>, b: seq<Effect>)
    requires Frames(s, m, a) && Frames(m, s', b)
    ensures Frames(s, s', a + b)
  {
  }

  lemma {:induction false} ReactAllFrames(s: State, reaction: Reaction, kinds: seq<BindingKind>)
    ensures var o := ReactAll(s, reaction, kinds);
            && Frames(s, o.state, o.effects)
            && o.state.shutdown == s.shutdown
            && o.state.defaultRoutes == s.defaultRoutes
            && (forall k :: k in s.bindings && k !in kinds ==>
                  o.state.bindings[k] == s.bindings[k] && EffectsFor(o.effects, k) == [])
  {
    hide React;
    if kinds != [] {
      var front, last := kinds[..|kinds| - 1], kinds[|kinds| - 1];
      var before := ReactAll(s, reaction, front);
      ReactAllFrames(s, reaction, front);
      ReactFrames(before.state, reaction, last);
      var after := React(before.state, reaction, last);
      FramesCompose(s, before.state, after.state, before.effects, after.effects);
      forall k | k in s.bindings && k !in kinds
        ensures EffectsFor(before.effects + after.effects, k) == []
      {
        EffectsForConcat(before.effects, after.effects, k);
      }
    }
  }

  /** A move of one binding survives steps before and after it that leave the binding alone. */
  lemma MovesWithin(s: State, m: State, m': State, s': State, input: DecisionInput, k: BindingKind, es: seq<Effect>)
    requires k in s.bindings && k in m.bindings && k in m'.bindings && k in s'.bindings
    requires s.bindings[k] == m.bindings[k] && m'.bindings[k] == s'.bindings[k]
    requires s.shutdown == m.shutdown && m'.defaultRoutes == s'.defaultRoutes
    requires s.nextOperationId <= m.nextOperationId && m'.nextOperationId <= s'.nextOperationId
    requires s.nextStreamEpoch <= m.nextStreamEpoch && m'.nextStreamEpoch <= s'.nextStreamEpoch
    requires Moves(m, m', input, k, es)
    ensures Moves(s, s', input, k, es)
  {
  }

  lemma EffectsForAll(es: seq<Effect>, k: BindingKind)
    requires |es| <= 1 && forall i :: 0 <= i < |es| ==> es[i].binding == k
    ensures EffectsFor(es, k) == es
  {
  }

  lemma MovesNot(s: State, input: DecisionInput, k: BindingKind)
    requires k in s.bindings
    ensures Moves(s, s, input, k, [])
  {
  }

  /** The last visit of a pass, for the binding it visits and for every other one. */
  lemma LastVisit(s: State, reaction: Reaction, kinds: seq<BindingKind>, input: DecisionInput, k: BindingKind)
    requires Distinct(kinds) && kinds != [] && k in s.bindings && Usual(reaction)
    ensures var n := |kinds| - 1;
            var before, o := ReactAll(s, reaction, kinds[..n]), ReactAll(s, reaction, kinds);
            && k in before.state.bindings && k in o.state.bindings
            && (k == kinds[n] ==> Moves(s, o.state, input, k, EffectsFor(o.effects, k)))
            && (k != kinds[n] ==>
                  && o.state.bindings[k] == before.state.bindings[k]
                     && EffectsFor(o.effects, k) == EffectsFor(before.effects, k)
                  && o.state.defaultRoutes == before.state.defaultRoutes
                  && before.state.nextOperationId <= o.state.nextOperationId
                  && before.state.nextStreamEpoch <= o.state.nextStreamEpoch)
  {
    hide React, Moves, StartsAscend;
    var front, last := kinds[..|kinds| - 1], kinds[|kinds| - 1];
    assert last !in front;
    var before := ReactAll(s, reaction, front);
    ReactAllFrames(s, reaction, front);
    ReactFrames(before.state, reaction, last);
    var after := React(before.state, reaction, last);
    EffectsForConcat(before.effects, after.effects, k);
    if k == last {
      ReactMoves(before.state, reaction, last, input);
      MovesWithin(s, before.state, after.state, after.state, input, k, after.effects);
      EffectsForAll(after.effects, k);
      assert [] + after.effects == after.effects;
    } else {
      NoEffectsFor(after.effects, k);
      assert EffectsFor(before.effects, k) + [] == EffectsFor(before.effects, k);
    }
  }

  lemma {:induction false} ReactAllMoves(s: State, reaction: Reaction, kinds: seq<BindingKind>, input: DecisionInput,
                                         k: BindingKind)
    requires Distinct(kinds) && k in s.bindings && Usual(reaction)
    ensures var o := ReactAll(s, reaction, kinds);
            k in o.state.bindings && Moves(s, o.state, input, k, EffectsFor(o.effects, k))
  {
    hide React, Moves, EffectsFor;
    if kinds == [] {
      MovesNot(s, input, k);
      NoEffectsFor([], k);
    } else {
      var front := kinds[..|kinds| - 1];
      LastVisit(s, reaction, kinds, input, k);
      if k != kinds[|kinds| - 1] {
        hide ReactAll;
        var before, o := ReactAll(s, reaction, front), ReactAll(s, reaction, kinds);
        ReactAllMoves(s, reaction, front, input, k);
        MovesWithin(s, s, before.state, o.state, input, k, EffectsFor(before.effects, k));
      }
    }
  }

  lemma {:induction false} SelectedIsSound(s: State, obs: Observation, order: seq<BindingKind>)
    requires Distinct(order)
    ensures var picked := Selected(s, obs, order);
            && Distinct(picked)
            && (forall k :: k in picked <==> k in order && Selects(s, obs, k))
  {
    if order != [] {
      SelectedIsSound(s, obs, order[..|order| - 1]);
      assert order == order[..|order| - 1] + [order[|order| - 1]];
    }
  }

  /** A pass over the bindings an observation singles out, with the routes already updated. */
  lemma SweepMoves(s: State, m: State, reaction: Reaction, kinds: seq<BindingKind>, input: DecisionInput,
                   k: BindingKind)
    requires Distinct(kinds) && k in s.bindings && Usual(reaction) && s.bindings == m.bindings
    requires s.nextOperationId == m.nextOperationId && s.nextStreamEpoch == m.nextStreamEpoch
    requires s.shutdown == m.shutdown || reaction.StopThen?
    ensures var o := ReactAll(m, reaction, kinds);
            k in o.state.bindings && Moves(s, o.state, input, k, EffectsFor(o.effects, k))
  {
    var o := ReactAll(m, reaction, kinds);
    ReactAllFrames(m, reaction, kinds);
    ReactAllMoves(m, reaction, kinds, input, k);
    if s.shutdown != m.shutdown {
      StopsNeverBegin(m, reaction, kinds, k);
    }
  }

  lemma {:induction false} StopsNeverBegin(s: State, reaction: Reaction, kinds: seq<BindingKind>, k: BindingKind)
    requires reaction.StopThen? && k in s.bindings
    ensures var o := ReactAll(s, reaction, kinds);
            && o.state.bindings.Keys == s.bindings.Keys
            && (o.state.bindings[k].lifecycle == s.bindings[k].lifecycle || o.state.bindings[k].lifecycle.Stopping?)
  {
    if kinds != [] {
      StopsNeverBegin(s, reaction, kinds[..|kinds| - 1], k);
    }
  }

  lemma DecideFrames(s: State, input: DecisionInput, order: seq<BindingKind>)
    ensures var o := Decide(s, input, order); Frames(s, o.state, o.effects)
  {
    hide ReactAll, StartBinding, StopBinding, OnWorkerStarted, OnWorkerStopped, OnWorkerFailed, Selected;
    NothingFrames(s, Microphone);
    match input
    case ShutdownRequested => ReactAllFrames(s.(shutdown := true), StopThen(RemainStopped), order);
    case UserStart(kind) => StartFrames(s, kind);
    case UserStop(kind) => StopFrames(s, kind, RemainStopped);
    case RetryTimerFired(kind, retryId) => StartFrames(s, kind);
    case Observed(obs) =>
      match obs
      case DefaultEndpointChanged(flow, role, id) =>
        var s' := s.(defaultRoutes := s.defaultRoutes[(flow, role) := id]);
        ReactAllFrames(s', Rebind, Selected(s', obs, order));
      case EndpointRemoved(_) =>
        ReactAllFrames(s, StopThen(WaitForRecovery(DeviceUnavailable)), Selected(s, obs, order));
      case EndpointAdded(_) => ReactAllFrames(s, StartNow, Selected(s, obs, order));
      case ProcessExited(_) => StopFrames(s, ProcessLoopback, WaitForRecovery(ProcessNotFound));
      case ProcessRestarted(_, newPid) =>
        if ProcessLoopback in s.bindings { StopFrames(WithNewPid(s, newPid), ProcessLoopback, ResolveAndStart); }
      case WorkerStarted(kind, op, epoch, target) => ReportFrames(s, kind, op, epoch, target, "");
      case WorkerStopped(kind, op, epoch) => StoppedFrames(s, kind, op, epoch);
      case WorkerFailed(kind, op, error) => ReportFrames(s, kind, op, 0, EndpointTarget(""), error);
  }

  /** Outcomes that concern one binding `kind` only. */
  ghost predicate Local(s: State, o: Outcome, input: DecisionInput, kind: BindingKind) {
    && (kind in s.bindings ==> kind in o.state.bindings && Moves(s, o.state, input, kind, o.effects))
    && |o.effects| <= 1
    && (forall i :: 0 <= i < |o.effects| ==> o.effects[i].binding == kind)
    && (forall k :: k in s.bindings && k != kind ==> k in o.state.bindings && o.state.bindings[k] == s.bindings[k])
  }

  lemma LocalMoves(s: State, o: Outcome, input: DecisionInput, kind: BindingKind, k: BindingKind)
    requires k in s.bindings && Local(s, o, input, kind)
    ensures k in o.state.bindings && Moves(s, o.state, input, k, EffectsFor(o.effects, k))
  {
    if k == kind {
      EffectsForAll(o.effects, k);
    } else {
      assert EffectsFor(o.effects, k) == [];
    }
  }

  lemma StartIsLocal(s: State, input: DecisionInput, kind: BindingKind)
    ensures Local(s, StartBinding(s, kind), input, kind)
  {
    StartFrames(s, kind);
    if kind in s.bindings { StartMoves(s, kind, input); }
    hide StartBinding, Moves, StartsAscend;
  }

  lemma StopIsLocal(s: State, input: DecisionInput, kind: BindingKind, next: AfterStop)
    requires Usual(StopThen(next))
    ensures Local(s, StopBinding(s, kind, next), input, kind)
  {
    StopFrames(s, kind, next);
    if kind in s.bindings { StopMoves(s, kind, next, input); }
    hide StopBinding, Moves, StartsAscend;
  }

  lemma RestartIsLocal(s: State, oldPid: nat, newPid: nat, order: seq<BindingKind>)
    ensures var obs := ProcessRestarted(oldPid, newPid);
            Local(s, Observe(s, obs, order), Observed(obs), ProcessLoopback)
  {
  }

  lemma StartedIsLocal(s: State, kind: BindingKind, op: nat, epoch: nat, target: ResolvedTarget)
    ensures Local(s, OnWorkerStarted(s, kind, op, epoch, target), Observed(WorkerStarted(kind, op, epoch, target)),
                  kind)
  {
  }

  lemma StoppedIsLocal(s: State, kind: BindingKind, op: nat, epoch: nat)
    requires kind in s.bindings ==> BindingOk(s, kind)
    ensures Local(s, OnWorkerStopped(s, kind, op, epoch), Observed(WorkerStopped(kind, op, epoch)), kind)
  {
    hide StartBinding, Local, BindingOk;
    var input := Observed(WorkerStopped(kind, op, epoch));
    IdleIsLocal(s, input, kind);
    if kind in s.bindings && IsMatchingStop(input, kind, s.bindings[kind].lifecycle) {
      match s.bindings[kind].lifecycle.next
      case RemainStopped => RestIsLocal(s, kind, Stopped, input);
      case WaitForRecovery(why) => RecoveryIsLocal(s, kind, why, input);
      case ResolveAndStart => RestartedIsLocal(s, kind, input);
    }
  }

  lemma RestIsLocal(s: State, kind: BindingKind, lc: Lifecycle, input: DecisionInput)
    requires kind in s.bindings && IsMatchingStop(input, kind, s.bindings[kind].lifecycle)
    requires lc.Stopped? || (lc.Waiting? && !lc.reason.RetryableFailure?)
    requires s.bindings[kind].lifecycle.next.RemainStopped? ==> lc.Stopped?
    ensures Local(s, Outcome(s.WithLifecycle(kind, lc), []), input, kind)
  {
  }

  lemma RecoveryIsLocal(s: State, kind: BindingKind, why: WaitReason, input: DecisionInput)
    requires kind in s.bindings && BindingOk(s, kind)
    requires IsMatchingStop(input, kind, s.bindings[kind].lifecycle)
    requires s.bindings[kind].lifecycle.next == WaitForRecovery(why)
    ensures Local(s, Outcome(s.WithLifecycle(kind, Waiting(why)), []), input, kind)
  {
    RestIsLocal(s, kind, Waiting(why), input);
  }

  lemma RestartedIsLocal(s: State, kind: BindingKind, input: DecisionInput)
    requires kind in s.bindings && IsMatchingStop(input, kind, s.bindings[kind].lifecycle)
    requires s.bindings[kind].lifecycle.next.ResolveAndStart?
    ensures Local(s, StartBinding(s.WithLifecycle(kind, Stopped), kind), input, kind)
  {
  }

  lemma FailedIsLocal(s: State, kind: BindingKind, op: nat, error: string)
    requires kind in s.bindings ==> BindingOk(s, kind)
    ensures Local(s, OnWorkerFailed(s, kind, op, error), Observed(WorkerFailed(kind, op, error)), kind)
  {
  }

  /** The binding an input is about, when it is about a single one. */
  ghost predicate Sweeps(input: DecisionInput) {
    || input.ShutdownRequested?
    || (input.Observed? &&
        (|| input.observation.DefaultEndpointChanged?
         || input.observation.EndpointRemoved?
         || input.observation.EndpointAdded?))
  }

  lemma SingleIsLocal(s: State, input: DecisionInput, order: seq<BindingKind>) returns (kind: BindingKind)
    requires WellFormed(s) && !Sweeps(input)
    ensures Local(s, Decide(s, input, order), input, kind)
  {
    hide Local, StartBinding, StopBinding, OnWorkerStarted, OnWorkerStopped, OnWorkerFailed, BindingOk;
    match input
    case UserStart(k) => kind := k; StartIsLocal(s, input, k);
    case UserStop(k) => kind := k; StopIsLocal(s, input, k, RemainStopped);
    case RetryTimerFired(k, _) => kind := k; StartIsLocal(s, input, k); IdleIsLocal(s, input, k);
    case Observed(obs) =>
      match obs
      case ProcessExited(_) =>
        kind := ProcessLoopback;
        StopIsLocal(s, input, kind, WaitForRecovery(ProcessNotFound));
        IdleIsLocal(s, input, kind);
      case ProcessRestarted(oldPid, newPid) => kind := ProcessLoopback; RestartIsLocal(s, oldPid, newPid, order);
      case WorkerStarted(k, op, epoch, target) => kind := k; StartedIsLocal(s, k, op, epoch, target);
      case WorkerStopped(k, op, epoch) => kind := k; StoppedIsLocal(s, k, op, epoch);
      case WorkerFailed(k, op, error) => kind := k; FailedIsLocal(s, k, op, error);
  }

  lemma IdleIsLocal(s: State, input: DecisionInput, kind: BindingKind)
    ensures Local(s, Outcome(s, []), input, kind)
  {
  }

  lemma SweepsMove(s: State, input: DecisionInput, order: seq<BindingKind>, k: BindingKind)
    requires Visits(order, s.bindings.Keys) && k in s.bindings && Sweeps(input)
    ensures var o := Decide(s, input, order);
            k in o.state.bindings && Moves(s, o.state, input, k, EffectsFor(o.effects, k))
  {
    hide ReactAll, Moves;
    match input
    case ShutdownRequested =>
      SweepMoves(s, s.(shutdown := true), StopThen(RemainStopped), order, input, k);
    case Observed(obs) =>
      match obs
      case DefaultEndpointChanged(flow, role, id) =>
        var s' := s.(defaultRoutes := s.defaultRoutes[(flow, role) := id]);
        SelectedIsSound(s', obs, order);
        SweepMoves(s, s', Rebind, Selected(s', obs, order), input, k);
      case EndpointRemoved(_) =>
        SelectedIsSound(s, obs, order);
        SweepMoves(s, s, StopThen(WaitForRecovery(DeviceUnavailable)), Selected(s, obs, order), input, k);
      case EndpointAdded(_) =>
        SelectedIsSound(s, obs, order);
        SweepMoves(s, s, StartNow, Selected(s, obs, order), input, k);
  }

  /** The table holds for every input, every binding and every visiting order. */
  lemma DecideMoves(s: State, input: DecisionInput, order: seq<BindingKind>, k: BindingKind)
    requires WellFormed(s) && Visits(order, s.bindings.Keys) && k in s.bindings
    ensures var o := Decide(s, input, order);
            k in o.state.bindings && Moves(s, o.state, input, k, EffectsFor(o.effects, k))
  {
    hide Decide, Moves;
    if Sweeps(input) {
      SweepsMove(s, input, order, k);
    } else {
      var kind := SingleIsLocal(s, input, order);
      LocalMoves(s, Decide(s, input, order), input, kind, k);
    }
  }

  lemma {:induction false} EffectsForFound(effects: seq<Effect>, kind: BindingKind, i: nat) returns (at: nat)
    requires i < |EffectsFor(effects, kind)|
    ensures at < |effects| && effects[at] == EffectsFor(effects, kind)[i] && effects[at].binding == kind
  {
    if effects[0].binding == kind && i == 0 {
      at := 0;
    } else {
      var rest := EffectsForFound(effects[1..], kind, if effects[0].binding == kind then i - 1 else i);
      at := rest + 1;
    }
  }

  /** Two bindings that start in one decision get different ids. */
  lemma FreshIdsDiffer(s: State, s': State, effects: seq<Effect>, j: BindingKind, k: BindingKind)
    requires j != k && StartsAscend(effects, s, s')
    requires |EffectsFor(effects, j)| == 1 && EffectsFor(effects, j)[0].StartCapture?
    requires |EffectsFor(effects, k)| == 1 && EffectsFor(effects, k)[0].StartCapture?
    ensures EffectsFor(effects, j)[0].operationId != EffectsFor(effects, k)[0].operationId
    ensures EffectsFor(effects, j)[0].epoch != EffectsFor(effects, k)[0].epoch
  {
    var a := EffectsForFound(effects, j, 0);
    var b := EffectsForFound(effects, k, 0);
    assert a != b;
  }

  /** An id held after a move was held before it, or is the id of the binding's own start. */
  lemma MovesHeld(s: State, s': State, input: DecisionInput, k: BindingKind, es: seq<Effect>)
    requires k in s.bindings && k in s'.bindings && Moves(s, s', input, k, es)
    requires s'.bindings[k].lifecycle.Holds()
    ensures var b, b' := s.bindings[k].lifecycle, s'.bindings[k].lifecycle;
            || (b.Holds() && b.operationId == b'.operationId && b.epoch == b'.epoch)
            || (&& |es| == 1 && es[0].StartCapture?
                && es[0].operationId == b'.operationId >= s.nextOperationId
                && es[0].epoch == b'.epoch >= s.nextStreamEpoch)
  {
  }

  lemma StaysUnshared(s: State, input: DecisionInput, order: seq<BindingKind>, j: BindingKind, k: BindingKind)
    requires WellFormed(s) && Visits(order, s.bindings.Keys)
    requires j in s.bindings && k in s.bindings && j != k
    ensures var s' := Decide(s, input, order).state;
            j in s'.bindings && k in s'.bindings && Unshared(s', j, k)
  {
    hide Decide, Moves;
    var o := Decide(s, input, order);
    DecideFrames(s, input, order);
    DecideMoves(s, input, order, j);
    DecideMoves(s, input, order, k);
    assert Unshared(s, j, k) && BindingOk(s, j) && BindingOk(s, k);
    var ej, ek := EffectsFor(o.effects, j), EffectsFor(o.effects, k);
    if o.state.bindings[j].lifecycle.Holds() && o.state.bindings[k].lifecycle.Holds() {
      MovesHeld(s, o.state, input, j, ej);
      MovesHeld(s, o.state, input, k, ek);
      if |ej| == 1 && |ek| == 1 && ej[0].StartCapture? && ek[0].StartCapture? {
        FreshIdsDiffer(s, o.state, o.effects, j, k);
      }
    }
  }

  lemma MovesKeepOk(s: State, s': State, input: DecisionInput, k: BindingKind, es: seq<Effect>)
    requires k in s.bindings && k in s'.bindings && Moves(s, s', input, k, es) && BindingOk(s, k)
    requires s.nextOperationId <= s'.nextOperationId && s.nextStreamEpoch <= s'.nextStreamEpoch
    ensures BindingOk(s', k)
  {
  }

  /** Every decision keeps the state well formed. */
  lemma DecideKeepsWellFormed(s: State, input: DecisionInput, order: seq<BindingKind>)
    requires WellFormed(s) && Visits(order, s.bindings.Keys)
    ensures WellFormed(Decide(s, input, order).state)
  {
    hide Decide, Moves, BindingOk, Unshared;
    var o := Decide(s, input, order);
    var s' := o.state;
    DecideFrames(s, input, order);
    forall k | k in s'.bindings ensures BindingOk(s', k) {
      DecideMoves(s, input, order, k);
      MovesKeepOk(s, s', input, k, EffectsFor(o.effects, k));
    }
    forall j, k | j in s'.bindings && k in s'.bindings && j != k ensures Unshared(s', j, k) {
      StaysUnshared(s, input, order, j, k);
    }
  }

  // ---- For the supervisors ----------------------------------------------------------

  /** Phase 1A: only the microphone and the endpoint loopback are ever bound, to endpoints. */
  ghost predicate EndpointsOnly(s: State) {
    forall k :: k in s.bindings ==> k != ProcessLoopback && s.bindings[k].selection.Endpoint?
  }

  lemma OkOf(s: State, k: BindingKind)
    requires WellFormed(s) && k in s.bindings
    ensures BindingOk(s, k)
  {
  }

  lemma FiredTimerMoves(s: State, order: seq<BindingKind>, k: BindingKind)
    requires k in s.bindings
    ensures var o := Decide(s, RetryTimerFired(k, s.bindings[k].retryAttempt), order);
            k in o.state.bindings && s.shutdown == o.state.shutdown &&
            (s.bindings[k].lifecycle.Waiting? && s.bindings[k].lifecycle.reason.RetryableFailure? && !s.shutdown ==>
               !(o.state.bindings[k].lifecycle.Waiting? && o.state.bindings[k].lifecycle.reason.RetryableFailure?))
  {
  }

  lemma SelectionStays(s: State, s': State, input: DecisionInput, k: BindingKind, es: seq<Effect>)
    requires k in s.bindings && k in s'.bindings && Moves(s, s', input, k, es)
    ensures k != ProcessLoopback ==> s'.bindings[k].selection == s.bindings[k].selection
    ensures |es| == 1 && es[0].StartCapture? ==>
              ResolveTarget(s'.bindings[k].selection, s'.defaultRoutes) == Some(es[0].target)
  {
  }

  lemma {:induction false} NoEffectsFor(es: seq<Effect>, k: BindingKind)
    requires forall i :: 0 <= i < |es| ==> es[i].binding != k
    ensures EffectsFor(es, k) == []
  {
    if es != [] {
      NoEffectsFor(es[1..], k);
    }
  }
}
