/**
  The binding map is visited in an unspecified order. This module proves what that can
  change: nothing but the numbering of the ids allocated during the decision.
*/
module IterationOrder {
  import opened Prelude
  import opened Rebinding
  import opened RebindingMoves

  ghost function Unnumbered(es: seq<Effect>): seq<Effect> {
    seq(|es|, i requires 0 <= i < |es| => es[i].(effectId := 0))
  }

  /** `s` with the operation and epoch counters moved on by `n`. */
  ghost function Shifted(s: State, n: nat): State {
    s.(nextOperationId := s.nextOperationId + n, nextStreamEpoch := s.nextStreamEpoch + n)
  }

  ghost predicate Starts(s: State, reaction: Reaction, kind: BindingKind) {
    var es := React(s, reaction, kind).effects;
    |es| == 1 && es[0].StartCapture?
  }

  ghost predicate Acts(s: State, reaction: Reaction, kind: BindingKind) {
    React(s, reaction, kind).effects != []
  }

  ghost function Starters(s: State, reaction: Reaction, kinds: seq<BindingKind>): seq<BindingKind> {
    if kinds == [] then []
    else
      var last := kinds[|kinds| - 1];
      Starters(s, reaction, kinds[..|kinds| - 1]) + if Starts(s, reaction, last) then [last] else []
  }

  ghost function Actors(s: State, reaction: Reaction, kinds: seq<BindingKind>): seq<BindingKind> {
    if kinds == [] then []
    else
      var last := kinds[|kinds| - 1];
      Actors(s, reaction, kinds[..|kinds| - 1]) + if Acts(s, reaction, last) then [last] else []
  }

  ghost function IndexOf(kinds: seq<BindingKind>, kind: BindingKind): (i: nat)
    requires kind in kinds
    ensures i < |kinds| && kinds[i] == kind
  {
    if kinds[|kinds| - 1] == kind then |kinds| - 1 else IndexOf(kinds[..|kinds| - 1], kind)
  }

  lemma IndexIsUnique(kinds: seq<BindingKind>, i: nat)
    requires Distinct(kinds) && i < |kinds|
    ensures IndexOf(kinds, kinds[i]) == i
  {
  }

  lemma {:induction false} StartersAreSound(s: State, reaction: Reaction, kinds: seq<BindingKind>)
    requires Distinct(kinds)
    ensures Distinct(Starters(s, reaction, kinds)) && Distinct(Actors(s, reaction, kinds))
    ensures forall k :: k in Starters(s, reaction, kinds) <==> k in kinds && Starts(s, reaction, k)
    ensures forall k :: k in Actors(s, reaction, kinds) <==> k in kinds && Acts(s, reaction, k)
  {
    hide React, Starts, Acts;
    if kinds != [] {
      var front, last := kinds[..|kinds| - 1], kinds[|kinds| - 1];
      StartersAreSound(s, reaction, front);
      assert kinds == front + [last];
      assert last !in front;
    }
  }

  /** `m` is `s` as far as `kind` is concerned, `n` starts later. */
  ghost predicate Later(s: State, m: State, kind: BindingKind, n: nat) {
    && kind in s.bindings && kind in m.bindings && s.bindings[kind] == m.bindings[kind]
    && s.shutdown == m.shutdown && s.defaultRoutes == m.defaultRoutes
    && m.nextOperationId == s.nextOperationId + n && m.nextStreamEpoch == s.nextStreamEpoch + n
  }

  ghost predicate SameFor(kind: BindingKind, o: Outcome, p: Outcome) {
    && kind in o.state.bindings && kind in p.state.bindings
    && o.state.bindings[kind] == p.state.bindings[kind]
    && Unnumbered(o.effects) == Unnumbered(p.effects)
  }

  /** A reaction depends on the counters only through the ids it hands out. */
  lemma ReactShifts(s: State, m: State, reaction: Reaction, kind: BindingKind, n: nat)
    requires Later(s, m, kind, n)
    ensures SameFor(kind, React(m, reaction, kind), React(Shifted(s, n), reaction, kind))
  {
    hide StartBinding, StopBinding, SameFor;
    NothingShifts(s, m, kind, n);
    StartShifts(s, m, kind, n);
    match reaction
    case StopThen(next) => StopShifts(s, m, kind, next, n);
    case StartNow =>
    case Rebind => StopShifts(s, m, kind, ResolveAndStart, n);
  }

  lemma NothingShifts(s: State, m: State, kind: BindingKind, n: nat)
    requires Later(s, m, kind, n)
    ensures SameFor(kind, Outcome(m, []), Outcome(Shifted(s, n), []))
  {
  }

  lemma StartShifts(s: State, m: State, kind: BindingKind, n: nat)
    requires Later(s, m, kind, n)
    ensures SameFor(kind, StartBinding(m, kind), StartBinding(Shifted(s, n), kind))
  {
  }

  lemma StopShifts(s: State, m: State, kind: BindingKind, next: AfterStop, n: nat)
    requires Later(s, m, kind, n)
    ensures SameFor(kind, StopBinding(m, kind, next), StopBinding(Shifted(s, n), kind, next))
  {
  }

  lemma ReactShiftsQuietly(s: State, m: State, reaction: Reaction, kind: BindingKind, n: nat)
    requires Later(s, m, kind, n) && !Starts(s, reaction, kind)
    ensures SameFor(kind, React(m, reaction, kind), React(s, reaction, kind))
  {
  }

  lemma ReactCounts(s: State, m: State, reaction: Reaction, kind: BindingKind, n: nat)
    requires Later(s, m, kind, n)
    ensures var o := React(m, reaction, kind);
            && o.state.nextOperationId == m.nextOperationId + (if Starts(s, reaction, kind) then 1 else 0)
            && o.state.nextStreamEpoch == m.nextStreamEpoch + (if Starts(s, reaction, kind) then 1 else 0)
            && o.state.nextEffectId == m.nextEffectId + (if Acts(s, reaction, kind) then 1 else 0)
  {
  }

  lemma {:induction false} PassCounts(s: State, reaction: Reaction, kinds: seq<BindingKind>)
    requires Distinct(kinds) && forall k :: k in kinds ==> k in s.bindings
    ensures var o := ReactAll(s, reaction, kinds);
            && o.state.nextOperationId == s.nextOperationId + |Starters(s, reaction, kinds)|
            && o.state.nextStreamEpoch == s.nextStreamEpoch + |Starters(s, reaction, kinds)|
            && o.state.nextEffectId == s.nextEffectId + |Actors(s, reaction, kinds)|
  {
    hide React, Starts, Acts;
    if kinds != [] {
      var front, last := kinds[..|kinds| - 1], kinds[|kinds| - 1];
      assert last in kinds && last !in front;
      PassCounts(s, reaction, front);
      ReactAllFrames(s, reaction, front);
      ReactCounts(s, ReactAll(s, reaction, front).state, reaction, last, |Starters(s, reaction, front)|);
    }
  }

  ghost predicate ClosedForm(s: State, reaction: Reaction, kinds: seq<BindingKind>, k: BindingKind) {
    && (Starts(s, reaction, k) ==> k in Starters(s, reaction, kinds))
    && var n := if Starts(s, reaction, k) then IndexOf(Starters(s, reaction, kinds), k) else 0;
    SameFor(k, Outcome(ReactAll(s, reaction, kinds).state, EffectsFor(ReactAll(s, reaction, kinds).effects, k)),
            React(Shifted(s, n), reaction, k))
  }

  lemma ClosedFormForLast(s: State, reaction: Reaction, kinds: seq<BindingKind>)
    requires Distinct(kinds) && kinds != [] && forall j :: j in kinds ==> j in s.bindings
    ensures ClosedForm(s, reaction, kinds, kinds[|kinds| - 1])
  {
    hide React, Starts, Acts, Unnumbered;
    var front, k := kinds[..|kinds| - 1], kinds[|kinds| - 1];
    var before := ReactAll(s, reaction, front);
    var n := |Starters(s, reaction, front)|;
    assert k !in front && k in kinds;
    ReactAllFrames(s, reaction, front);
    PassCounts(s, reaction, front);
    assert Later(s, before.state, k, n);
    ReactFrames(before.state, reaction, k);
    var after := React(before.state, reaction, k);
    EffectsForConcat(before.effects, after.effects, k);
    EffectsForAll(after.effects, k);
    assert EffectsFor(before.effects + after.effects, k) == after.effects;
    if Starts(s, reaction, k) {
      StartersAreSound(s, reaction, kinds);
      IndexIsUnique(Starters(s, reaction, kinds), n);
      ReactShifts(s, before.state, reaction, k, n);
    } else {
      ReactShiftsQuietly(s, before.state, reaction, k, n);
      ReactShiftsQuietly(s, Shifted(s, 0), reaction, k, 0);
    }
  }

  lemma LastVisitKeepsOthers(s: State, reaction: Reaction, kinds: seq<BindingKind>, k: BindingKind)
    requires kinds != [] && k in s.bindings && k != kinds[|kinds| - 1]
    ensures var x, y := ReactAll(s, reaction, kinds), ReactAll(s, reaction, kinds[..|kinds| - 1]);
            && k in x.state.bindings && k in y.state.bindings
            && x.state.bindings[k] == y.state.bindings[k]
            && EffectsFor(x.effects, k) == EffectsFor(y.effects, k)
  {
    hide React;
    var front, last := kinds[..|kinds| - 1], kinds[|kinds| - 1];
    var before := ReactAll(s, reaction, front);
    ReactAllFrames(s, reaction, front);
    ReactFrames(before.state, reaction, last);
    EffectsForConcat(before.effects, React(before.state, reaction, last).effects, k);
  }

  lemma LastVisitKeepsIndex(s: State, reaction: Reaction, kinds: seq<BindingKind>, k: BindingKind)
    requires Distinct(kinds) && kinds != [] && k in Starters(s, reaction, kinds[..|kinds| - 1])
    ensures k in Starters(s, reaction, kinds)
    ensures IndexOf(Starters(s, reaction, kinds), k) == IndexOf(Starters(s, reaction, kinds[..|kinds| - 1]), k)
  {
    hide React, Starts;
    StartersAreSound(s, reaction, kinds);
    IndexIsUnique(Starters(s, reaction, kinds), IndexOf(Starters(s, reaction, kinds[..|kinds| - 1]), k));
  }

  /** What a pass does to `k` depends on the order only through the number of starts before it. */
  lemma {:induction false} PassInClosedForm(s: State, reaction: Reaction, kinds: seq<BindingKind>, k: BindingKind)
    requires Distinct(kinds) && k in kinds && forall j :: j in kinds ==> j in s.bindings
    ensures ClosedForm(s, reaction, kinds, k)
  {
    hide React, ReactAll, Starts, Acts, Unnumbered, Starters, EffectsFor;
    if k == kinds[|kinds| - 1] {
      ClosedFormForLast(s, reaction, kinds);
    } else {
      var front := kinds[..|kinds| - 1];
      PassInClosedForm(s, reaction, front, k);
      LastVisitKeepsOthers(s, reaction, kinds, k);
      if Starts(s, reaction, k) {
        LastVisitKeepsIndex(s, reaction, kinds, k);
      }
    }
  }

  // ---- Renaming ---------------------------------------------------------------------

  /** A permutation of the first `n` numbers. */
  ghost predicate Permutation(p: map<nat, nat>, n: nat) {
    && (forall i: nat :: i in p <==> i < n)
    && (forall i: nat :: i in p ==> p[i] < n)
    && (forall i: nat, j: nat :: i in p && j in p && i != j ==> p[i] != p[j])
  }

  ghost function Renumber(id: nat, base: nat, p: map<nat, nat>): nat {
    if id >= base && id - base in p then base + p[id - base] else id
  }

  ghost function RenamedLifecycle(lc: Lifecycle, s: State, p: map<nat, nat>): Lifecycle {
    if lc.Starting? then
      Starting(Renumber(lc.operationId, s.nextOperationId, p), Renumber(lc.epoch, s.nextStreamEpoch, p), lc.target)
    else lc
  }

  ghost function RenamedEffect(e: Effect, s: State, p: map<nat, nat>): Effect {
    if e.StartCapture? then
      StartCapture(e.effectId, e.binding, Renumber(e.operationId, s.nextOperationId, p),
                   Renumber(e.epoch, s.nextStreamEpoch, p), e.target)
    else e
  }

  ghost function RenamedEffects(es: seq<Effect>, s: State, p: map<nat, nat>): seq<Effect> {
    seq(|es|, i requires 0 <= i < |es| => RenamedEffect(es[i], s, p))
  }

  /** `b` is `a` with the ids allocated since `s` renamed by `p`. */
  ghost predicate RenamedState(s: State, a: State, b: State, p: map<nat, nat>) {
    && a.bindings.Keys == b.bindings.Keys
    && a.(bindings := b.bindings) == b
    && forall k :: k in a.bindings ==>
         b.bindings[k] == a.bindings[k].(lifecycle := RenamedLifecycle(a.bindings[k].lifecycle, s, p))
  }

  ghost predicate RenamedOutcome(s: State, a: Outcome, b: Outcome, p: map<nat, nat>) {
    && RenamedState(s, a.state, b.state, p)
    && forall k :: k in s.bindings ==>
         Unnumbered(EffectsFor(b.effects, k)) == RenamedEffects(Unnumbered(EffectsFor(a.effects, k)), s, p)
  }

  lemma {:induction false} NoLonger(a: seq<BindingKind>, b: seq<BindingKind>)
    requires Distinct(a) && forall k :: k in a ==> k in b
    ensures |a| <= |b|
  {
    if a != [] {
      var k := a[|a| - 1];
      assert k in a;
      var i :| 0 <= i < |b| && b[i] == k;
      var rest := b[..i] + b[i + 1..];
      forall j | j in a[..|a| - 1] ensures j in rest {
        assert j in a;
        var x :| 0 <= x < |b| && b[x] == j;
        assert x != i;
        assert j == if x < i then rest[x] else rest[x - 1];
      }
      NoLonger(a[..|a| - 1], rest);
    }
  }

  lemma SameElementsSameLength(a: seq<BindingKind>, b: seq<BindingKind>)
    requires Distinct(a) && Distinct(b) && forall k :: k in a <==> k in b
    ensures |a| == |b|
  {
    NoLonger(a, b);
    NoLonger(b, a);
  }

  lemma MatchStarters(a: seq<BindingKind>, b: seq<BindingKind>) returns (p: map<nat, nat>)
    requires Distinct(a) && Distinct(b) && forall k :: k in a <==> k in b
    ensures |a| == |b| && Permutation(p, |a|)
    ensures forall k :: k in a ==> IndexOf(a, k) in p && p[IndexOf(a, k)] == IndexOf(b, k)
  {
    SameElementsSameLength(a, b);
    p := map i: nat | i < |a| :: IndexOf(b, a[i]);
    forall k | k in a ensures p[IndexOf(a, k)] == IndexOf(b, k) {
      assert a[IndexOf(a, k)] == k;
    }
  }

  lemma ReactRenames(s: State, reaction: Reaction, k: BindingKind, i: nat, j: nat, p: map<nat, nat>)
    requires k in s.bindings && Starts(s, reaction, k) && i in p && p[i] == j
    ensures var a, b := React(Shifted(s, i), reaction, k), React(Shifted(s, j), reaction, k);
            && k in a.state.bindings && k in b.state.bindings
            && b.state.bindings[k]
               == a.state.bindings[k].(lifecycle := RenamedLifecycle(a.state.bindings[k].lifecycle, s, p))
            && Unnumbered(b.effects) == RenamedEffects(Unnumbered(a.effects), s, p)
  {
  }

  lemma OldIdsStay(s: State, reaction: Reaction, k: BindingKind, p: map<nat, nat>)
    requires k in s.bindings && BindingOk(s, k) && !Starts(s, reaction, k)
    ensures var a := React(Shifted(s, 0), reaction, k);
            && k in a.state.bindings
            && RenamedLifecycle(a.state.bindings[k].lifecycle, s, p) == a.state.bindings[k].lifecycle
            && RenamedEffects(Unnumbered(a.effects), s, p) == Unnumbered(a.effects)
  {
  }

  lemma PassesAgreeOn(s: State, reaction: Reaction, a: seq<BindingKind>, b: seq<BindingKind>, p: map<nat, nat>,
                      k: BindingKind)
    requires k in s.bindings && BindingOk(s, k)
    requires Distinct(a) && Distinct(b) && (forall j :: j in a <==> j in b) && forall j :: j in a ==> j in s.bindings
    requires forall j :: j in Starters(s, reaction, a) ==>
               && j in Starters(s, reaction, b)
               && IndexOf(Starters(s, reaction, a), j) in p
               && p[IndexOf(Starters(s, reaction, a), j)] == IndexOf(Starters(s, reaction, b), j)
    ensures var x, y := ReactAll(s, reaction, a), ReactAll(s, reaction, b);
            && k in x.state.bindings && k in y.state.bindings
            && y.state.bindings[k]
               == x.state.bindings[k].(lifecycle := RenamedLifecycle(x.state.bindings[k].lifecycle, s, p))
            && Unnumbered(EffectsFor(y.effects, k)) == RenamedEffects(Unnumbered(EffectsFor(x.effects, k)), s, p)
  {
    hide React, ReactAll, Starts, Acts, BindingOk, Starters, Unnumbered, RenamedLifecycle;
    if k in a {
      PassInClosedForm(s, reaction, a, k);
      PassInClosedForm(s, reaction, b, k);
      if Starts(s, reaction, k) {
        ReactRenames(s, reaction, k, IndexOf(Starters(s, reaction, a), k), IndexOf(Starters(s, reaction, b), k), p);
      } else {
        OldIdsStay(s, reaction, k, p);
      }
    } else {
      ReactAllFrames(s, reaction, a);
      ReactAllFrames(s, reaction, b);
      UntouchedStays(s, k, p);
    }
  }

  lemma PassesAgree(s: State, reaction: Reaction, a: seq<BindingKind>, b: seq<BindingKind>) returns (p: map<nat, nat>)
    requires forall k :: k in s.bindings ==> BindingOk(s, k)
    requires Distinct(a) && Distinct(b) && (forall k :: k in a <==> k in b) && forall k :: k in a ==> k in s.bindings
    ensures s.nextOperationId <= ReactAll(s, reaction, a).state.nextOperationId
    ensures Permutation(p, ReactAll(s, reaction, a).state.nextOperationId - s.nextOperationId)
    ensures RenamedOutcome(s, ReactAll(s, reaction, a), ReactAll(s, reaction, b), p)
  {
    hide React, ReactAll, Starts, Acts, BindingOk, Starters, Actors, RenamedEffects, RenamedLifecycle, Unnumbered,
        EffectsFor;
    StartersAreSound(s, reaction, a);
    StartersAreSound(s, reaction, b);
    PassCounts(s, reaction, a);
    PassCounts(s, reaction, b);
    SameElementsSameLength(Actors(s, reaction, a), Actors(s, reaction, b));
    p := MatchStarters(Starters(s, reaction, a), Starters(s, reaction, b));
    ReactAllFrames(s, reaction, a);
    ReactAllFrames(s, reaction, b);
    forall k | k in s.bindings
      ensures var x, y := ReactAll(s, reaction, a), ReactAll(s, reaction, b);
              && y.state.bindings[k]
                 == x.state.bindings[k].(lifecycle := RenamedLifecycle(x.state.bindings[k].lifecycle, s, p))
              && Unnumbered(EffectsFor(y.effects, k)) == RenamedEffects(Unnumbered(EffectsFor(x.effects, k)), s, p)
    {
      PassesAgreeOn(s, reaction, a, b, p, k);
    }
  }

  lemma UntouchedStays(s: State, k: BindingKind, p: map<nat, nat>)
    requires k in s.bindings && BindingOk(s, k)
    ensures RenamedLifecycle(s.bindings[k].lifecycle, s, p) == s.bindings[k].lifecycle
    ensures RenamedEffects(Unnumbered([]), s, p) == Unnumbered([])
  {
  }

  // ---- Effect ids -------------------------------------------------------------------

  /** Effects are numbered one by one as they are emitted, at most one for each binding. */
  ghost predicate Numbered(s: State, o: Outcome) {
    && o.state.nextEffectId == s.nextEffectId + |o.effects|
    && (forall i :: 0 <= i < |o.effects| ==> o.effects[i].effectId == s.nextEffectId + i)
    && Distinct(Bindings(o.effects))
  }

  ghost function Bindings(es: seq<Effect>): seq<BindingKind> {
    seq(|es|, i requires 0 <= i < |es| => es[i].binding)
  }

  lemma ReactNumbers(s: State, reaction: Reaction, kind: BindingKind)
    ensures Numbered(s, React(s, reaction, kind))
  {
    ReactFrames(s, reaction, kind);
  }

  lemma {:induction false} PassNumbers(s: State, reaction: Reaction, kinds: seq<BindingKind>)
    requires Distinct(kinds)
    ensures Numbered(s, ReactAll(s, reaction, kinds))
    ensures forall k :: k in Bindings(ReactAll(s, reaction, kinds).effects) ==> k in kinds
  {
    hide React;
    if kinds != [] {
      var front, last := kinds[..|kinds| - 1], kinds[|kinds| - 1];
      assert kinds == front + [last] && last !in front;
      PassNumbers(s, reaction, front);
      var before := ReactAll(s, reaction, front);
      ReactNumbers(before.state, reaction, last);
      ReactFrames(before.state, reaction, last);
      var after := React(before.state, reaction, last);
      assert Bindings(before.effects + after.effects) == Bindings(before.effects) + Bindings(after.effects);
    }
  }

  lemma SingleNumbers(s: State, kind: BindingKind, next: AfterStop)
    ensures Numbered(s, Outcome(s, [])) && Numbered(s, StartBinding(s, kind)) && Numbered(s, StopBinding(s, kind, next))
  {
  }

  lemma ReportNumbers(s: State, kind: BindingKind, op: nat, epoch: nat, target: ResolvedTarget, error: string)
    ensures Numbered(s, OnWorkerStarted(s, kind, op, epoch, target))
    ensures Numbered(s, OnWorkerFailed(s, kind, op, error))
    ensures Numbered(s, OnWorkerStopped(s, kind, op, epoch))
  {
  }

  lemma DecideNumbers(s: State, input: DecisionInput, order: seq<BindingKind>)
    requires Distinct(order)
    ensures Numbered(s, Decide(s, input, order))
  {
    hide ReactAll, StartBinding, StopBinding, OnWorkerStarted, OnWorkerFailed, OnWorkerStopped, Selected;
    SingleNumbers(s, Microphone, RemainStopped);
    match input
    case ShutdownRequested => PassNumbers(s.(shutdown := true), StopThen(RemainStopped), order);
    case UserStart(kind) => SingleNumbers(s, kind, RemainStopped);
    case UserStop(kind) => SingleNumbers(s, kind, RemainStopped);
    case RetryTimerFired(kind, _) => SingleNumbers(s, kind, RemainStopped);
    case Observed(obs) =>
      match obs
      case DefaultEndpointChanged(flow, role, id) =>
        var m := s.(defaultRoutes := s.defaultRoutes[(flow, role) := id]);
        SelectedIsSound(m, obs, order);
        PassNumbers(m, Rebind, Selected(m, obs, order));
      case EndpointRemoved(_) =>
        SelectedIsSound(s, obs, order);
        PassNumbers(s, StopThen(WaitForRecovery(DeviceUnavailable)), Selected(s, obs, order));
      case EndpointAdded(_) =>
        SelectedIsSound(s, obs, order);
        PassNumbers(s, StartNow, Selected(s, obs, order));
      case ProcessExited(_) => SingleNumbers(s, ProcessLoopback, WaitForRecovery(ProcessNotFound));
      case ProcessRestarted(_, pid) =>
        if ProcessLoopback in s.bindings { SingleNumbers(WithNewPid(s, pid), ProcessLoopback, ResolveAndStart); }
      case WorkerStarted(kind, op, epoch, target) => ReportNumbers(s, kind, op, epoch, target, "");
      case WorkerStopped(kind, op, epoch) => ReportNumbers(s, kind, op, epoch, EndpointTarget(""), "");
      case WorkerFailed(kind, op, error) => ReportNumbers(s, kind, op, 0, EndpointTarget(""), error);
  }

  /** The effect ids of `b` are those of `a`, binding by binding, renamed by `q`. */
  ghost predicate EffectIdsRenamed(s: State, a: Outcome, b: Outcome, q: map<nat, nat>) {
    && b.state.nextEffectId == a.state.nextEffectId
    && forall k: BindingKind :: SameButRenumbered(EffectsFor(a.effects, k), EffectsFor(b.effects, k), s.nextEffectId, q)
  }

  ghost predicate SameButRenumbered(xs: seq<Effect>, ys: seq<Effect>, base: nat, q: map<nat, nat>) {
    && |ys| == |xs|
    && forall i :: 0 <= i < |xs| ==> ys[i].effectId == Renumber(xs[i].effectId, base, q)
  }

  /** The effects for `k` are the one at its place in the list, if it is there at all. */
  lemma EffectAtItsPlace(es: seq<Effect>, k: BindingKind)
    requires Distinct(Bindings(es))
    ensures k in Bindings(es) <==> EffectsFor(es, k) != []
    ensures k in Bindings(es) ==> EffectsFor(es, k) == [es[IndexOf(Bindings(es), k)]]
  {
    if k in Bindings(es) {
      var i := IndexOf(Bindings(es), k);
      EffectsForConcat(es[..i], es[i..], k);
      assert es == es[..i] + es[i..];
      assert EffectsFor(es[i..], k) == [es[i]] + EffectsFor(es[i..][1..], k);
      forall j | 0 <= j < |es| && j != i ensures es[j].binding != k {
        assert Bindings(es)[j] != Bindings(es)[i];
      }
      NoEffectsFor(es[..i], k);
      NoEffectsFor(es[i..][1..], k);
    } else {
      assert forall j :: 0 <= j < |es| ==> Bindings(es)[j] == es[j].binding && Bindings(es)[j] in Bindings(es);
      NoEffectsFor(es, k);
    }
  }

  lemma MatchEffects(s: State, x: Outcome, y: Outcome) returns (q: map<nat, nat>)
    requires Numbered(s, x) && Numbered(s, y)
    requires forall k: BindingKind :: |EffectsFor(x.effects, k)| == |EffectsFor(y.effects, k)|
    ensures Permutation(q, |x.effects|) && EffectIdsRenamed(s, x, y, q)
  {
    hide EffectsFor, IndexOf;
    var a, b := Bindings(x.effects), Bindings(y.effects);
    forall k: BindingKind ensures k in a <==> k in b {
      EffectAtItsPlace(x.effects, k);
      EffectAtItsPlace(y.effects, k);
    }
    q := MatchStarters(a, b);
    forall k: BindingKind
      ensures SameButRenumbered(EffectsFor(x.effects, k), EffectsFor(y.effects, k), s.nextEffectId, q)
    {
      EffectAtItsPlace(x.effects, k);
      EffectAtItsPlace(y.effects, k);
    }
  }

  lemma EquallyMany(s: State, x: Outcome, y: Outcome, p: map<nat, nat>)
    requires RenamedOutcome(s, x, y, p) && Frames(s, x.state, x.effects) && Frames(s, y.state, y.effects)
    ensures forall k: BindingKind :: |EffectsFor(x.effects, k)| == |EffectsFor(y.effects, k)|
  {
    forall k: BindingKind ensures |EffectsFor(x.effects, k)| == |EffectsFor(y.effects, k)| {
      if k in s.bindings {
        var xs, ys := EffectsFor(x.effects, k), EffectsFor(y.effects, k);
        assert |Unnumbered(ys)| == |RenamedEffects(Unnumbered(xs), s, p)|;
      } else {
        NoEffectsFor(x.effects, k);
        NoEffectsFor(y.effects, k);
      }
    }
  }

  /** For any two visiting orders, a decision yields the same state and, binding by binding, the
      same effects, up to one permutation of the operation ids and epochs it allocates and one of
      the effect ids. */
  lemma OrderOnlyRenumbers(s: State, input: DecisionInput, a: seq<BindingKind>, b: seq<BindingKind>)
    returns (p: map<nat, nat>, q: map<nat, nat>)
    requires WellFormed(s) && Visits(a, s.bindings.Keys) && Visits(b, s.bindings.Keys)
    ensures Agree(s, Decide(s, input, a), Decide(s, input, b), p)
    ensures var x, y := Decide(s, input, a), Decide(s, input, b);
            Permutation(q, |x.effects|) && EffectIdsRenamed(s, x, y, q)
  {
    hide Decide, WellFormed, Selected, RenamedState, Permutation, Numbered, EffectIdsRenamed, Frames;
    p := OperationsRenumbered(s, input, a, b);
    DecideFrames(s, input, a);
    DecideFrames(s, input, b);
    DecideNumbers(s, input, a);
    DecideNumbers(s, input, b);
    EquallyMany(s, Decide(s, input, a), Decide(s, input, b), p);
    q := MatchEffects(s, Decide(s, input, a), Decide(s, input, b));
  }

  lemma OperationsRenumbered(s: State, input: DecisionInput, a: seq<BindingKind>, b: seq<BindingKind>)
    returns (p: map<nat, nat>)
    requires WellFormed(s) && Visits(a, s.bindings.Keys) && Visits(b, s.bindings.Keys)
    ensures Agree(s, Decide(s, input, a), Decide(s, input, b), p)
  {
    hide Agree, Decide, WellFormed, Visits, Selected;
    if Sweeps(input) {
      match input
      case ShutdownRequested => p := ShutdownAgrees(s, a, b);
      case Observed(obs) =>
        match obs
        case DefaultEndpointChanged(flow, role, id) => p := DefaultAgrees(s, flow, role, id, a, b);
        case EndpointRemoved(id) => p := RemovedAgrees(s, id, a, b);
        case EndpointAdded(id) => p := AddedAgrees(s, id, a, b);
    } else {
      DecideFrames(s, input, a);
      p := SinglesAgree(s, input, a, b);
      AgreeFrom(s, Decide(s, input, a), Decide(s, input, b), p);
    }
  }

  /** Equal up to a permutation of the operation ids and epochs allocated since `s`. */
  ghost predicate Agree(s: State, x: Outcome, y: Outcome, p: map<nat, nat>) {
    && x.state.nextOperationId >= s.nextOperationId
    && Permutation(p, x.state.nextOperationId - s.nextOperationId)
    && RenamedOutcome(s, x, y, p)
  }

  lemma AgreeFrom(s: State, x: Outcome, y: Outcome, p: map<nat, nat>)
    requires x.state.nextOperationId >= s.nextOperationId
    requires Permutation(p, x.state.nextOperationId - s.nextOperationId) && RenamedOutcome(s, x, y, p)
    ensures Agree(s, x, y, p)
  {
  }

  lemma ShutdownAgrees(s: State, a: seq<BindingKind>, b: seq<BindingKind>) returns (p: map<nat, nat>)
    requires WellFormed(s) && Visits(a, s.bindings.Keys) && Visits(b, s.bindings.Keys)
    ensures Agree(s, Decide(s, ShutdownRequested, a), Decide(s, ShutdownRequested, b), p)
  {
    hide ReactAll, RenamedLifecycle, RenamedEffects, Unnumbered, BindingOk, Unshared;
    DecideFrames(s, ShutdownRequested, a);
    var m := s.(shutdown := true);
    BindingOkMoves(s, m);
    p := PassesAgree(m, StopThen(RemainStopped), a, b);
    RenamedFrom(s, m, Decide(s, ShutdownRequested, a), Decide(s, ShutdownRequested, b), p);
  }

  lemma DefaultAgrees(s: State, flow: DataFlow, role: DeviceRole, id: Option<EndpointId>, a: seq<BindingKind>,
                      b: seq<BindingKind>)
    returns (p: map<nat, nat>)
    requires WellFormed(s) && Visits(a, s.bindings.Keys) && Visits(b, s.bindings.Keys)
    ensures var input := Observed(DefaultEndpointChanged(flow, role, id));
            Agree(s, Decide(s, input, a), Decide(s, input, b), p)
  {
    hide ReactAll, RenamedLifecycle, RenamedEffects, Unnumbered, BindingOk, Unshared, Selected;
    var obs := DefaultEndpointChanged(flow, role, id);
    DecideFrames(s, Observed(obs), a);
    var m := s.(defaultRoutes := s.defaultRoutes[(flow, role) := id]);
    BindingOkMoves(s, m);
    SelectedIsSound(m, obs, a);
    SelectedIsSound(m, obs, b);
    p := PassesAgree(m, Rebind, Selected(m, obs, a), Selected(m, obs, b));
    RenamedFrom(s, m, Decide(s, Observed(obs), a), Decide(s, Observed(obs), b), p);
  }

  lemma RemovedAgrees(s: State, id: EndpointId, a: seq<BindingKind>, b: seq<BindingKind>) returns (p: map<nat, nat>)
    requires WellFormed(s) && Visits(a, s.bindings.Keys) && Visits(b, s.bindings.Keys)
    ensures var input := Observed(EndpointRemoved(id)); Agree(s, Decide(s, input, a), Decide(s, input, b), p)
  {
    hide ReactAll, RenamedLifecycle, RenamedEffects, Unnumbered, BindingOk, Unshared, Selected;
    var obs := EndpointRemoved(id);
    DecideFrames(s, Observed(obs), a);
    SelectedIsSound(s, obs, a);
    SelectedIsSound(s, obs, b);
    p := PassesAgree(s, StopThen(WaitForRecovery(DeviceUnavailable)), Selected(s, obs, a), Selected(s, obs, b));
  }

  lemma AddedAgrees(s: State, id: EndpointId, a: seq<BindingKind>, b: seq<BindingKind>) returns (p: map<nat, nat>)
    requires WellFormed(s) && Visits(a, s.bindings.Keys) && Visits(b, s.bindings.Keys)
    ensures var input := Observed(EndpointAdded(id)); Agree(s, Decide(s, input, a), Decide(s, input, b), p)
  {
    hide ReactAll, RenamedLifecycle, RenamedEffects, Unnumbered, BindingOk, Unshared, Selected;
    var obs := EndpointAdded(id);
    DecideFrames(s, Observed(obs), a);
    SelectedIsSound(s, obs, a);
    SelectedIsSound(s, obs, b);
    p := PassesAgree(s, StartNow, Selected(s, obs, a), Selected(s, obs, b));
  }

  lemma BindingOkMoves(s: State, m: State)
    requires WellFormed(s) && s.bindings == m.bindings
    requires s.nextOperationId == m.nextOperationId && s.nextStreamEpoch == m.nextStreamEpoch
    ensures forall k :: k in m.bindings ==> BindingOk(m, k)
  {
    forall k | k in m.bindings ensures BindingOk(m, k) {
      assert BindingOk(s, k);
    }
  }

  lemma RenamedFrom(s: State, m: State, x: Outcome, y: Outcome, p: map<nat, nat>)
    requires s.bindings == m.bindings && RenamedOutcome(m, x, y, p)
    requires s.nextOperationId == m.nextOperationId && s.nextStreamEpoch == m.nextStreamEpoch
    ensures RenamedOutcome(s, x, y, p)
  {
  }

  lemma SinglesAgree(s: State, input: DecisionInput, a: seq<BindingKind>, b: seq<BindingKind>)
      returns (p: map<nat, nat>)
    requires !Sweeps(input)
    ensures Decide(s, input, a).state.nextOperationId >= s.nextOperationId
    ensures Permutation(p, Decide(s, input, a).state.nextOperationId - s.nextOperationId)
    ensures RenamedOutcome(s, Decide(s, input, a), Decide(s, input, b), p)
  {
    DecideFrames(s, input, a);
    p := Identity(Decide(s, input, a).state.nextOperationId - s.nextOperationId);
    assert Decide(s, input, a) == Decide(s, input, b);
    IdentityRenames(s, Decide(s, input, a), p);
  }

  lemma Identity(n: nat) returns (p: map<nat, nat>)
    ensures Permutation(p, n) && forall i: nat :: i in p ==> p[i] == i
  {
    if n == 0 {
      p := map[];
    } else {
      p := Identity(n - 1);
      p := p[n - 1 := n - 1];
    }
  }

  lemma IdentityRenames(s: State, o: Outcome, p: map<nat, nat>)
    requires forall i: nat :: i in p ==> p[i] == i
    ensures RenamedOutcome(s, o, o, p)
  {
    forall k | k in s.bindings
      ensures Unnumbered(EffectsFor(o.effects, k)) == RenamedEffects(Unnumbered(EffectsFor(o.effects, k)), s, p)
    {
    }
  }

  /** Shutdown and a removed endpoint allocate no ids that reach the state, so their order
      does not show in the state at all. */
  lemma StopsIgnoreOrder(s: State, input: DecisionInput, a: seq<BindingKind>, b: seq<BindingKind>)
    requires WellFormed(s) && Visits(a, s.bindings.Keys) && Visits(b, s.bindings.Keys)
    requires input.ShutdownRequested? || (input.Observed? && input.observation.EndpointRemoved?)
    ensures Decide(s, input, a).state == Decide(s, input, b).state
  {
    hide Decide, RenamedLifecycle;
    var p := OperationsRenumbered(s, input, a, b);
    var x, y := Decide(s, input, a).state, Decide(s, input, b).state;
    DecideFrames(s, input, a);
    forall k | k in x.bindings ensures x.bindings[k] == y.bindings[k] {
      StopsStartNothing(s, input, a, k, p);
    }
    assert x.bindings == y.bindings;
  }

  lemma StopsStartNothing(s: State, input: DecisionInput, order: seq<BindingKind>, k: BindingKind, p: map<nat, nat>)
    requires WellFormed(s) && k in s.bindings
    requires input.ShutdownRequested? || (input.Observed? && input.observation.EndpointRemoved?)
    ensures var x := Decide(s, input, order).state;
            k in x.bindings && RenamedLifecycle(x.bindings[k].lifecycle, s, p) == x.bindings[k].lifecycle
  {
    assert BindingOk(s, k);
    match input
    case ShutdownRequested => StopsNeverBegin(s.(shutdown := true), StopThen(RemainStopped), order, k);
    case Observed(obs) =>
      StopsNeverBegin(s, StopThen(WaitForRecovery(DeviceUnavailable)), Selected(s, obs, order), k);
  }

  // ---- Shutdown ---------------------------------------------------------------------

  /** In every visiting order shutdown stops what runs, for good. */
  lemma ShutdownStopsRunning(s: State, order: seq<BindingKind>, k: BindingKind)
    requires Visits(order, s.bindings.Keys) && k in s.bindings && s.bindings[k].lifecycle.Running?
    ensures var s' := Decide(s, ShutdownRequested, order).state;
            && s'.shutdown && k in s'.bindings
            && var lc := s.bindings[k].lifecycle;
            s'.bindings[k].lifecycle == Stopping(lc.operationId, lc.epoch, RemainStopped)
  {
    var m := s.(shutdown := true);
    PassInClosedForm(m, StopThen(RemainStopped), order, k);
    ReactAllFrames(m, StopThen(RemainStopped), order);
  }

  lemma ShutdownRaisesFlag(s: State, order: seq<BindingKind>)
    ensures Decide(s, ShutdownRequested, order).state.shutdown
  {
    ReactAllFrames(s.(shutdown := true), StopThen(RemainStopped), order);
  }
}
