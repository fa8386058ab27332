/**
  Theorems about whole runs of the rebinding decision.

  A run feeds any inputs in any order; every turn also carries the order in which the
  binding map was visited. Nothing is assumed about the environment: worker reports may
  carry any ids and arrive at any time.
*/
module RebindingHistory {
  import opened Rebinding
  import opened RebindingMoves

  datatype Turn = Turn(input: DecisionInput, order: seq<BindingKind>)

  ghost function After(s: State, turns: seq<Turn>): State {
    if turns == [] then s
    else
      var last := turns[|turns| - 1];
      Decide(After(s, turns[..|turns| - 1]), last.input, last.order).state
  }

  ghost function Log(s: State, turns: seq<Turn>): seq<Effect> {
    if turns == [] then []
    else
      var front, last := turns[..|turns| - 1], turns[|turns| - 1];
      Log(s, front) + Decide(After(s, front), last.input, last.order).effects
  }

  ghost predicate Proper(s: State, turns: seq<Turn>) {
    forall i :: 0 <= i < |turns| ==> Visits(turns[i].order, s.bindings.Keys)
  }

  /** A state as the callers build it: every binding stopped, nothing failed yet. */
  ghost predicate Fresh(s: State) {
    !s.shutdown && forall k :: k in s.bindings ==>
      s.bindings[k].kind == k && s.bindings[k].lifecycle == Stopped && s.bindings[k].retryAttempt == 0
  }

  lemma {:induction false} RunsStayWellFormed(s: State, turns: seq<Turn>)
    requires WellFormed(s) && Proper(s, turns)
    ensures WellFormed(After(s, turns)) && After(s, turns).bindings.Keys == s.bindings.Keys
  {
    if turns != [] {
      var front, last := turns[..|turns| - 1], turns[|turns| - 1];
      RunsStayWellFormed(s, front);
      DecideKeepsWellFormed(After(s, front), last.input, last.order);
      DecideFrames(After(s, front), last.input, last.order);
    }
  }

  /** The last turn of a run, with everything `DecideMoves` says about it. */
  lemma LastTurn(s: State, turns: seq<Turn>, k: BindingKind)
    requires WellFormed(s) && Proper(s, turns) && turns != [] && k in s.bindings
    ensures var front, last := turns[..|turns| - 1], turns[|turns| - 1];
            var m := After(s, front);
            var o := Decide(m, last.input, last.order);
            && WellFormed(m) && WellFormed(o.state) && m.bindings.Keys == o.state.bindings.Keys == s.bindings.Keys
            && Frames(m, o.state, o.effects)
            && Moves(m, o.state, last.input, k, EffectsFor(o.effects, k))
            && After(s, turns) == o.state
            && EffectsFor(Log(s, turns), k) == EffectsFor(Log(s, front), k) + EffectsFor(o.effects, k)
  {
    hide Decide, Moves;
    var front, last := turns[..|turns| - 1], turns[|turns| - 1];
    var m := After(s, front);
    RunsStayWellFormed(s, front);
    RunsStayWellFormed(s, turns);
    DecideFrames(m, last.input, last.order);
    DecideMoves(m, last.input, last.order, k);
    EffectsForConcat(Log(s, front), Decide(m, last.input, last.order).effects, k);
  }

  // ---- Ids over a run ---------------------------------------------------------------

  /** `log` contains the start of the generation the binding is in. */
  ghost predicate HasStart(log: seq<Effect>, k: BindingKind, op: nat, epoch: nat) {
    exists i :: 0 <= i < |log| && log[i].StartCapture? && log[i].binding == k
                && log[i].operationId == op && log[i].epoch == epoch
  }

  ghost predicate HasStop(log: seq<Effect>, op: nat) {
    exists i :: 0 <= i < |log| && log[i].StopCapture? && log[i].operationId == op
  }

  ghost predicate StartsOrdered(log: seq<Effect>) {
    forall i, j :: 0 <= i < j < |log| && log[i].StartCapture? && log[j].StartCapture? ==>
      log[i].operationId < log[j].operationId && log[i].epoch < log[j].epoch
  }

  ghost predicate StopsPaired(log: seq<Effect>) {
    && (forall i, j :: 0 <= i < j < |log| && log[i].StopCapture? && log[j].StopCapture? ==>
          log[i].operationId != log[j].operationId)
    && (forall j :: 0 <= j < |log| && log[j].StopCapture? ==>
          HasStart(log[..j], log[j].binding, log[j].operationId, log[j].epoch))
  }

  /** What the effects emitted so far and the current state have to do with each other. */
  ghost predicate Recorded(s: State, log: seq<Effect>) {
    && StartsOrdered(log)
    && StopsPaired(log)
    && (forall i :: 0 <= i < |log| && log[i].StartCapture? ==>
          log[i].operationId < s.nextOperationId && log[i].epoch < s.nextStreamEpoch)
    && (forall i :: 0 <= i < |log| && log[i].StopCapture? ==> log[i].operationId < s.nextOperationId)
    && (forall k :: k in s.bindings && s.bindings[k].lifecycle.Holds() ==>
          HasStart(log, k, s.bindings[k].lifecycle.operationId, s.bindings[k].lifecycle.epoch))
    && (forall k :: k in s.bindings && s.bindings[k].lifecycle.Live() ==>
          !HasStop(log, s.bindings[k].lifecycle.operationId))
  }

  lemma OnlyEffect(es: seq<Effect>, i: nat)
    requires i < |es| && |EffectsFor(es, es[i].binding)| <= 1
    ensures EffectsFor(es, es[i].binding) == [es[i]]
  {
    var k := es[i].binding;
    EffectsForConcat(es[..i], es[i..], k);
    assert es == es[..i] + es[i..];
    assert EffectsFor(es[i..], k)[0] == es[i];
  }

  lemma TwiceMeansTwo(es: seq<Effect>, i: nat, j: nat)
    requires i < j < |es| && es[i].binding == es[j].binding
    ensures |EffectsFor(es, es[i].binding)| >= 2
  {
    var k := es[i].binding;
    EffectsForConcat(es[..j], es[j..], k);
    assert es == es[..j] + es[j..];
    EffectsForConcat(es[..i], es[i..j], k);
    assert es[..j] == es[..i] + es[i..j];
    assert EffectsFor(es[i..j], k)[0] == es[i] && EffectsFor(es[j..], k)[0] == es[j];
  }

  /** What a single effect of a decision says about its own binding. */
  lemma EffectMeans(s: State, input: DecisionInput, order: seq<BindingKind>, i: nat)
    requires WellFormed(s) && Visits(order, s.bindings.Keys)
    requires i < |Decide(s, input, order).effects|
    ensures var o := Decide(s, input, order);
            var e := o.effects[i];
            && e.binding in s.bindings && e.binding in o.state.bindings
            && EffectsFor(o.effects, e.binding) == [e]
            && (e.StopCapture? ==>
                  && s.bindings[e.binding].lifecycle.Running?
                  && s.bindings[e.binding].lifecycle.operationId == e.operationId
                  && s.bindings[e.binding].lifecycle.epoch == e.epoch)
  {
    hide Decide, Moves;
    var o := Decide(s, input, order);
    var k := o.effects[i].binding;
    DecideFrames(s, input, order);
    DecideMoves(s, input, order, k);
    MovesEmitAtMostOne(s, o.state, input, k, EffectsFor(o.effects, k));
    OnlyEffect(o.effects, i);
  }

  lemma MovesEmitAtMostOne(s: State, s': State, input: DecisionInput, k: BindingKind, es: seq<Effect>)
    requires k in s.bindings && k in s'.bindings && Moves(s, s', input, k, es)
    ensures |es| <= 1
    ensures |es| == 1 && es[0].StopCapture? ==> Halts(s.bindings[k], s'.bindings[k], es)
    ensures |es| == 1 && es[0].StartCapture? ==> Begins(s, s', s.bindings[k], s'.bindings[k], es)
    ensures s'.bindings[k].lifecycle.Live() && es == [] ==>
              && s.bindings[k].lifecycle.Live()
              && s.bindings[k].lifecycle.operationId == s'.bindings[k].lifecycle.operationId
              && s.bindings[k].lifecycle.epoch == s'.bindings[k].lifecycle.epoch
    ensures s'.bindings[k].lifecycle.Live() && es != [] ==> es[0].StartCapture?
  {
  }

  lemma StopsStayPaired(s: State, log: seq<Effect>, input: DecisionInput, order: seq<BindingKind>)
    requires WellFormed(s) && Visits(order, s.bindings.Keys) && Recorded(s, log)
    ensures StopsPaired(log + Decide(s, input, order).effects)
  {
    hide Decide;
    var es := Decide(s, input, order).effects;
    var all := log + es;
    forall i, j | 0 <= i < j < |all| && all[i].StopCapture? && all[j].StopCapture?
      ensures all[i].operationId != all[j].operationId
    {
      if |log| <= j {
        EffectMeans(s, input, order, j - |log|);
        if i < |log| {
          assert !HasStop(log, all[j].operationId);
        } else {
          EffectMeans(s, input, order, i - |log|);
          if all[i].binding == all[j].binding {
            TwiceMeansTwo(es, i - |log|, j - |log|);
          } else {
            assert Unshared(s, all[i].binding, all[j].binding);
          }
        }
      }
    }
    forall j | 0 <= j < |all| && all[j].StopCapture?
      ensures HasStart(all[..j], all[j].binding, all[j].operationId, all[j].epoch)
    {
      if j < |log| {
        assert all[..j] == log[..j];
      } else {
        EffectMeans(s, input, order, j - |log|);
        HasStartMonotone(log, all[..j], all[j].binding, all[j].operationId, all[j].epoch);
      }
    }
  }

  lemma HasStartMonotone(log: seq<Effect>, more: seq<Effect>, k: BindingKind, op: nat, epoch: nat)
    requires log <= more && HasStart(log, k, op, epoch)
    ensures HasStart(more, k, op, epoch)
  {
  }

  lemma StartsStayOrdered(s: State, log: seq<Effect>, input: DecisionInput, order: seq<BindingKind>)
    requires Recorded(s, log)
    ensures StartsOrdered(log + Decide(s, input, order).effects)
  {
    hide Decide;
    DecideFrames(s, input, order);
  }

  /** A binding that is live after a decision has its start, and no stop, in the log. */
  lemma LiveIsRecorded(s: State, log: seq<Effect>, input: DecisionInput, order: seq<BindingKind>, k: BindingKind)
    requires WellFormed(s) && Visits(order, s.bindings.Keys) && Recorded(s, log) && k in s.bindings
    ensures var o := Decide(s, input, order);
            && k in o.state.bindings
            && var lc := o.state.bindings[k].lifecycle;
            && (lc.Holds() ==> HasStart(log + o.effects, k, lc.operationId, lc.epoch))
            && (lc.Live() ==> !HasStop(log + o.effects, lc.operationId))
  {
    hide Decide, Moves;
    var o := Decide(s, input, order);
    DecideMoves(s, input, order, k);
    var lc, es := o.state.bindings[k].lifecycle, EffectsFor(o.effects, k);
    MovesEmitAtMostOne(s, o.state, input, k, es);
    assert BindingOk(s, k);
    if lc.Holds() {
      MovesHeld(s, o.state, input, k, es);
      if |es| == 1 && es[0].StartCapture? {
        var at := EffectsForFound(o.effects, k, 0);
        assert (log + o.effects)[|log| + at] == es[0];
      } else {
        HasStartMonotone(log, log + o.effects, k, lc.operationId, lc.epoch);
      }
    }
    if lc.Live() {
      forall i | 0 <= i < |log + o.effects| && (log + o.effects)[i].StopCapture?
        ensures (log + o.effects)[i].operationId != lc.operationId
      {
        if |log| <= i {
          EffectMeans(s, input, order, i - |log|);
          var j := o.effects[i - |log|].binding;
          assert BindingOk(s, j);
          if j != k { assert Unshared(s, j, k); }
        }
      }
    }
  }

  lemma DecideKeepsRecorded(s: State, log: seq<Effect>, input: DecisionInput, order: seq<BindingKind>)
    requires WellFormed(s) && Visits(order, s.bindings.Keys) && Recorded(s, log)
    ensures Recorded(Decide(s, input, order).state, log + Decide(s, input, order).effects)
  {
    hide Decide, HasStart, HasStop;
    var o := Decide(s, input, order);
    var all := log + o.effects;
    DecideFrames(s, input, order);
    StartsStayOrdered(s, log, input, order);
    StopsStayPaired(s, log, input, order);
    forall i | 0 <= i < |all| && all[i].StopCapture? ensures all[i].operationId < o.state.nextOperationId {
      if |log| <= i {
        EffectMeans(s, input, order, i - |log|);
        assert BindingOk(s, all[i].binding);
      }
    }
    forall k | k in o.state.bindings
      ensures var lc := o.state.bindings[k].lifecycle;
              && (lc.Holds() ==> HasStart(all, k, lc.operationId, lc.epoch))
              && (lc.Live() ==> !HasStop(all, lc.operationId))
    {
      LiveIsRecorded(s, log, input, order, k);
    }
  }

  lemma {:induction false} RunsAreRecorded(s: State, turns: seq<Turn>)
    requires Fresh(s) && Proper(s, turns)
    ensures Recorded(After(s, turns), Log(s, turns))
  {
    if turns != [] {
      var front, last := turns[..|turns| - 1], turns[|turns| - 1];
      RunsAreRecorded(s, front);
      RunsStayWellFormed(s, front);
      DecideKeepsRecorded(After(s, front), Log(s, front), last.input, last.order);
    }
  }

  /** Over any run, starts carry strictly ascending operation ids and epochs, and every stop
      follows the start of the same capture, at most once per start. */
  lemma GenerationsAreOrdered(s: State, turns: seq<Turn>)
    requires Fresh(s) && Proper(s, turns)
    ensures StartsOrdered(Log(s, turns)) && StopsPaired(Log(s, turns))
  {
    RunsAreRecorded(s, turns);
  }

  // ---- Between a stop and its completion --------------------------------------------

  /** From a stop until the matching `WorkerStopped`, a binding neither moves nor emits
      anything, whatever else is reported, requested or timed. */
  lemma {:induction false} StoppingWaitsForItsWorker(s: State, turns: seq<Turn>, k: BindingKind)
    requires WellFormed(s) && Proper(s, turns)
    requires k in s.bindings && s.bindings[k].lifecycle.Stopping?
    requires forall i :: 0 <= i < |turns| ==> !IsMatchingStop(turns[i].input, k, s.bindings[k].lifecycle)
    ensures k in After(s, turns).bindings
    ensures After(s, turns).bindings[k].lifecycle == s.bindings[k].lifecycle
    ensures EffectsFor(Log(s, turns), k) == []
  {
    hide Decide, Moves;
    if turns != [] {
      var front, last := turns[..|turns| - 1], turns[|turns| - 1];
      StoppingWaitsForItsWorker(s, front, k);
      LastTurn(s, turns, k);
      var m := After(s, front);
      var o := Decide(m, last.input, last.order);
      SettledStays(m, o.state, last.input, k, EffectsFor(o.effects, k));
    }
  }

  lemma SettledStays(s: State, s': State, input: DecisionInput, k: BindingKind, es: seq<Effect>)
    requires k in s.bindings && k in s'.bindings && Moves(s, s', input, k, es)
    requires s.bindings[k].lifecycle.Failed?
             || (s.bindings[k].lifecycle.Stopping? && !IsMatchingStop(input, k, s.bindings[k].lifecycle))
    ensures s'.bindings[k].lifecycle == s.bindings[k].lifecycle && es == []
  {
  }

  // ---- Superseded operations --------------------------------------------------------

  ghost predicate Superseded(s: State, op: nat) {
    op < s.nextOperationId && forall k :: k in s.bindings && s.bindings[k].lifecycle.Holds() ==>
      s.bindings[k].lifecycle.operationId != op
  }

  ghost predicate Reports(obs: Observation, op: nat) {
    (obs.WorkerStarted? || obs.WorkerStopped? || obs.WorkerFailed?) && obs.operationId == op
  }

  /** Once no binding carries an operation id, no report about it ever has any effect again. */
  lemma SupersededForever(s: State, turns: seq<Turn>, op: nat, obs: Observation, order: seq<BindingKind>)
    requires WellFormed(s) && Proper(s, turns) && Superseded(s, op) && Reports(obs, op)
    ensures Superseded(After(s, turns), op)
    ensures Decide(After(s, turns), Observed(obs), order) == Outcome(After(s, turns), [])
  {
    SupersededStays(s, turns, op);
  }

  lemma {:induction false} SupersededStays(s: State, turns: seq<Turn>, op: nat)
    requires WellFormed(s) && Proper(s, turns) && Superseded(s, op)
    ensures Superseded(After(s, turns), op)
  {
    hide Decide, Moves;
    if turns != [] {
      var front, last := turns[..|turns| - 1], turns[|turns| - 1];
      SupersededStays(s, front, op);
      RunsStayWellFormed(s, turns);
      var m, m' := After(s, front), After(s, turns);
      DecideFrames(m, last.input, last.order);
      forall k | k in m'.bindings && m'.bindings[k].lifecycle.Holds()
        ensures m'.bindings[k].lifecycle.operationId != op
      {
        LastTurn(s, turns, k);
        MovesHeld(m, m', last.input, k, EffectsFor(Decide(m, last.input, last.order).effects, k));
      }
    }
  }

  // ---- Epoch acceptance -------------------------------------------------------------

  /** Epoch `e` was handed out and no live binding carries it any more. */
  ghost predicate Retired(s: State, e: nat) {
    e < s.nextStreamEpoch && forall k :: k in s.bindings && s.bindings[k].lifecycle.Live() ==>
      s.bindings[k].lifecycle.epoch != e
  }

  lemma AcceptanceStep(s: State, input: DecisionInput, order: seq<BindingKind>, e: nat)
    requires WellFormed(s) && Visits(order, s.bindings.Keys)
    ensures var s' := Decide(s, input, order).state;
            && (Retired(s, e) ==> Retired(s', e))
            && (forall k :: s.AcceptsEpoch(k, e) ==> s'.AcceptsEpoch(k, e) || Retired(s', e))
  {
    hide Decide, Moves;
    var o := Decide(s, input, order);
    var s' := o.state;
    DecideFrames(s, input, order);
    forall k | k in s'.bindings
      ensures s'.bindings[k].lifecycle.Live() ==>
                || s'.bindings[k].lifecycle.epoch >= s.nextStreamEpoch
                || (s.bindings[k].lifecycle.Live() && s.bindings[k].lifecycle.epoch == s'.bindings[k].lifecycle.epoch)
      ensures s.bindings[k].lifecycle.Running? && s'.bindings[k].lifecycle.Live() ==>
                s'.bindings[k].lifecycle.Running? && s'.bindings[k].lifecycle.epoch == s.bindings[k].lifecycle.epoch
    {
      DecideMoves(s, input, order, k);
      MovesEmitAtMostOne(s, s', input, k, EffectsFor(o.effects, k));
      RunningStaysOrLeaves(s, s', input, k, EffectsFor(o.effects, k));
    }
    forall k | s.AcceptsEpoch(k, e) ensures s'.AcceptsEpoch(k, e) || Retired(s', e) {
      assert BindingOk(s, k);
      forall j | j in s'.bindings && j != k && s'.bindings[j].lifecycle.Live()
        ensures s'.bindings[j].lifecycle.epoch != e
      {
        assert Unshared(s, j, k);
      }
    }
  }

  lemma RunningStaysOrLeaves(s: State, s': State, input: DecisionInput, k: BindingKind, es: seq<Effect>)
    requires k in s.bindings && k in s'.bindings && Moves(s, s', input, k, es)
    ensures s.bindings[k].lifecycle.Running? && s'.bindings[k].lifecycle.Live() ==>
              s'.bindings[k].lifecycle.Running? && s'.bindings[k].lifecycle.epoch == s.bindings[k].lifecycle.epoch
  {
  }

  lemma {:induction false} AcceptedUntilRetired(s: State, turns: seq<Turn>, k: BindingKind, e: nat)
    requires WellFormed(s) && Proper(s, turns)
    requires s.AcceptsEpoch(k, e) || Retired(s, e)
    ensures (s.AcceptsEpoch(k, e) && After(s, turns).AcceptsEpoch(k, e)) || Retired(After(s, turns), e)
  {
    hide Decide;
    if turns != [] {
      var front, last := turns[..|turns| - 1], turns[|turns| - 1];
      AcceptedUntilRetired(s, front, k, e);
      RunsStayWellFormed(s, front);
      AcceptanceStep(After(s, front), last.input, last.order, e);
    }
  }

  lemma {:induction false} AfterSplit(s: State, turns: seq<Turn>, i: nat)
    requires i <= |turns|
    ensures After(s, turns) == After(After(s, turns[..i]), turns[i..])
  {
    if i < |turns| {
      var front := turns[..|turns| - 1];
      AfterSplit(s, front, i);
      assert front[..i] == turns[..i];
      assert turns[i..][..|turns[i..]| - 1] == front[i..];
    } else {
      assert turns[..i] == turns;
    }
  }

  lemma AcceptedSegment(s: State, turns: seq<Turn>, i: nat, m: nat, k: BindingKind, e: nat)
    requires WellFormed(s) && Proper(s, turns) && i <= m <= |turns|
    requires After(s, turns[..i]).AcceptsEpoch(k, e) || Retired(After(s, turns[..i]), e)
    ensures (After(s, turns[..i]).AcceptsEpoch(k, e) && After(s, turns[..m]).AcceptsEpoch(k, e))
            || Retired(After(s, turns[..m]), e)
  {
    hide Decide, WellFormed, Visits;
    var si, mid := After(s, turns[..i]), turns[i..m];
    RunsStayWellFormed(s, turns[..i]);
    AfterSplit(s, turns[..m], i);
    assert turns[..m][..i] == turns[..i] && turns[..m][i..] == mid;
    forall x | 0 <= x < |mid| ensures Visits(mid[x].order, si.bindings.Keys) {
      assert mid[x] == turns[i + x];
    }
    AcceptedUntilRetired(si, mid, k, e);
  }

  /** At any moment an epoch is accepted for at most one binding. */
  lemma OneAcceptor(s: State, j: BindingKind, k: BindingKind, e: nat)
    requires WellFormed(s) && s.AcceptsEpoch(j, e) && s.AcceptsEpoch(k, e)
    ensures j == k
  {
    assert j == k || Unshared(s, j, k);
  }

  /** The moments at which one epoch is accepted form one contiguous interval of one binding. */
  lemma AcceptanceIsOneInterval(s: State, turns: seq<Turn>, i: nat, m: nat, j: nat,
                                first: BindingKind, last: BindingKind, e: nat)
    requires WellFormed(s) && Proper(s, turns) && i <= m <= j <= |turns|
    requires After(s, turns[..i]).AcceptsEpoch(first, e)
    requires After(s, turns[..j]).AcceptsEpoch(last, e)
    ensures first == last
    ensures After(s, turns[..m]).AcceptsEpoch(first, e)
  {
    hide Decide, After;
    var sj := After(s, turns[..j]);
    RunsStayWellFormed(s, turns[..j]);
    AcceptedSegment(s, turns, i, m, first, e);
    AcceptedSegment(s, turns, m, j, first, e);
    OneAcceptor(sj, first, last, e);
  }

  // ---- Retries ----------------------------------------------------------------------

  ghost function StartCount(es: seq<Effect>): nat {
    if es == [] then 0 else StartCount(es[..|es| - 1]) + if es[|es| - 1].StartCapture? then 1 else 0
  }

  lemma {:induction false} StartCountConcat(a: seq<Effect>, b: seq<Effect>)
    ensures StartCount(a + b) == StartCount(a) + StartCount(b)
  {
    if b == [] {
      assert a + b == a;
    } else {
      StartCountConcat(a, b[..|b| - 1]);
      assert (a + b)[..|a + b| - 1] == a + b[..|b| - 1];
    }
  }

  /** How many more starts a binding can get before a start of its own succeeds. */
  ghost function StartBudget(b: CaptureBinding): int {
    match b.lifecycle
    case Failed(_, _) => 0
    case Starting(_, _, _) => MAX_RETRY_ATTEMPTS - b.retryAttempt
    case _ => MAX_RETRY_ATTEMPTS + 1 - b.retryAttempt
  }

  ghost predicate AcceptedStart(s: State, input: DecisionInput, k: BindingKind) {
    k in s.bindings && s.bindings[k].lifecycle.Starting? && input.Observed?
    && input.observation.WorkerStarted? && input.observation.binding == k
    && input.observation.operationId == s.bindings[k].lifecycle.operationId
    && input.observation.epoch == s.bindings[k].lifecycle.epoch
  }

  lemma BudgetStep(s: State, s': State, input: DecisionInput, k: BindingKind, es: seq<Effect>)
    requires k in s.bindings && k in s'.bindings && Moves(s, s', input, k, es)
    requires BindingOk(s, k) && !AcceptedStart(s, input, k)
    ensures StartCount(es) + StartBudget(s'.bindings[k]) <= StartBudget(s.bindings[k])
  {
    MovesEmitAtMostOne(s, s', input, k, es);
    if |es| == 1 {
      assert es[..0] == [];
      assert StartCount(es) == if es[0].StartCapture? then 1 else 0;
    }
  }

  /** A run in which no start of `k` succeeds. */
  ghost predicate NeverComesUp(s: State, turns: seq<Turn>, k: BindingKind) {
    forall i :: 0 <= i < |turns| ==> !AcceptedStart(After(s, turns[..i]), turns[i].input, k)
  }

  lemma {:induction false} BudgetOverRun(s: State, turns: seq<Turn>, k: BindingKind)
    requires WellFormed(s) && Proper(s, turns) && k in s.bindings && NeverComesUp(s, turns, k)
    ensures k in After(s, turns).bindings
    ensures StartCount(EffectsFor(Log(s, turns), k)) + StartBudget(After(s, turns).bindings[k])
            <= StartBudget(s.bindings[k])
  {
    hide Decide, Moves;
    if turns != [] {
      var n := |turns| - 1;
      var front, last := turns[..n], turns[n];
      forall i | 0 <= i < |front| ensures !AcceptedStart(After(s, front[..i]), front[i].input, k) {
        assert front[..i] == turns[..i];
      }
      BudgetOverRun(s, front, k);
      LastTurn(s, turns, k);
      var m := After(s, front);
      var o := Decide(m, last.input, last.order);
      assert !AcceptedStart(After(s, turns[..n]), turns[n].input, k);
      assert BindingOk(m, k);
      BudgetStep(m, o.state, last.input, k, EffectsFor(o.effects, k));
      StartCountConcat(EffectsFor(Log(s, front), k), EffectsFor(o.effects, k));
    }
  }

  /** Without a successful start a binding is started at most MAX_RETRY_ATTEMPTS + 1 times,
      however many device events, timers and requests arrive. */
  lemma StartsAreBounded(s: State, turns: seq<Turn>, k: BindingKind)
    requires WellFormed(s) && Proper(s, turns) && k in s.bindings && NeverComesUp(s, turns, k)
    ensures StartCount(EffectsFor(Log(s, turns), k)) <= MAX_RETRY_ATTEMPTS + 1
  {
    BudgetOverRun(s, turns, k);
    RunsStayWellFormed(s, turns);
    assert BindingOk(s, k) && BindingOk(After(s, turns), k);
  }

  /** Failed is reached exactly when the counter passes the cap. */
  lemma FailedMeansExhausted(s: State, turns: seq<Turn>, k: BindingKind)
    requires Fresh(s) && Proper(s, turns) && k in s.bindings
    ensures k in After(s, turns).bindings
    ensures After(s, turns).bindings[k].lifecycle.Failed? <==>
              After(s, turns).bindings[k].retryAttempt > MAX_RETRY_ATTEMPTS
  {
    RunsStayWellFormed(s, turns);
    assert BindingOk(After(s, turns), k);
  }

  /** Failed is absorbing and emits nothing. */
  lemma {:induction false} FailedIsFinal(s: State, turns: seq<Turn>, k: BindingKind)
    requires WellFormed(s) && Proper(s, turns) && k in s.bindings && s.bindings[k].lifecycle.Failed?
    ensures k in After(s, turns).bindings
    ensures After(s, turns).bindings[k].lifecycle == s.bindings[k].lifecycle
    ensures EffectsFor(Log(s, turns), k) == []
  {
    hide Decide, Moves;
    if turns != [] {
      var front, last := turns[..|turns| - 1], turns[|turns| - 1];
      FailedIsFinal(s, front, k);
      LastTurn(s, turns, k);
      var m := After(s, front);
      var o := Decide(m, last.input, last.order);
      SettledStays(m, o.state, last.input, k, EffectsFor(o.effects, k));
    }
  }

  // ---- Shutdown ---------------------------------------------------------------------

  ghost function Rank(lifecycle: Lifecycle): nat {
    match lifecycle
    case Starting(_, _, _) => 3
    case Running(_, _, _) => 2
    case Stopping(_, _, _) => 1
    case _ => 0
  }

  /** After shutdown nothing is ever started, and a binding only moves down in rank. */
  lemma {:induction false} ShutdownQuiesces(s: State, turns: seq<Turn>, k: BindingKind)
    requires WellFormed(s) && Proper(s, turns) && s.shutdown && k in s.bindings
    ensures After(s, turns).shutdown && k in After(s, turns).bindings
    ensures StartCount(EffectsFor(Log(s, turns), k)) == 0
    ensures var lc, lc' := s.bindings[k].lifecycle, After(s, turns).bindings[k].lifecycle;
            lc' == lc || Rank(lc') < Rank(lc)
  {
    hide Decide, Moves;
    if turns != [] {
      var front, last := turns[..|turns| - 1], turns[|turns| - 1];
      ShutdownQuiesces(s, front, k);
      LastTurn(s, turns, k);
      var m := After(s, front);
      var o := Decide(m, last.input, last.order);
      ShutdownStep(m, o.state, last.input, k, EffectsFor(o.effects, k));
      StartCountConcat(EffectsFor(Log(s, front), k), EffectsFor(o.effects, k));
    }
  }

  lemma ShutdownStep(s: State, s': State, input: DecisionInput, k: BindingKind, es: seq<Effect>)
    requires k in s.bindings && k in s'.bindings && Moves(s, s', input, k, es) && s.shutdown
    ensures StartCount(es) == 0
    ensures var lc, lc' := s.bindings[k].lifecycle, s'.bindings[k].lifecycle;
            lc' == lc || Rank(lc') < Rank(lc)
  {
    MovesEmitAtMostOne(s, s', input, k, es);
    if |es| == 1 {
      assert es[..0] == [];
      assert StartCount(es) == if es[0].StartCapture? then 1 else 0;
    }
  }
}
