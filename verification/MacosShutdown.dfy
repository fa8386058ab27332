/**
  Shutting the macOS supervisor down: what ran is stopped at once, and the drain that follows only
  waits for the threads of torn-down streams.
*/
module MacosShutdown {
  import opened Rebinding
  import opened RebindingMoves
  import IterationOrder
  import opened MacosModel
  import opened MacosProofs
  import opened MacosStreams

  /** Whatever runs when shutdown is requested is stopped by that one step, and nothing is started
      afterwards. */
  lemma ShutdownStopsAtOnce(s: Supervisor, orders: seq<seq<BindingKind>>, k: BindingKind)
    requires PinnedOk(s) && Orders(s, ShutdownSignal, orders)
    requires k in s.state.bindings && s.state.bindings[k].lifecycle.Running?
    ensures var s' := Step(s, ShutdownSignal, orders);
            && k in s'.state.bindings && s'.state.bindings[k].lifecycle.Stopped? && k !in s'.workers
  {
    hide PinnedOk, Step, Decide;
    assert orders == [orders[0]];
    DecidesOne(s.state, ShutdownRequested, orders[0]);
    IterationOrder.ShutdownStopsRunning(s.state, orders[0], k);
    BatchRests(s, ShutdownSignal, orders, k);
    StepMovesStream(s, ShutdownSignal, orders);
    NotInTable(Step(s, ShutdownSignal, orders), k);
  }

  lemma NotInTable(s: Supervisor, k: BindingKind)
    requires PinnedOk(s) && k in s.state.bindings && s.state.bindings[k].lifecycle.Stopped?
    ensures k !in s.workers
  {
    assert TableOk(s, k);
  }

  /** `trace` drains: every step reports one outstanding join. */
  ghost predicate IsDrain(trace: seq<Supervisor>, deliveries: seq<Delivery>) {
    IsRun(trace, deliveries) && forall i :: 0 <= i < |deliveries| ==> deliveries[i].event.JoinDone?
  }

  /** One report while draining: one join fewer to wait for, and nothing else. */
  lemma DrainStep(s: Supervisor, thread: nat)
    requires ThreadsAccounted(s) && thread in s.joining
    ensures var s' := Step(s, JoinDone(thread), []);
            && ThreadsAccounted(s') && s'.pendingJoins == s.pendingJoins - 1
            && s'.state == s.state && s'.workers == s.workers && s'.active == s.active
            && s'.timers == s.timers && s'.nextThread == s.nextThread
  {
    assert |s.joining - {thread}| == |s.joining| - 1;
  }

  lemma {:induction false} DrainProgress(trace: seq<Supervisor>, deliveries: seq<Delivery>, n: nat)
    requires IsDrain(trace, deliveries) && ThreadsAccounted(trace[0]) && n <= |deliveries|
    ensures var s, s' := trace[0], trace[n];
            && ThreadsAccounted(s') && s'.pendingJoins == s.pendingJoins - n
            && s'.state == s.state && s'.workers == s.workers && s'.active == s.active
            && s'.nextThread == s.nextThread
  {
    hide ThreadsAccounted, Step;
    if n > 0 {
      DrainProgress(trace, deliveries, n - 1);
      var d := deliveries[n - 1];
      assert IsStep(trace[n - 1], d, trace[n]);
      assert d.orders == [];
      DrainStep(trace[n - 1], d.event.thread);
    }
  }

  /** Shutdown, then draining: at most `pending_joins` reports are waited for; whatever ran is
      stopped throughout; once all reports are in, every thread ever spawned has been joined, save
      that of a stream that still serves a starting binding. */
  lemma DrainingJoinsWhatRan(s: Supervisor, orders: seq<seq<BindingKind>>, trace: seq<Supervisor>,
                             deliveries: seq<Delivery>)
    requires PinnedOk(s) && Orders(s, ShutdownSignal, orders)
    requires IsDrain(trace, deliveries) && trace[0] == Step(s, ShutdownSignal, orders)
    ensures var last := trace[|deliveries|];
            && |deliveries| <= trace[0].pendingJoins
            && last.pendingJoins == trace[0].pendingJoins - |deliveries|
            && (forall k :: k in s.state.bindings && s.state.bindings[k].lifecycle.Running? ==>
                  k in last.state.bindings && last.state.bindings[k].lifecycle.Stopped?)
            && (last.pendingJoins == 0 ==>
                  forall t: nat :: t < last.nextThread ==> t in last.joined || Serves(last, t))
            && (last.active.Some? ==> exists k :: k in last.workers && StillStarting(last.state, k))
  {
    hide Step, PinnedOk;
    var first, last := trace[0], trace[|deliveries|];
    StepMovesStream(s, ShutdownSignal, orders);
    assert ThreadsAccounted(first) by { ThreadsOf(first); }
    DrainProgress(trace, deliveries, |deliveries|);
    forall k | k in s.state.bindings && s.state.bindings[k].lifecycle.Running?
      ensures k in last.state.bindings && last.state.bindings[k].lifecycle.Stopped?
    {
      ShutdownStopsAtOnce(s, orders, k);
    }
    if last.pendingJoins == 0 {
      NobodyJoining(last);
    }
    if last.active.Some? {
      SomeoneStarting(s, orders);
    }
  }

  /** `t` is the thread of the active stream. */
  ghost predicate Serves(s: Supervisor, t: nat) {
    s.active.Some? && s.active.value.thread == t
  }

  ghost predicate StillStarting(s: State, k: BindingKind) {
    k in s.bindings && s.bindings[k].lifecycle.Starting?
  }

  lemma ThreadsOf(s: Supervisor)
    requires PinnedOk(s)
    ensures ThreadsAccounted(s)
  {
  }

  lemma NobodyJoining(s: Supervisor)
    requires ThreadsAccounted(s) && s.pendingJoins == 0
    ensures forall t: nat :: t < s.nextThread ==> t in s.joined || Serves(s, t)
  {
    assert s.joining == {};
  }

  /** A stream that outlives shutdown has a binding in the table, and all of those are starting. */
  lemma SomeoneStarting(s: Supervisor, orders: seq<seq<BindingKind>>)
    requires PinnedOk(s) && Orders(s, ShutdownSignal, orders)
    ensures var s' := Step(s, ShutdownSignal, orders);
            s'.active.Some? ==> exists k :: k in s'.workers && StillStarting(s'.state, k)
  {
    hide Step;
    var s' := Step(s, ShutdownSignal, orders);
    StepMovesStream(s, ShutdownSignal, orders);
    if s'.active.Some? {
      var k := SomeWorker(s');
      NoneRuns(s, orders, k);
      assert StillStarting(s'.state, k);
    }
  }

  lemma SomeWorker(s: Supervisor) returns (k: BindingKind)
    requires PinnedOk(s) && s.active.Some?
    ensures k in s.workers && k in s.state.bindings && s.state.bindings[k].lifecycle.Live()
  {
    if StreamCurrent(s) {
      k :| k in s.active.value.bindings;
    } else {
      k :| Matched(s, k);
    }
    assert TableOk(s, k);
  }

  lemma NoneRuns(s: Supervisor, orders: seq<seq<BindingKind>>, k: BindingKind)
    requires PinnedOk(s) && Orders(s, ShutdownSignal, orders)
    requires k in Step(s, ShutdownSignal, orders).state.bindings
    ensures !Step(s, ShutdownSignal, orders).state.bindings[k].lifecycle.Running?
  {
    hide PinnedOk, Step, DecideAll;
    ReadyToDecide(s, ShutdownSignal, orders);
    BatchFrames(s.state, Batch(ShutdownSignal), orders);
    var decided := DecideAll(s.state, Batch(ShutdownSignal), orders).state;
    BatchKeys(s, orders);
    assert NotStopping(s, k);
    BatchStops(s.state, Batch(ShutdownSignal), orders, k);
    BatchRests(s, ShutdownSignal, orders, k);
    if s.state.bindings[k].lifecycle.Running? {
      HaltsInBatch(ShutdownSignal, s.state.bindings[k].lifecycle);
    }
  }

  lemma BatchKeys(s: Supervisor, orders: seq<seq<BindingKind>>)
    requires PinnedOk(s) && Orders(s, ShutdownSignal, orders)
    ensures Step(s, ShutdownSignal, orders).state.bindings.Keys == s.state.bindings.Keys
  {
    hide PinnedOk, DecideAll, ApplyAll, PendingOk, NoRestart, PinnedOnly, Step, Visits;
    var m, o := Decided(s, ShutdownSignal, orders), DecideAll(s.state, Batch(ShutdownSignal), orders);
    BatchIsPending(s, ShutdownSignal, orders);
    AppliedState(m, o.effects);
    ExecuteKeepsState(m, o.effects);
  }
}
