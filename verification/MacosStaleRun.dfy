/**
  A run of the macOS supervisor that ends with a stream that serves a retired generation: both
  bindings run, the microphone's error comes in, and its retry fires before the error of its
  sibling does.
*/
module MacosStaleRun {
  import opened Prelude
  import opened Rebinding
  import opened MacosModel
  import opened MacosProofs
  import opened MacosStreams

  // ---- The states -------------------------------------------------------------------

  function Bound(kind: BindingKind, id: EndpointId, lc: Lifecycle, retryAttempt: nat): CaptureBinding {
    CaptureBinding(kind, Endpoint(Pinned(id)), lc, retryAttempt)
  }

  /** Both bindings pinned, to "m" and "r"; operations and epochs are numbered alike. */
  function Both(m: Lifecycle, attempt: nat, r: Lifecycle, ids: nat, effects: nat): State {
    State(map[Microphone := Bound(Microphone, "m", m, attempt), EndpointLoopback := Bound(EndpointLoopback, "r", r, 0)],
          map[], ids, ids, effects, false)
  }

  const MIC: Worker := Worker(0, 0, EndpointTarget("m"))
  const LOOP: Worker := Worker(1, 1, EndpointTarget("r"))
  const RETRIED: Worker := Worker(2, 2, EndpointTarget("m"))
  const TABLE: map<BindingKind, Worker> := map[Microphone := MIC, EndpointLoopback := LOOP]

  function Serving(state: State, workers: map<BindingKind, Worker>, timers: multiset<(BindingKind, nat)>): Supervisor {
    Supervisor(state, workers, Some(BuildStream(TABLE, 0)), 0, {}, {}, timers, 1)
  }

  function Pinned0(): Supervisor {
    Supervisor(Both(Stopped, 0, Stopped, 0, 0), map[], None, 0, {}, {}, multiset{}, 0)
  }

  function Started(): Supervisor {
    Serving(Both(Starting(0, 0, EndpointTarget("m")), 0, Starting(1, 1, EndpointTarget("r")), 2, 2), TABLE, multiset{})
  }

  function MicUp(): Supervisor {
    Serving(Both(Running(0, 0, EndpointTarget("m")), 0, Starting(1, 1, EndpointTarget("r")), 2, 2), TABLE, multiset{})
  }

  function BothUp(): Supervisor {
    Serving(Both(Running(0, 0, EndpointTarget("m")), 0, Running(1, 1, EndpointTarget("r")), 2, 2), TABLE, multiset{})
  }

  function MicDown(): Supervisor {
    Serving(Both(Waiting(RetryableFailure(1)), 1, Running(1, 1, EndpointTarget("r")), 2, 3),
            map[EndpointLoopback := LOOP], multiset{(Microphone, 1)})
  }

  function MicBack(): Supervisor {
    Serving(Both(Starting(2, 2, EndpointTarget("m")), 1, Running(1, 1, EndpointTarget("r")), 3, 4),
            map[Microphone := RETRIED, EndpointLoopback := LOOP], multiset{})
  }

  // ---- The steps --------------------------------------------------------------------

  const ORDER: seq<BindingKind> := [Microphone, EndpointLoopback]

  lemma StartsBoth()
    ensures Step(Pinned0(), StartAll, [ORDER, ORDER]) == Started()
  {
    hide Execute;
    var s := Pinned0().state;
    var first := StartCapture(0, Microphone, 0, 0, EndpointTarget("m"));
    var second := StartCapture(1, EndpointLoopback, 1, 1, EndpointTarget("r"));
    var middle := Both(Starting(0, 0, EndpointTarget("m")), 0, Stopped, 1, 1);
    assert StartBinding(s, Microphone) == Outcome(middle, [first]);
    assert StartBinding(middle, EndpointLoopback) == Outcome(Started().state, [second]);
    DecidesTwo(s, UserStart(Microphone), UserStart(EndpointLoopback), ORDER);
    assert [first] + [second] == [first, second];
    StartsTwo(Pinned0().(state := Started().state), first, second);
  }

  lemma DecidesTwo(s: State, a: DecisionInput, b: DecisionInput, order: seq<BindingKind>)
    ensures var x := Decide(s, a, order);
            var y := Decide(x.state, b, order);
            DecideAll(s, [a, b], [order, order]) == Outcome(y.state, x.effects + y.effects)
  {
    hide Decide;
    DecidesOne(s, a, order);
    assert [a, b][..1] == [a] && [order, order][..1] == [order];
  }

  lemma StartsTwo(s: Supervisor, a: Effect, b: Effect)
    requires a.StartCapture? && b.StartCapture?
    ensures Execute(s, [a, b]) == Reconcile(s.(workers := s.workers
              [a.binding := Worker(a.operationId, a.epoch, a.target)]
              [b.binding := Worker(b.operationId, b.epoch, b.target)]))
  {
    hide Reconcile;
    assert [a, b][0] == a && [a, b][1..] == [b] && [b][0] == b && [b][1..] == [];
    var s1 := s.(workers := s.workers[a.binding := Worker(a.operationId, a.epoch, a.target)]);
    var s2 := s1.(workers := s1.workers[b.binding := Worker(b.operationId, b.epoch, b.target)]);
    NothingExecutes(s2);
    assert ApplyAll(s1, [b]) == s2;
    assert ChangesBindings([a, b]);
  }

  lemma ComesUp(s: Supervisor, k: BindingKind, state: State)
    requires k in s.workers
    requires OnWorkerStarted(s.state, k, s.workers[k].operationId, s.workers[k].epoch, s.workers[k].target)
             == Outcome(state, [])
    ensures Step(s, StreamStarted(k), []) == s.(state := state)
  {
    NothingExecutes(s.(state := state));
  }

  lemma BothComeUp()
    ensures Step(Started(), StreamStarted(Microphone), []) == MicUp()
    ensures Step(MicUp(), StreamStarted(EndpointLoopback), []) == BothUp()
  {
    hide Execute;
    ComesUp(Started(), Microphone, MicUp().state);
    ComesUp(MicUp(), EndpointLoopback, BothUp().state);
  }

  lemma MicFails()
    ensures Step(BothUp(), StreamError(Microphone, "died"), []) == MicDown()
  {
    hide Execute;
    var s := BothUp();
    var o := OnWorkerFailed(s.state, Microphone, 0, "died");
    assert o == Outcome(MicDown().state, [ScheduleRetry(2, Microphone, 1, 1)]);
    var m := s.(state := o.state, workers := s.workers - {Microphone});
    FailedExecutes(m, Microphone, o);
    assert s.workers - {Microphone} == map[EndpointLoopback := LOOP];
    assert Execute(m, o.effects) == MicDown();
    assert Matched(MicDown(), EndpointLoopback);
    AwaitsMatched(MicDown());
  }

  lemma MicRetries()
    ensures Step(MicDown(), RetryDue(Microphone, 1), [ORDER]) == MicBack()
  {
    hide Execute;
    var s := MicDown();
    var e := StartCapture(3, Microphone, 2, 2, EndpointTarget("m"));
    assert OnRetryTimer(s.state, Microphone, 1) == Outcome(MicBack().state, [e]);
    DecidesOne(s.state, RetryTimerFired(Microphone, 1), ORDER);
    assert multiset{(Microphone, 1)} - multiset{(Microphone, 1)} == multiset{};
    var m := s.(timers := multiset{}, state := MicBack().state);
    StartsOne(m, e);
    assert m.workers[Microphone := RETRIED].Keys == {Microphone, EndpointLoopback} == Served(m);
  }

  lemma StartsOne(s: Supervisor, e: Effect)
    requires e.StartCapture?
    ensures Execute(s, [e])
            == Reconcile(s.(workers := s.workers[e.binding := Worker(e.operationId, e.epoch, e.target)]))
  {
    hide Reconcile;
    assert [e][0] == e && [e][1..] == [];
    NothingExecutes(s.(workers := s.workers[e.binding := Worker(e.operationId, e.epoch, e.target)]));
    assert ChangesBindings([e]);
  }

  lemma StepsAreRun()
    ensures IsStep(Pinned0(), Delivery(StartAll, [ORDER, ORDER]), Started())
    ensures IsStep(Started(), Delivery(StreamStarted(Microphone), []), MicUp())
    ensures IsStep(MicUp(), Delivery(StreamStarted(EndpointLoopback), []), BothUp())
    ensures IsStep(BothUp(), Delivery(StreamError(Microphone, "died"), []), MicDown())
    ensures IsStep(MicDown(), Delivery(RetryDue(Microphone, 1), [ORDER]), MicBack())
  {
    hide Step;
    StartsBoth();
    BothComeUp();
    MicFails();
    MicRetries();
  }

  lemma BackIsStale()
    ensures JustPinned(Pinned0())
    ensures var s := MicBack();
            && !StreamCurrent(s) && s.workers.Keys == Served(s) && Microphone in s.workers
            && s.active.value.HandedEpoch(Microphone) == Some(0) && s.workers[Microphone].epoch == 2
  {
    assert MicBack().workers.Keys == {Microphone, EndpointLoopback} == Served(MicBack());
    StaleId(MicBack(), Microphone);
  }

  /** From two pinned bindings, by five events: the sets of bindings are equal again, so the stream
      stays, and stamps the microphone with epoch 0, while its worker has epoch 2. */
  lemma RetryLeavesStaleStream()
    ensures exists trace: seq<Supervisor>, deliveries: seq<Delivery> ::
              && IsRun(trace, deliveries) && JustPinned(trace[0]) && |deliveries| == 5
              && var s := trace[5];
                 && !StreamCurrent(s) && s.workers.Keys == Served(s) && Microphone in s.workers
                 && s.active.value.HandedEpoch(Microphone) == Some(0) && s.workers[Microphone].epoch == 2
  {
    hide IsStep, JustPinned, StreamCurrent;
    StepsAreRun();
    BackIsStale();
    var trace := [Pinned0(), Started(), MicUp(), BothUp(), MicDown(), MicBack()];
    var deliveries := [Delivery(StartAll, [ORDER, ORDER]), Delivery(StreamStarted(Microphone), []),
                       Delivery(StreamStarted(EndpointLoopback), []), Delivery(StreamError(Microphone, "died"), []),
                       Delivery(RetryDue(Microphone, 1), [ORDER])];
    assert IsRun(trace, deliveries) by {
      forall i | 0 <= i < |deliveries| ensures IsStep(trace[i], deliveries[i], trace[i + 1]) {
        assert i == 0 || i == 1 || i == 2 || i == 3 || i == 4;
      }
    }
    assert trace[0] == Pinned0() && trace[5] == MicBack();
  }
}
