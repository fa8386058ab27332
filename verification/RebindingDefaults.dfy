/**
  Is a running follower on the default that it follows?

  Not always: a default that changes while a start is under way is only recorded
  (rebinding.rs:564-567), and the start report does not look at it again (rebinding.rs:643-670).
  Here is such a run, and the exact condition.
*/
module RebindingDefaults {
  import opened Prelude
  import opened Rebinding
  import opened RebindingMoves
  import opened RebindingHistory
  import opened RebindingResponses
  import opened RebindingRecovery

  /** The binding runs on what is the default now. */
  ghost predicate OnDefault(s: State, k: BindingKind, flow: DataFlow, role: DeviceRole) {
    && k in s.bindings && s.bindings[k].lifecycle.Running?
    && (flow, role) in s.defaultRoutes
    && TargetOf(s.defaultRoutes[(flow, role)]) == Some(s.bindings[k].lifecycle.target)
  }

  ghost predicate ChangesDefault(input: DecisionInput, flow: DataFlow, role: DeviceRole) {
    && input.Observed? && input.observation.DefaultEndpointChanged?
    && input.observation.flow == flow && input.observation.role == role
  }

  ghost predicate RunsIn(s: State, k: BindingKind) {
    k in s.bindings && s.bindings[k].lifecycle.Running?
  }

  /** A binding that runs after a decision that does not bring it up ran before it, on the same
      target; it is then on the default if it was, or if the default has just been set. */
  lemma OneDecision(s: State, input: DecisionInput, order: seq<BindingKind>, k: BindingKind, flow: DataFlow,
                    role: DeviceRole)
    requires WellFormed(s) && Visits(order, s.bindings.Keys) && k in s.bindings && Follows(s, k, flow, role)
    requires RunsIn(Decide(s, input, order).state, k) && !AcceptedStart(s, input, k)
    ensures RunsIn(s, k)
    ensures OnDefault(Decide(s, input, order).state, k, flow, role) <==>
              OnDefault(s, k, flow, role) || ChangesDefault(input, flow, role)
  {
    hide Decide, WellFormed, Visits, BindingOk;
    var s' := Decide(s, input, order).state;
    OkOf(s, k);
    RunsOnlyIfUp(s, input, order, k);
    DecisionFlags(s, input, order);
    var one := [Turn(input, order)];
    assert one[..0] == [];
    if ChangesDefault(input, flow, role) {
      NewDefaultMoves(s, flow, role, input.observation.newDefault, order, k);
    }
  }

  lemma RunsOnlyIfUp(s: State, input: DecisionInput, order: seq<BindingKind>, k: BindingKind)
    requires WellFormed(s) && Visits(order, s.bindings.Keys) && k in s.bindings
    requires RunsIn(Decide(s, input, order).state, k) && !AcceptedStart(s, input, k)
    ensures RunsIn(s, k) && Decide(s, input, order).state.bindings[k].lifecycle == s.bindings[k].lifecycle
  {
    hide Decide;
    DecideMoves(s, input, order, k);
  }

  ghost predicate ChangedSince(turns: seq<Turn>, i: nat, flow: DataFlow, role: DeviceRole) {
    exists j :: i < j < |turns| && ChangesDefault(turns[j].input, flow, role)
  }

  /** Turn `i` is the last one at which the binding came up. */
  ghost predicate CameUpAt(s: State, turns: seq<Turn>, i: nat, k: BindingKind) {
    && i < |turns| && AcceptedStart(After(s, turns[..i]), turns[i].input, k)
    && forall j :: i < j < |turns| ==> !AcceptedStart(After(s, turns[..j]), turns[j].input, k)
  }

  lemma {:induction false} SelectionLasts(s: State, turns: seq<Turn>, k: BindingKind)
    requires WellFormed(s) && Proper(s, turns) && k in s.bindings && k != ProcessLoopback
    ensures k in After(s, turns).bindings && After(s, turns).bindings[k].selection == s.bindings[k].selection
  {
    hide Decide;
    if turns != [] {
      var front, last := turns[..|turns| - 1], turns[|turns| - 1];
      SelectionLasts(s, front, k);
      RunsStayWellFormed(s, front);
      DecideMoves(After(s, front), last.input, last.order, k);
    }
  }

  lemma CameUpEarlier(s: State, turns: seq<Turn>, i: nat, k: BindingKind)
    requires CameUpAt(s, turns, i, k) && i < |turns| - 1
    ensures CameUpAt(s, turns[..|turns| - 1], i, k)
    ensures !AcceptedStart(After(s, turns[..|turns| - 1]), turns[|turns| - 1].input, k)
  {
    hide After, AcceptedStart;
    var front := turns[..|turns| - 1];
    assert front[..i] == turns[..i];
    assert forall j :: i < j < |front| ==> front[..j] == turns[..j];
  }

  lemma LastDecision(s: State, turns: seq<Turn>, k: BindingKind, flow: DataFlow, role: DeviceRole)
    requires WellFormed(s) && Proper(s, turns) && k in s.bindings && k != ProcessLoopback && turns != []
    requires Follows(s, k, flow, role)
    requires RunsIn(After(s, turns), k)
    requires !AcceptedStart(After(s, turns[..|turns| - 1]), turns[|turns| - 1].input, k)
    ensures var m, last := After(s, turns[..|turns| - 1]), turns[|turns| - 1];
            && RunsIn(m, k)
            && (OnDefault(After(s, turns), k, flow, role) <==>
                  OnDefault(m, k, flow, role) || ChangesDefault(last.input, flow, role))
  {
    hide Decide, WellFormed, Visits, AcceptedStart, OnDefault, RunsIn, ChangesDefault;
    var front, last := turns[..|turns| - 1], turns[|turns| - 1];
    RunsStayWellFormed(s, front);
    SelectionLasts(s, front, k);
    OneDecision(After(s, front), last.input, last.order, k, flow, role);
  }

  /** A running follower is on the default if and only if it came up on what was the default then,
      or the default has been set since it came up. */
  lemma {:induction false} FollowerOnDefaultExactly(s: State, turns: seq<Turn>, i: nat, k: BindingKind, flow: DataFlow,
                                                    role: DeviceRole)
    requires WellFormed(s) && Proper(s, turns) && k in s.bindings && k != ProcessLoopback
    requires Follows(s, k, flow, role) && CameUpAt(s, turns, i, k) && RunsIn(After(s, turns), k)
    ensures OnDefault(After(s, turns), k, flow, role) <==>
              OnDefault(After(s, turns[..i + 1]), k, flow, role) || ChangedSince(turns, i, flow, role)
  {
    hide After, WellFormed, Visits, AcceptedStart, OnDefault, RunsIn, ChangesDefault, Follows;
    var n := |turns| - 1;
    if i == n {
      assert turns[..i + 1] == turns;
    } else {
      var front := turns[..n];
      CameUpEarlier(s, turns, i, k);
      LastDecision(s, turns, k, flow, role);
      FollowerOnDefaultExactly(s, front, i, k, flow, role);
      assert front[..i + 1] == turns[..i + 1];
      assert ChangedSince(turns, i, flow, role) <==>
               ChangedSince(front, i, flow, role) || ChangesDefault(turns[n].input, flow, role);
    }
  }

  // ---- A default that is missed -----------------------------------------------------

  const Mic: CaptureBinding :=
    CaptureBinding(Microphone, Endpoint(FollowDefault(Capture, Console)), Stopped, 0)

  const Before: State :=
    State(map[Microphone := Mic], map[(Capture, Console) := Some("a")], 0, 0, 0, false)

  /** Started on "a", told about "b" while the start is under way, and then up on "a". */
  const MissedRun: seq<Turn> :=
    [Turn(UserStart(Microphone), [Microphone]),
     Turn(Observed(DefaultEndpointChanged(Capture, Console, Some("b"))), [Microphone]),
     Turn(Observed(WorkerStarted(Microphone, 0, 0, EndpointTarget("a"))), [Microphone])]

  const Up: State :=
    State(map[Microphone := Mic.(lifecycle := Starting(0, 0, EndpointTarget("a")))],
          map[(Capture, Console) := Some("a")], 1, 1, 1, false)

  lemma StartIsNotRevised()
    ensures Decide(Up, MissedRun[1].input, [Microphone])
            == Outcome(Up.(defaultRoutes := map[(Capture, Console) := Some("b")]), [])
  {
    hide ReactAll, Selected, React;
    var s := Up.(defaultRoutes := map[(Capture, Console) := Some("b")]);
    assert Up.defaultRoutes[(Capture, Console) := Some("b")] == s.defaultRoutes;
    OnlyBinding(s, MissedRun[1].input.observation);
    StartIsLeft(s);
    OneVisit(s, Rebind, Microphone);
  }

  lemma OnlyBinding(s: State, obs: Observation)
    requires Selects(s, obs, Microphone)
    ensures Selected(s, obs, [Microphone]) == [Microphone]
  {
    hide Selects;
    assert [Microphone][..0] == [];
  }

  lemma StartIsLeft(s: State)
    requires Microphone in s.bindings && s.bindings[Microphone].lifecycle.Starting?
    ensures React(s, Rebind, Microphone) == Outcome(s, [])
  {
  }

  lemma OneVisit(s: State, reaction: Reaction, k: BindingKind)
    requires React(s, reaction, k) == Outcome(s, [])
    ensures ReactAll(s, reaction, [k]) == Outcome(s, [])
  {
    hide React;
    assert [k][..0] == [];
    assert ReactAll(s, reaction, []) == Outcome(s, []);
  }

  /** A follower that goes on running on an endpoint that is not the default any more. */
  lemma DefaultIsMissed()
    ensures Fresh(Before) && Proper(Before, MissedRun)
    ensures var s := After(Before, MissedRun);
            && Microphone in s.bindings && s.bindings[Microphone].lifecycle == Running(0, 0, EndpointTarget("a"))
            && (Capture, Console) in s.defaultRoutes && s.defaultRoutes[(Capture, Console)] == Some("b")
    ensures Log(Before, MissedRun) == [StartCapture(0, Microphone, 0, 0, EndpointTarget("a"))]
  {
    hide Decide;
    var t := MissedRun;
    var e := StartCapture(0, Microphone, 0, 0, EndpointTarget("a"));
    assert t[..3] == t && t[..3][..2] == t[..2] && t[..2][..1] == t[..1] && t[..1][..0] == [];
    StartIsMade();
    assert After(Before, t[..1]) == Up && Log(Before, t[..1]) == [e];
    StartIsNotRevised();
    ReportIsTaken();
  }

  lemma StartIsMade()
    ensures Decide(Before, MissedRun[0].input, [Microphone])
            == Outcome(Up, [StartCapture(0, Microphone, 0, 0, EndpointTarget("a"))])
  {
  }

  lemma ReportIsTaken()
    ensures var o := Decide(Up.(defaultRoutes := map[(Capture, Console) := Some("b")]), MissedRun[2].input,
                            [Microphone]);
            && o.effects == [] && o.state.defaultRoutes == map[(Capture, Console) := Some("b")]
            && Microphone in o.state.bindings
            && o.state.bindings[Microphone].lifecycle == Running(0, 0, EndpointTarget("a"))
  {
  }
}
