/**
  The state of the silence gate, told from the whole history of windows: by the last loud window
  and the first quiet one after it, without stepping a state machine.
*/
module GateHistory {
  import opened Prelude
  import opened GateModel
  import Gates = GateReplay

  /** One window: how loud it was and where it ended on the gate's clock. */
  datatype Heard = Heard(level: real, clock: nat)

  // ---- The history view -------------------------------------------------------------

  /** The last window loud enough to count as speech. */
  function LastLoud(c: Config, history: seq<Heard>): Option<nat> {
    if history == [] then None
    else
      var n := |history| - 1;
      if history[n].level >= c.speakingLevel then Some(n) else LastLoud(c, history[..n])
  }

  /** The first window from `start` on that is quiet enough to count as silence. */
  function FirstQuiet(c: Config, history: seq<Heard>, start: nat): Option<nat> {
    if |history| <= start then None
    else
      var n := |history| - 1;
      var earlier := FirstQuiet(c, history[..n], start);
      if earlier.Some? then earlier
      else if history[n].level < c.silentLevel then Some(n)
      else None
  }

  lemma {:induction false} IndicesInRange(c: Config, history: seq<Heard>, start: nat)
    ensures LastLoud(c, history).Some? ==> LastLoud(c, history).value < |history|
    ensures FirstQuiet(c, history, start).Some? ==> start <= FirstQuiet(c, history, start).value < |history|
  {
    if history != [] {
      IndicesInRange(c, history[..|history| - 1], start);
    }
  }

  /** Silent before the first speech; speaking until the first quiet window after the last loud
      one; then in the hangover, for at least that window and for less than the hangover time;
      then silent. */
  function Expected(c: Config, history: seq<Heard>): VadState {
    IndicesInRange(c, history, 0);
    match LastLoud(c, history)
    case None => Silent
    case Some(i) =>
      IndicesInRange(c, history, i + 1);
      match FirstQuiet(c, history, i + 1)
      case None => Speaking
      case Some(q) =>
        var n := |history| - 1;
        if q == n || history[n].clock < history[q].clock + c.hangoverSamples then Hangover(history[q].clock)
        else Silent
  }

  // ---- The state machine ------------------------------------------------------------

  function StateAfter(c: Config, start: VadState, history: seq<Heard>): VadState {
    if history == [] then start
    else
      var n := |history| - 1;
      NextState(StateAfter(c, start, history[..n]), history[n].level, history[n].clock, c)
  }

  ghost predicate ClockRuns(history: seq<Heard>) {
    forall i, j :: 0 <= i <= j < |history| ==> history[i].clock <= history[j].clock
  }

  /** With thresholds that do not cross, stepping window by window is that history. */
  lemma {:induction false} StateIsHistory(c: Config, history: seq<Heard>)
    requires c.silentLevel <= c.speakingLevel && ClockRuns(history)
    ensures StateAfter(c, Silent, history) == Expected(c, history)
  {
    if history != [] {
      var n := |history| - 1;
      var front := history[..n];
      StateIsHistory(c, front);
      IndicesInRange(c, front, 0);
      if LastLoud(c, front).Some? {
        IndicesInRange(c, front, LastLoud(c, front).value + 1);
      }
      QuietAfterEnd(c, history, n + 1);
    }
  }

  lemma QuietAfterEnd(c: Config, history: seq<Heard>, start: nat)
    requires |history| <= start
    ensures FirstQuiet(c, history, start) == None
  {
  }

  // ---- The gate ---------------------------------------------------------------------

  /** The windows of one push that begins at `clock`. */
  function Windows<T>(c: Config, loudness: Loudness<T>, clock: nat, samples: seq<T>): seq<Heard>
    requires c.Valid()
    decreases |samples|
  {
    if samples == [] then []
    else
      var end := WindowEnd(samples, c);
      [Heard(loudness(samples[..end]), clock + end)] + Windows(c, loudness, clock + end, samples[end..])
  }

  /** The windows of any number of pushes. */
  ghost function AllWindows<T>(c: Config, loudness: Loudness<T>, clock: nat, pushes: seq<seq<T>>): seq<Heard>
    requires c.Valid()
  {
    if pushes == [] then []
    else
      var n := |pushes| - 1;
      AllWindows(c, loudness, clock, pushes[..n])
      + Windows(c, loudness, clock + |Gates.Flatten(pushes[..n])|, pushes[n])
  }

  lemma {:induction false} StateAfterConcat(c: Config, start: VadState, a: seq<Heard>, b: seq<Heard>)
    ensures StateAfter(c, start, a + b) == StateAfter(c, StateAfter(c, start, a), b)
  {
    if b == [] {
      assert a + b == a;
    } else {
      StateAfterConcat(c, start, a, b[..|b| - 1]);
      assert (a + b)[..|a + b| - 1] == a + b[..|b| - 1];
    }
  }

  lemma {:induction false} WalkIsFold<T>(c: Config, loudness: Loudness<T>, g: Gate<T>, samples: seq<T>)
    requires c.Valid()
    ensures var g' := Walk(c, loudness, g, samples).0;
            && g'.state == StateAfter(c, g.state, Windows(c, loudness, g.clock, samples))
            && g'.clock == g.clock + |samples|
    decreases |samples|
  {
    hide NextState;
    if samples != [] {
      var end := WindowEnd(samples, c);
      var g1 := WindowStep(c, loudness, g, samples[..end]).0;
      WalkIsFold(c, loudness, g1, samples[end..]);
      var first := Heard(loudness(samples[..end]), g.clock + end);
      assert [first][..0] == [];
      assert StateAfter(c, g.state, [first][..0]) == g.state;
      assert StateAfter(c, g.state, [first]) == g1.state;
      StateAfterConcat(c, g.state, [first], Windows(c, loudness, g.clock + end, samples[end..]));
    }
  }

  lemma {:induction false} WindowsClock<T>(c: Config, loudness: Loudness<T>, clock: nat, samples: seq<T>)
    requires c.Valid()
    ensures ClockRuns(Windows(c, loudness, clock, samples))
    ensures forall h: Heard :: h in Windows(c, loudness, clock, samples) ==> clock <= h.clock <= clock + |samples|
    decreases |samples|
  {
    if samples != [] {
      var end := WindowEnd(samples, c);
      WindowsClock(c, loudness, clock + end, samples[end..]);
    }
  }

  lemma {:induction false} AllWindowsClock<T>(c: Config, loudness: Loudness<T>, clock: nat, pushes: seq<seq<T>>)
    requires c.Valid()
    ensures ClockRuns(AllWindows(c, loudness, clock, pushes))
    ensures forall h :: h in AllWindows(c, loudness, clock, pushes) ==>
              clock <= h.clock <= clock + |Gates.Flatten(pushes)|
  {
    if pushes != [] {
      var n := |pushes| - 1;
      AllWindowsClock(c, loudness, clock, pushes[..n]);
      var middle := clock + |Gates.Flatten(pushes[..n])|;
      WindowsClock(c, loudness, middle, pushes[n]);
      var a: seq<Heard> := AllWindows(c, loudness, clock, pushes[..n]);
      var b: seq<Heard> := Windows(c, loudness, middle, pushes[n]);
      forall i: nat, j: nat | i <= j < |a + b| ensures (a + b)[i].clock <= (a + b)[j].clock {
        if i < |a| <= j {
          assert a[i] in a && b[j - |a|] in b;
        }
      }
    }
  }

  lemma {:induction false} PushesAreFold<T>(c: Config, loudness: Loudness<T>, g: Gate<T>, pushes: seq<seq<T>>)
    requires c.Valid()
    ensures var g' := Gates.PushAll(c, loudness, g, pushes).0;
            && g'.state == StateAfter(c, g.state, AllWindows(c, loudness, g.clock, pushes))
            && g'.clock == g.clock + |Gates.Flatten(pushes)|
  {
    hide Walk, Windows;
    if pushes != [] {
      var n := |pushes| - 1;
      PushesAreFold(c, loudness, g, pushes[..n]);
      var g1 := Gates.PushAll(c, loudness, g, pushes[..n]).0;
      WalkIsFold(c, loudness, g1, pushes[n]);
      StateAfterConcat(c, g.state, AllWindows(c, loudness, g.clock, pushes[..n]),
                       Windows(c, loudness, g1.clock, pushes[n]));
    }
  }

  /** Whatever was pushed, the gate's state is the one its history calls for. */
  lemma GateFollowsHistory<T>(c: Config, loudness: Loudness<T>, pushes: seq<seq<T>>)
    requires c.Valid() && c.silentLevel <= c.speakingLevel
    ensures Gates.PushAll(c, loudness, Gate(Silent, [], 0), pushes).0.state
            == Expected(c, AllWindows(c, loudness, 0, pushes))
  {
    PushesAreFold(c, loudness, Gate(Silent, [], 0), pushes);
    AllWindowsClock(c, loudness, 0, pushes);
    StateIsHistory(c, AllWindows(c, loudness, 0, pushes));
  }
}
