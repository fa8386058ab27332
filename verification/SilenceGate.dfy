/**
  The silence gate as an object (silence_gate.rs:121-278). `Process` is proved against the
  window-by-window specification in `GateModel`.
*/
module SilenceGates {
  import opened Prelude
  import opened GateModel

  class SilenceGate<T> {
    const config: Config
    const loudness: Loudness<T>
    var state: VadState
    var preRoll: seq<T>
    var clockSamples: nat

    ghost function View(): Gate<T>
      reads this
    {
      Gate(state, preRoll, clockSamples)
    }

    ghost predicate Valid()
      reads this
    {
      config.Valid() && GateOk(config, View())
    }

    constructor (config: Config, loudness: Loudness<T>)
      requires config.Valid()
      ensures Valid() && View() == Gate(Silent, [], 0)
      ensures this.config == config && this.loudness == loudness
    {
      this.config, this.loudness := config, loudness;
      state, preRoll, clockSamples := Silent, [], 0;
    }

    /** Pushes a window into the ring buffer and counts the samples that fall out. */
    method PushPreRoll(window: seq<T>) returns (evicted: nat)
      requires |preRoll| <= config.preRollCapacity
      modifies this`preRoll
      ensures preRoll == GateModel.PushPreRoll(old(preRoll), window, config.preRollCapacity)
      ensures evicted == if config.preRollCapacity == 0 then |window|
                         else Evicted(old(preRoll), window, config.preRollCapacity)
    {
      if config.preRollCapacity == 0 {
        return |window|;
      }
      evicted := 0;
      for i := 0 to |window|
        invariant evicted == Evicted(old(preRoll), window[..i], config.preRollCapacity)
        invariant preRoll == (old(preRoll) + window[..i])[evicted..]
      {
        if |preRoll| == config.preRollCapacity {
          preRoll := preRoll[1..];
          evicted := evicted + 1;
        }
        preRoll := preRoll + [window[i]];
      }
      assert window[..|window|] == window;
    }

    /** Pushes captured audio; the loop keeps at most one open run, of sends or of drops. */
    method Process(samples: seq<T>) returns (actions: seq<Action<T>>)
      requires Valid()
      modifies this
      ensures Valid()
      ensures (View(), actions) == GateModel.Process(config, loudness, old(View()), samples)
    {
      hide Coalesce, Flushed, RunsOk, Walk, NextState;
      actions := [];
      if samples == [] {
        NothingToWalk(config, loudness, View(), samples);
        return;
      }
      var sendRunStart: Option<nat> := None;
      var dropRun: nat := 0;
      var offset := 0;
      ghost var done: seq<Verdict<T>> := [];
      ghost var whole := Walk(config, loudness, View(), samples);
      assert samples[0..] == samples && done + whole.1 == whole.1;
      NoRunYet(samples, state);
      while offset < |samples|
        invariant offset <= |samples| && Valid()
        invariant RunsOk(actions, sendRunStart, dropRun, samples, offset, state, done)
        invariant whole.0 == Walk(config, loudness, View(), samples[offset..]).0
        invariant whole.1 == done + Walk(config, loudness, View(), samples[offset..]).1
      {
        var end := if offset + config.windowSamples <= |samples| then offset + config.windowSamples else |samples|;
        var window := samples[offset..end];
        ghost var before := View();
        ghost var step := WindowStep(config, loudness, before, window);
        WalkOne(config, loudness, before, samples, offset, end, done);
        RunsBounded(actions, sendRunStart, dropRun, samples, offset, state, done);
        clockSamples := clockSamples + |window|;
        var level := loudness(window);
        var oldState := state;
        state := NextState(oldState, level, clockSamples, config);
        StateStep(config, loudness, before, window);
        if oldState.Silent? && state.Speaking? {
          StitchRuns(actions, sendRunStart, dropRun, samples, offset, end, oldState, done, preRoll + window);
          if dropRun > 0 {
            actions := actions + [Drop(dropRun)];
            dropRun := 0;
          }
          var stitched := preRoll + window;
          preRoll := [];
          actions := actions + [SendStitched(stitched)];
        } else if state.Silent? {
          ghost var n := if config.preRollCapacity == 0 then |window|
              else Evicted(preRoll, window, config.preRollCapacity);
          HoldRuns(actions, sendRunStart, dropRun, samples, offset, end, oldState, done, n);
          if sendRunStart.Some? {
            actions := actions + [Send(samples[sendRunStart.value..offset])];
            sendRunStart := None;
          }
          var evicted := PushPreRoll(window);
          dropRun := dropRun + evicted;
        } else {
          PassRuns(actions, sendRunStart, dropRun, samples, offset, end, oldState, state, done);
          if dropRun > 0 {
            actions := actions + [Drop(dropRun)];
            dropRun := 0;
          }
          if sendRunStart.None? {
            sendRunStart := Some(offset);
          }
        }
        assert View() == step.0;
        done := done + [step.1];
        offset := end;
      }
      RunsBounded(actions, sendRunStart, dropRun, samples, offset, state, done);
      NothingToWalk(config, loudness, View(), samples[offset..]);
      assert done + [] == done;
      LastFlush(actions, sendRunStart, dropRun, samples, offset, state, done);
      if sendRunStart.Some? {
        actions := actions + [Send(samples[sendRunStart.value..])];
      }
      if dropRun > 0 {
        actions := actions + [Drop(dropRun)];
      }
    }
  }

  // ---- The two runs -----------------------------------------------------------------

  /** The actions with the run that is still open put at their end. */
  ghost function Flushed<T>(actions: seq<Action<T>>, sendRunStart: Option<nat>, dropRun: nat, samples: seq<T>,
                            offset: nat): seq<Action<T>>
    requires offset <= |samples| && (sendRunStart.Some? ==> sendRunStart.value <= offset)
  {
    actions
    + (if sendRunStart.Some? then [Send(samples[sendRunStart.value..offset])] else [])
    + (if dropRun > 0 then [Drop(dropRun)] else [])
  }

  /** Never two open runs; no send run while silent, no drop run otherwise; and closing the open
      run gives the coalesced actions of the windows done so far. */
  ghost predicate RunsOk<T>(actions: seq<Action<T>>, sendRunStart: Option<nat>, dropRun: nat, samples: seq<T>,
                                  offset: nat, state: VadState, done: seq<Verdict<T>>) {
    && offset <= |samples|
    && (sendRunStart.Some? ==> dropRun == 0 && sendRunStart.value < offset && !state.Silent?)
    && (dropRun > 0 ==> state.Silent?)
    && (state.Silent? || sendRunStart.Some? || actions == [] || actions[|actions| - 1].SendStitched?)
    && (actions != [] ==> !actions[|actions| - 1].Drop?)
    && (sendRunStart.Some? && actions != [] ==> !actions[|actions| - 1].Send?)
    && Coalesce(done) == Flushed(actions, sendRunStart, dropRun, samples, offset)
  }

  lemma NoRunYet<T>(samples: seq<T>, state: VadState)
    ensures RunsOk([], None, 0, samples, 0, state, [])
  {
  }

  lemma RunsBounded<T>(actions: seq<Action<T>>, sendRunStart: Option<nat>, dropRun: nat, samples: seq<T>,
                       offset: nat, state: VadState, done: seq<Verdict<T>>)
    requires RunsOk(actions, sendRunStart, dropRun, samples, offset, state, done)
    ensures sendRunStart.Some? ==> dropRun == 0 && sendRunStart.value < offset <= |samples|
  {
  }

  lemma CoalesceMore<T>(done: seq<Verdict<T>>, v: Verdict<T>)
    ensures Coalesce(done + [v]) == AppendVerdict(Coalesce(done), v)
  {
    assert (done + [v])[..|done|] == done;
  }

  lemma StitchRuns<T>(actions: seq<Action<T>>, sendRunStart: Option<nat>, dropRun: nat, samples: seq<T>,
                      offset: nat, end: nat, state: VadState, done: seq<Verdict<T>>, buffer: seq<T>)
    requires RunsOk(actions, sendRunStart, dropRun, samples, offset, state, done) && offset < end <= |samples|
    requires state.Silent?
    ensures var closed := if dropRun > 0 then actions + [Drop(dropRun)] else actions;
            RunsOk(closed + [SendStitched(buffer)], sendRunStart, 0, samples, end, Speaking, done + [Stitch(buffer)])
  {
    CoalesceMore(done, Stitch(buffer));
  }

  lemma HoldRuns<T>(actions: seq<Action<T>>, sendRunStart: Option<nat>, dropRun: nat, samples: seq<T>,
                    offset: nat, end: nat, state: VadState, done: seq<Verdict<T>>, n: nat)
    requires RunsOk(actions, sendRunStart, dropRun, samples, offset, state, done) && offset < end <= |samples|
    ensures var closed := if sendRunStart.Some? then actions + [Send(samples[sendRunStart.value..offset])] else actions;
            RunsOk(closed, None, dropRun + n, samples, end, Silent, done + [Hold(n)])
  {
    hide Append;
    CoalesceMore(done, Hold(n));
    var closed := if sendRunStart.Some? then actions + [Send(samples[sendRunStart.value..offset])] else actions;
    if dropRun > 0 {
      assert Flushed(actions, sendRunStart, dropRun, samples, offset) == closed + [Drop(dropRun)];
      DropGrows(closed, dropRun, n);
    } else {
      DropOpens(closed, n);
      assert Flushed(actions, sendRunStart, dropRun, samples, offset) == closed;
    }
  }

  lemma PassRuns<T>(actions: seq<Action<T>>, sendRunStart: Option<nat>, dropRun: nat, samples: seq<T>,
                    offset: nat, end: nat, state: VadState, state': VadState, done: seq<Verdict<T>>)
    requires RunsOk(actions, sendRunStart, dropRun, samples, offset, state, done) && offset < end <= |samples|
    requires !state.Silent? && !state'.Silent?
    ensures var closed := if dropRun > 0 then actions + [Drop(dropRun)] else actions;
            RunsOk(closed, if sendRunStart.Some? then sendRunStart else Some(offset), 0, samples, end, state',
                   done + [Pass(samples[offset..end])])
  {
    hide Append;
    CoalesceMore(done, Pass(samples[offset..end]));
    if sendRunStart.Some? {
      assert Flushed(actions, sendRunStart, dropRun, samples, offset)
             == actions + [Send(samples[sendRunStart.value..offset])];
      SendGrows(actions, samples, sendRunStart.value, offset, end);
    } else {
      assert Flushed(actions, sendRunStart, dropRun, samples, offset) == actions;
      SendOpens(actions, samples[offset..end]);
    }
  }

  lemma SendGrows<T>(actions: seq<Action<T>>, samples: seq<T>, start: nat, offset: nat, end: nat)
    requires start <= offset <= end <= |samples|
    ensures Append(actions + [Send(samples[start..offset])], Send(samples[offset..end]))
            == actions + [Send(samples[start..end])]
  {
    assert (actions + [Send(samples[start..offset])])[..|actions|] == actions;
    assert samples[start..offset] + samples[offset..end] == samples[start..end];
  }

  lemma SendOpens<T>(actions: seq<Action<T>>, window: seq<T>)
    requires actions == [] || !actions[|actions| - 1].Send?
    ensures Append(actions, Send(window)) == actions + [Send(window)]
  {
  }

  lemma DropGrows<T>(actions: seq<Action<T>>, count: nat, n: nat)
    ensures Append(actions + [Drop(count)], Drop(n)) == actions + [Drop(count + n)]
  {
    assert (actions + [Drop(count)])[..|actions|] == actions;
  }

  lemma DropOpens<T>(actions: seq<Action<T>>, n: nat)
    requires actions == [] || !actions[|actions| - 1].Drop?
    ensures Append(actions, Drop(n)) == actions + [Drop(n)]
  {
  }

  lemma LastFlush<T>(actions: seq<Action<T>>, sendRunStart: Option<nat>, dropRun: nat, samples: seq<T>,
                     offset: nat, state: VadState, done: seq<Verdict<T>>)
    requires RunsOk(actions, sendRunStart, dropRun, samples, offset, state, done) && offset == |samples|
    ensures Coalesce(done) ==
              if sendRunStart.Some? then actions + [Send(samples[sendRunStart.value..])]
              else if dropRun > 0 then actions + [Drop(dropRun)]
              else actions
  {
    if sendRunStart.Some? {
      assert samples[sendRunStart.value..offset] == samples[sendRunStart.value..];
    }
  }

  // ---- One window at a time ---------------------------------------------------------

  lemma NothingToWalk<T>(c: Config, loudness: Loudness<T>, g: Gate<T>, samples: seq<T>)
    requires c.Valid() && samples == []
    ensures Walk(c, loudness, g, samples) == (g, []) && Coalesce<T>([]) == []
  {
  }

  lemma WalkOne<T>(c: Config, loudness: Loudness<T>, g: Gate<T>, samples: seq<T>,
                   offset: nat, end: nat, done: seq<Verdict<T>>)
    requires c.Valid() && offset < |samples|
    requires end == if offset + c.windowSamples <= |samples| then offset + c.windowSamples else |samples|
    ensures var step := WindowStep(c, loudness, g, samples[offset..end]);
            var (rest, now) := (Walk(c, loudness, step.0, samples[end..]), Walk(c, loudness, g, samples[offset..]));
            && now.0 == rest.0
            && done + now.1 == (done + [step.1]) + rest.1
  {
    var tail := samples[offset..];
    assert tail[..end - offset] == samples[offset..end] && tail[end - offset..] == samples[end..];
    var step := WindowStep(c, loudness, g, samples[offset..end]);
    var rest, now := Walk(c, loudness, step.0, samples[end..]), Walk(c, loudness, g, tail);
    assert now.1 == [step.1] + rest.1;
    assert done + now.1 == (done + [step.1]) + rest.1;
  }

  lemma StateStep<T>(c: Config, loudness: Loudness<T>, g: Gate<T>, window: seq<T>)
    requires GateOk(c, g)
    ensures GateOk(c, WindowStep(c, loudness, g, window).0)
    ensures g.state.Silent? ==> !NextState(g.state, loudness(window), g.clock + |window|, c).Hangover?
  {
  }
}
