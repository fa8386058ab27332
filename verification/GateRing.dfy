/**
  What the pre-roll holds and what the gate sends, from the history of pushes alone.

  The stream is everything pushed so far, cut into the windows of its history. What was sent
  reaches up to the last window after which the gate was not silent; the ring holds the newest
  samples behind it.
*/
module GateRing {
  import opened Prelude
  import opened GateModel
  import opened GateHistory
  import Gates = GateReplay

  /** How far into the stream the windows reach. */
  ghost function Reach(history: seq<Heard>): nat {
    if history == [] then 0 else history[|history| - 1].clock
  }

  /** Where the last window ended after which the gate was not silent. */
  ghost function SentUpTo(c: Config, history: seq<Heard>): nat {
    if history == [] then 0
    else if !StateAfter(c, Silent, history).Silent? then Reach(history)
    else SentUpTo(c, history[..|history| - 1])
  }

  ghost function Least(a: nat, b: nat): nat {
    if a <= b then a else b
  }

  /** How many samples are held back: those behind what was sent, as far as there is room. */
  ghost function Kept(c: Config, history: seq<Heard>): nat {
    var reach, sent := Reach(history), SentUpTo(c, history);
    Least(c.preRollCapacity, if sent <= reach then reach - sent else 0)
  }

  /** What becomes of window `i` of the stream. */
  ghost function VerdictAt<T>(c: Config, stream: seq<T>, history: seq<Heard>, i: nat): Option<Verdict<T>>
    requires i < |history|
  {
    var before, after := history[..i], history[..i + 1];
    var start, end, kept := Reach(before), Reach(after), Kept(c, before);
    if !(kept <= start <= end <= |stream|) then None
    else if StateAfter(c, Silent, after).Silent? then
      Some(Hold(kept + (end - start) - Least(c.preRollCapacity, kept + (end - start))))
    else if StateAfter(c, Silent, before).Silent? then Some(Stitch(stream[start - kept..end]))
    else Some(Pass(stream[start..end]))
  }

  // ---- One window -------------------------------------------------------------------

  /** The gate after the windows of `history`, which cover `stream`. */
  ghost predicate RingOk<T>(c: Config, stream: seq<T>, history: seq<Heard>, g: Gate<T>) {
    && Reach(history) == |stream| == g.clock
    && g.state == StateAfter(c, Silent, history)
    && SentUpTo(c, history) <= |stream|
    && (!g.state.Silent? ==> SentUpTo(c, history) == |stream|)
    && g.preRoll == stream[|stream| - Kept(c, history)..]
  }

  lemma SentStep(c: Config, history: seq<Heard>, h: Heard)
    ensures var all := history + [h];
            && StateAfter(c, Silent, all) == NextState(StateAfter(c, Silent, history), h.level, h.clock, c)
            && Reach(all) == h.clock
            && SentUpTo(c, all) == if StateAfter(c, Silent, all).Silent? then SentUpTo(c, history) else h.clock
  {
    hide NextState;
    assert (history + [h])[..|history|] == history;
  }

  /** One window, on the ring and on the verdict. */
  lemma WindowRing<T>(c: Config, loudness: Loudness<T>, g: Gate<T>, stream: seq<T>, history: seq<Heard>, window: seq<T>)
    requires RingOk(c, stream, history, g) && window != []
    ensures var (g', v) := WindowStep(c, loudness, g, window);
            var h := Heard(loudness(window), g.clock + |window|);
            && RingOk(c, stream + window, history + [h], g')
            && VerdictAt(c, stream + window, history + [h], |history|) == Some(v)
  {
    hide NextState, StateAfter, SentUpTo, WindowStep, VerdictAt;
    var h := Heard(loudness(window), g.clock + |window|);
    SentStep(c, history, h);
    WindowOutcome(c, loudness, g, stream, Kept(c, history), window);
    WindowVerdict(c, stream, history, h, window, WindowStep(c, loudness, g, window).1);
  }

  /** What one window does, told from the stream. */
  ghost function Resolved<T>(c: Config, before: VadState, after: VadState, stream: seq<T>, kept: nat,
                             window: seq<T>): Verdict<T>
    requires kept <= |stream|
  {
    if after.Silent? then Hold(kept + |window| - Least(c.preRollCapacity, kept + |window|))
    else if before.Silent? then Stitch(stream[|stream| - kept..] + window)
    else Pass(window)
  }

  lemma WindowOutcome<T>(c: Config, loudness: Loudness<T>, g: Gate<T>, stream: seq<T>, kept: nat, window: seq<T>)
    requires kept <= |stream| && kept <= c.preRollCapacity && g.preRoll == stream[|stream| - kept..]
    requires !g.state.Silent? ==> kept == 0
    ensures var (g', v) := WindowStep(c, loudness, g, window);
            var both := stream + window;
            && g'.clock == g.clock + |window|
            && g'.state == NextState(g.state, loudness(window), g'.clock, c)
            && (g'.state.Silent? ==> g'.preRoll == both[|both| - Least(c.preRollCapacity, kept + |window|)..])
            && (!g'.state.Silent? ==> g'.preRoll == [])
            && v == Resolved(c, g.state, g'.state, stream, kept, window)
  {
    hide PushPreRoll, Evicted;
    HoldKeepsNewest(stream, kept, window, c.preRollCapacity);
  }

  lemma WindowVerdict<T>(c: Config, stream: seq<T>, history: seq<Heard>, h: Heard, window: seq<T>, v: Verdict<T>)
    requires Reach(history) == |stream| && h.clock == |stream| + |window|
    requires v == Resolved(c, StateAfter(c, Silent, history), StateAfter(c, Silent, history + [h]), stream,
                           Kept(c, history), window)
    ensures VerdictAt(c, stream + window, history + [h], |history|) == Some(v)
  {
    hide StateAfter, SentUpTo, PushPreRoll, Evicted;
    var all := history + [h];
    assert all[..|history|] == history && all[..|history| + 1] == all;
    HoldKeepsNewest(stream, Kept(c, history), window, c.preRollCapacity);
  }

  /** Pushing a window onto the newest samples keeps the newest samples. */
  lemma HoldKeepsNewest<T>(stream: seq<T>, kept: nat, window: seq<T>, capacity: nat)
    requires kept <= |stream| && kept <= capacity
    ensures var ring, both := stream[|stream| - kept..], stream + window;
            var n := Least(capacity, kept + |window|);
            && PushPreRoll(ring, window, capacity) == both[|both| - n..]
            && kept + |window| - n == (if capacity == 0 then |window| else Evicted(ring, window, capacity))
            && both[|stream| - kept..|both|] == ring + window
            && both[|stream|..|both|] == window
  {
    var ring, both := stream[|stream| - kept..], stream + window;
    assert ring + window == both[|stream| - kept..];
  }

  // ---- One push, and any number of pushes -------------------------------------------

  /** The verdicts on the windows from `from` on. */
  ghost predicate VerdictsFrom<T>(c: Config, stream: seq<T>, history: seq<Heard>, from: nat, vs: seq<Verdict<T>>) {
    && from <= |history| && |vs| == |history| - from
    && forall i :: 0 <= i < |vs| ==> VerdictAt(c, stream, history, from + i) == Some(vs[i])
  }

  /** What is behind a window does not matter for what becomes of it. */
  lemma VerdictIsFinal<T>(c: Config, stream: seq<T>, more: seq<T>, history: seq<Heard>, later: seq<Heard>, i: nat)
    requires i < |history| && VerdictAt(c, stream, history, i).Some?
    ensures VerdictAt(c, stream + more, history + later, i) == VerdictAt(c, stream, history, i)
  {
    hide StateAfter, SentUpTo;
    var before, after := history[..i], history[..i + 1];
    assert (history + later)[..i] == before && (history + later)[..i + 1] == after;
    var start, end, kept := Reach(before), Reach(after), Kept(c, before);
    assert (stream + more)[start - kept..end] == stream[start - kept..end];
    assert (stream + more)[start..end] == stream[start..end];
  }

  lemma {:induction false} WalkRing<T>(c: Config, loudness: Loudness<T>, g: Gate<T>, stream: seq<T>,
                                       history: seq<Heard>, samples: seq<T>)
    requires c.Valid() && RingOk(c, stream, history, g)
    ensures var (g', vs) := Walk(c, loudness, g, samples);
            var all := history + Windows(c, loudness, g.clock, samples);
            RingOk(c, stream + samples, all, g') && VerdictsFrom(c, stream + samples, all, |history|, vs)
    decreases |samples|
  {
    hide RingOk, VerdictAt, WindowStep;
    if samples == [] {
      assert stream + samples == stream && history + [] == history;
    } else {
      assert g.clock == |stream| by { RingClock(c, stream, history, g); }
      var end := WindowEnd(samples, c);
      var window, rest := samples[..end], samples[end..];
      var h := Heard(loudness(window), g.clock + end);
      var (g1, v) := WindowStep(c, loudness, g, window);
      var later := Windows(c, loudness, g.clock + end, rest);
      WindowRing(c, loudness, g, stream, history, window);
      RingClock(c, stream + window, history + [h], g1);
      WalkRing(c, loudness, g1, stream + window, history + [h], rest);
      assert (stream + window) + rest == stream + samples;
      assert (history + [h]) + later == history + Windows(c, loudness, g.clock, samples);
      VerdictIsFinal(c, stream + window, rest, history + [h], later, |history|);
      VerdictsFollow(c, stream + samples, (history + [h]) + later, |history|, v, Walk(c, loudness, g1, rest).1);
    }
  }

  lemma RingClock<T>(c: Config, stream: seq<T>, history: seq<Heard>, g: Gate<T>)
    requires RingOk(c, stream, history, g)
    ensures g.clock == |stream|
  {
  }

  lemma VerdictsFollow<T>(c: Config, stream: seq<T>, history: seq<Heard>, from: nat, v: Verdict<T>,
                          vs: seq<Verdict<T>>)
    requires from < |history| && VerdictAt(c, stream, history, from) == Some(v)
    requires VerdictsFrom(c, stream, history, from + 1, vs)
    ensures VerdictsFrom(c, stream, history, from, [v] + vs)
  {
    hide VerdictAt;
    forall i | 0 <= i < |[v] + vs| ensures VerdictAt(c, stream, history, from + i) == Some(([v] + vs)[i]) {
      assert i == 0 || VerdictAt(c, stream, history, from + 1 + (i - 1)) == Some(vs[i - 1]);
    }
  }

  lemma {:induction false} PushesRing<T>(c: Config, loudness: Loudness<T>, pushes: seq<seq<T>>)
    requires c.Valid()
    ensures RingOk(c, Gates.Flatten(pushes), AllWindows(c, loudness, 0, pushes),
                   Gates.PushAll(c, loudness, Gate(Silent, [], 0), pushes).0)
  {
    if pushes == [] {
      assert Gates.Flatten(pushes) == [];
    } else {
      hide Walk, Windows, RingOk, VerdictsFrom;
      var n := |pushes| - 1;
      PushesRing(c, loudness, pushes[..n]);
      var g := Gates.PushAll(c, loudness, Gate(Silent, [], 0), pushes[..n]).0;
      RingClock(c, Gates.Flatten(pushes[..n]), AllWindows(c, loudness, 0, pushes[..n]), g);
      WalkRing(c, loudness, g, Gates.Flatten(pushes[..n]), AllWindows(c, loudness, 0, pushes[..n]), pushes[n]);
    }
  }

  // ---- Main results -----------------------------------------------------------------

  /** Whatever was pushed, the gate holds the newest samples behind what was sent, all of them if
      there is room, otherwise as many as there is room for; while it is not silent it holds none. */
  lemma RingExactly<T>(c: Config, loudness: Loudness<T>, pushes: seq<seq<T>>)
    requires c.Valid()
    ensures var g := Gates.PushAll(c, loudness, Gate(Silent, [], 0), pushes).0;
            var all := Gates.Flatten(pushes);
            var sent := SentUpTo(c, AllWindows(c, loudness, 0, pushes));
            && sent <= |all| && (!g.state.Silent? ==> sent == |all|)
            && g.preRoll == all[|all| - Least(c.preRollCapacity, |all| - sent)..]
  {
    PushesRing(c, loudness, pushes);
  }

  /** What a push makes of each of its windows: one that starts speech is sent behind all that is
      held, one that stays silent drops exactly what there is no room for, and any other is sent. */
  lemma VerdictsExactly<T>(c: Config, loudness: Loudness<T>, pushes: seq<seq<T>>, samples: seq<T>)
    requires c.Valid()
    ensures var g := Gates.PushAll(c, loudness, Gate(Silent, [], 0), pushes).0;
            VerdictsFrom(c, Gates.Flatten(pushes + [samples]), AllWindows(c, loudness, 0, pushes + [samples]),
                         |AllWindows(c, loudness, 0, pushes)|, Walk(c, loudness, g, samples).1)
  {
    hide RingOk, VerdictsFrom, Walk, Windows;
    var more := pushes + [samples];
    assert more[..|pushes|] == pushes;
    var g := Gates.PushAll(c, loudness, Gate(Silent, [], 0), pushes).0;
    PushesRing(c, loudness, pushes);
    RingClock(c, Gates.Flatten(pushes), AllWindows(c, loudness, 0, pushes), g);
    WalkRing(c, loudness, g, Gates.Flatten(pushes), AllWindows(c, loudness, 0, pushes), samples);
  }

  ghost predicate Drops<T>(actions: seq<Action<T>>) {
    exists i :: 0 <= i < |actions| && actions[i].Drop?
  }

  ghost predicate Overflows<T>(vs: seq<Verdict<T>>) {
    exists i :: 0 <= i < |vs| && vs[i].Hold? && vs[i].evicted > 0
  }

  lemma AppendKeepsKinds<T>(actions: seq<Action<T>>, v: Verdict<T>, x: seq<T>)
    ensures var after := AppendVerdict(actions, v);
            && (SendStitched(x) in after <==> SendStitched(x) in actions || v == Stitch(x))
            && (Drops(after) <==> Drops(actions) || (v.Hold? && v.evicted > 0))
  {
    var after := AppendVerdict(actions, v);
    if actions != [] {
      var n := |actions| - 1;
      assert actions == actions[..n] + [actions[n]];
    }
    if Drops(actions) {
      var i :| 0 <= i < |actions| && actions[i].Drop?;
      assert after[i].Drop?;
    }
    if v.Hold? && v.evicted > 0 {
      assert after[|after| - 1].Drop?;
    }
  }

  lemma {:induction false} CoalesceKeepsKinds<T>(vs: seq<Verdict<T>>, x: seq<T>)
    ensures SendStitched(x) in Coalesce(vs) <==> Stitch(x) in vs
    ensures Drops(Coalesce(vs)) <==> Overflows(vs)
  {
    if vs != [] {
      hide AppendVerdict;
      var n := |vs| - 1;
      CoalesceKeepsKinds(vs[..n], x);
      AppendKeepsKinds(Coalesce(vs[..n]), vs[n], x);
      assert vs == vs[..n] + [vs[n]];
      assert Overflows(vs) <==> Overflows(vs[..n]) || (vs[n].Hold? && vs[n].evicted > 0);
    }
  }

  /** Window `i` starts speech, and `x` is that window behind everything that is held. */
  ghost predicate StartsSpeech<T>(c: Config, stream: seq<T>, history: seq<Heard>, i: nat, x: seq<T>) {
    && i < |history|
    && var before, after := history[..i], history[..i + 1];
       && StateAfter(c, Silent, before).Silent? && !StateAfter(c, Silent, after).Silent?
       && Kept(c, before) <= Reach(before) <= Reach(after) <= |stream|
       && x == stream[Reach(before) - Kept(c, before)..Reach(after)]
  }

  /** Window `i` leaves the gate silent, and there is no room for all that is held then. */
  ghost predicate Overfills(c: Config, history: seq<Heard>, i: nat) {
    && i < |history|
    && var before, after := history[..i], history[..i + 1];
       && StateAfter(c, Silent, after).Silent?
       && Reach(before) <= Reach(after)
       && Kept(c, before) + (Reach(after) - Reach(before)) > c.preRollCapacity
  }

  /** A push sends stitched audio exactly for its windows that start speech, and drops something if
      and only if some window leaves more than there is room for. */
  lemma PushExactly<T>(c: Config, loudness: Loudness<T>, pushes: seq<seq<T>>, samples: seq<T>, x: seq<T>)
    requires c.Valid()
    ensures var g := Gates.PushAll(c, loudness, Gate(Silent, [], 0), pushes).0;
            var actions := Process(c, loudness, g, samples).1;
            var stream := Gates.Flatten(pushes + [samples]);
            var history := AllWindows(c, loudness, 0, pushes + [samples]);
            var from := |AllWindows(c, loudness, 0, pushes)|;
            && (SendStitched(x) in actions <==> exists i: nat :: from <= i && StartsSpeech(c, stream, history, i, x))
            && (Drops(actions) <==> exists i: nat :: from <= i && Overfills(c, history, i))
  {
    hide Walk, Coalesce, AllWindows, Drops;
    var g := Gates.PushAll(c, loudness, Gate(Silent, [], 0), pushes).0;
    var vs := Walk(c, loudness, g, samples).1;
    VerdictsExactly(c, loudness, pushes, samples);
    CoalesceKeepsKinds(vs, x);
    VerdictKinds(c, Gates.Flatten(pushes + [samples]), AllWindows(c, loudness, 0, pushes + [samples]),
                 |AllWindows(c, loudness, 0, pushes)|, vs, x);
  }

  lemma VerdictKinds<T>(c: Config, stream: seq<T>, history: seq<Heard>, from: nat, vs: seq<Verdict<T>>, x: seq<T>)
    requires VerdictsFrom(c, stream, history, from, vs)
    ensures Stitch(x) in vs <==> exists i: nat :: from <= i && StartsSpeech(c, stream, history, i, x)
    ensures Overflows(vs) <==> exists i: nat :: from <= i && Overfills(c, history, i)
  {
    hide StateAfter, SentUpTo, Kept, Reach;
    if Stitch(x) in vs {
      var j :| 0 <= j < |vs| && vs[j] == Stitch(x);
      VerdictKind(c, stream, history, from + j, vs[j], x);
      assert StartsSpeech(c, stream, history, from + j, x);
    }
    if i: nat :| from <= i && StartsSpeech(c, stream, history, i, x) {
      VerdictKind(c, stream, history, from + (i - from), vs[i - from], x);
    }
    if Overflows(vs) {
      var j :| 0 <= j < |vs| && vs[j].Hold? && vs[j].evicted > 0;
      VerdictKind(c, stream, history, from + j, vs[j], x);
      assert Overfills(c, history, from + j);
    }
    if i: nat :| from <= i && Overfills(c, history, i) {
      VerdictKind(c, stream, history, from + (i - from), vs[i - from], x);
    }
  }

  lemma VerdictKind<T>(c: Config, stream: seq<T>, history: seq<Heard>, i: nat, v: Verdict<T>, x: seq<T>)
    requires i < |history| && VerdictAt(c, stream, history, i) == Some(v)
    ensures v == Stitch(x) <==> StartsSpeech(c, stream, history, i, x)
    ensures v.Hold? && v.evicted > 0 <==> Overfills(c, history, i)
  {
    hide StateAfter, SentUpTo, Reach;
  }

  // ---- Windows and actions ----------------------------------------------------------

  ghost function WindowStart(i: nat, n: nat): nat {
    i * n
  }

  lemma NextStart(i: nat, n: nat)
    ensures WindowStart(0, n) == 0 && WindowStart(i + 1, n) == WindowStart(i, n) + n
    ensures WindowStart(i + 1, n) >= n
  {
  }

  /** A push is cut into windows of equal length, the last one shorter if need be; each counts with
      the loudness of its own samples and ends where they do. */
  lemma {:induction false} WindowsAre<T>(c: Config, loudness: Loudness<T>, clock: nat, samples: seq<T>, i: nat)
    requires c.Valid()
    ensures var ws := Windows(c, loudness, clock, samples);
            var start, end := WindowStart(i, c.windowSamples), Least(WindowStart(i + 1, c.windowSamples), |samples|);
            && (i < |ws| <==> start < |samples|)
            && (i < |ws| ==> ws[i] == Heard(loudness(samples[start..end]), clock + end))
    decreases i
  {
    hide WindowStart, Windows;
    NextStart(i, c.windowSamples);
    FirstWindow(c, loudness, clock, samples);
    if samples != [] && i > 0 {
      var n := WindowEnd(samples, c);
      NextStart(i - 1, c.windowSamples);
      WindowsAre(c, loudness, clock + n, samples[n..], i - 1);
      if n == c.windowSamples {
        SameSlice(samples, n, WindowStart(i - 1, n), Least(WindowStart(i, n), |samples| - n));
      }
    }
  }

  lemma FirstWindow<T>(c: Config, loudness: Loudness<T>, clock: nat, samples: seq<T>)
    requires c.Valid()
    ensures samples == [] ==> Windows(c, loudness, clock, samples) == []
    ensures samples != [] ==>
              var n := WindowEnd(samples, c);
              Windows(c, loudness, clock, samples)
              == [Heard(loudness(samples[..n]), clock + n)] + Windows(c, loudness, clock + n, samples[n..])
  {
  }

  lemma SameSlice<T>(samples: seq<T>, n: nat, start: nat, end: nat)
    requires n <= |samples|
    ensures start <= end && n + end <= |samples| ==> samples[n..][start..end] == samples[n + start..n + end]
  {
  }

  /** Two neighbours that could be one. */
  ghost predicate SameKind<T>(a: Action<T>, b: Action<T>) {
    (a.Send? && b.Send?) || (a.Drop? && b.Drop?)
  }

  ghost predicate Merged<T>(actions: seq<Action<T>>) {
    forall i :: 0 <= i < |actions| - 1 ==> !SameKind(actions[i], actions[i + 1])
  }

  lemma AppendKeepsMerged<T>(actions: seq<Action<T>>, v: Verdict<T>)
    requires Merged(actions)
    ensures Merged(AppendVerdict(actions, v))
  {
    if actions != [] {
      var n := |actions| - 1;
      assert actions == actions[..n] + [actions[n]];
      assert n > 0 ==> !SameKind(actions[n - 1], actions[n - 1 + 1]);
    }
  }

  lemma {:induction false} CoalesceMerges<T>(vs: seq<Verdict<T>>)
    ensures Merged(Coalesce(vs))
  {
    if vs != [] {
      hide AppendVerdict, Merged;
      CoalesceMerges(vs[..|vs| - 1]);
      AppendKeepsMerged(Coalesce(vs[..|vs| - 1]), vs[|vs| - 1]);
    } else {
      assert Merged(Coalesce(vs));
    }
  }

  /** What a push sends or drops in one stretch is one action. */
  lemma ActionsAreMerged<T>(c: Config, loudness: Loudness<T>, g: Gate<T>, samples: seq<T>)
    requires c.Valid()
    ensures Merged(Process(c, loudness, g, samples).1)
  {
    CoalesceMerges(Walk(c, loudness, g, samples).1);
  }
}
