/**
  What the actions of the silence gate do to the audio: replaying them over the pre-roll and
  the pushed samples consumes everything in order and leaves exactly the new pre-roll.
*/
module GateReplay {
  import opened Prelude
  import opened GateModel

  // ---- Replaying --------------------------------------------------------------------

  /** What is left of `stream` after one action, or None when the action does not fit. */
  ghost function Take<T>(a: Action<T>, stream: seq<T>): Option<seq<T>> {
    match a
    case Send(s) => if s <= stream then Some(stream[|s|..]) else None
    case SendStitched(s) => if s <= stream then Some(stream[|s|..]) else None
    case Drop(n) => if n <= |stream| then Some(stream[n..]) else None
  }

  ghost function Replay<T>(actions: seq<Action<T>>, stream: seq<T>): Option<seq<T>> {
    if actions == [] then Some(stream)
    else
      match Replay(actions[..|actions| - 1], stream)
      case None => None
      case Some(rest) => Take(actions[|actions| - 1], rest)
  }

  ghost function TakeVerdict<T>(v: Verdict<T>, stream: seq<T>): Option<seq<T>> {
    match v
    case Pass(w) => Take(Send(w), stream)
    case Stitch(b) => Take(SendStitched(b), stream)
    case Hold(n) => Take(Drop(n), stream)
  }

  ghost function ReplayVerdicts<T>(vs: seq<Verdict<T>>, stream: seq<T>): Option<seq<T>> {
    if vs == [] then Some(stream)
    else
      match ReplayVerdicts(vs[..|vs| - 1], stream)
      case None => None
      case Some(rest) => TakeVerdict(vs[|vs| - 1], rest)
  }

  lemma AppendReplays<T>(actions: seq<Action<T>>, a: Action<T>, stream: seq<T>)
    ensures Replay(Append(actions, a), stream) == Replay(actions + [a], stream)
  {
    var n := |actions| - 1;
    assert (actions + [a])[..|actions|] == actions;
    if actions != [] {
      var front := actions[..n];
      var both := Append(actions, a);
      match (actions[n], a)
      case (Send(x), Send(y)) =>
        assert both[..n] == front;
        if Replay(front, stream).Some? {
          var rest := Replay(front, stream).value;
          SendsCompose(x, y, rest);
        }
      case (Drop(x), Drop(y)) =>
        assert both[..n] == front;
        if Replay(front, stream).Some? {
          var rest := Replay(front, stream).value;
          if x + y <= |rest| { assert rest[x..][y..] == rest[x + y..]; }
        }
      case _ =>
    }
  }

  lemma SendsCompose<T>(x: seq<T>, y: seq<T>, rest: seq<T>)
    ensures x + y <= rest <==> x <= rest && y <= rest[|x|..]
    ensures x + y <= rest ==> rest[|x|..][|y|..] == rest[|x + y|..]
  {
    if x <= rest && y <= rest[|x|..] {
      assert x + y == rest[..|x|] + rest[|x|..][..|y|];
      assert rest[..|x|] + rest[|x|..][..|y|] == rest[..|x| + |y|];
    }
    if x + y <= rest {
      assert x == rest[..|x|];
      assert y == rest[|x|..][..|y|];
    }
  }

  lemma {:induction false} CoalesceReplays<T>(vs: seq<Verdict<T>>, stream: seq<T>)
    ensures Replay(Coalesce(vs), stream) == ReplayVerdicts(vs, stream)
  {
    if vs != [] {
      var front, v := vs[..|vs| - 1], vs[|vs| - 1];
      CoalesceReplays(front, stream);
      match v
      case Pass(w) =>
        AppendReplays(Coalesce(front), Send(w), stream);
        assert (Coalesce(front) + [Send(w)])[..|Coalesce(front)|] == Coalesce(front);
      case Stitch(b) =>
        assert (Coalesce(front) + [SendStitched(b)])[..|Coalesce(front)|] == Coalesce(front);
      case Hold(n) =>
        AppendReplays(Coalesce(front), Drop(n), stream);
        assert (Coalesce(front) + [Drop(n)])[..|Coalesce(front)|] == Coalesce(front);
    }
  }

  lemma {:induction false} VerdictsConcat<T>(a: seq<Verdict<T>>, b: seq<Verdict<T>>, stream: seq<T>)
    ensures ReplayVerdicts(a + b, stream) ==
              if ReplayVerdicts(a, stream).Some? then ReplayVerdicts(b, ReplayVerdicts(a, stream).value) else None
  {
    if b == [] {
      assert a + b == a;
    } else {
      VerdictsConcat(a, b[..|b| - 1], stream);
      assert (a + b)[..|a + b| - 1] == a + b[..|b| - 1];
    }
  }

  lemma StitchReplays<T>(preRoll: seq<T>, window: seq<T>, later: seq<T>)
    ensures preRoll + window <= preRoll + (window + later)
    ensures (preRoll + (window + later))[|preRoll + window|..] == later
  {
    assert preRoll + (window + later) == (preRoll + window) + later;
  }

  lemma WindowReplays<T>(c: Config, loudness: Loudness<T>, g: Gate<T>, window: seq<T>, later: seq<T>)
    requires GateOk(c, g)
    ensures var (g', v) := WindowStep(c, loudness, g, window);
            GateOk(c, g') && TakeVerdict(v, g.preRoll + (window + later)) == Some(g'.preRoll + later)
  {
    var (g', v) := WindowStep(c, loudness, g, window);
    var stream := g.preRoll + (window + later);
    match v
    case Pass(_) =>
      assert stream == window + later;
      assert g'.preRoll + later == later;
    case Stitch(b) =>
      StitchReplays(g.preRoll, window, later);
      assert b == g.preRoll + window && b <= stream && stream[|b|..] == later;
      assert g'.preRoll + later == later;
    case Hold(n) =>
      assert stream == (g.preRoll + window) + later;
      assert stream[n..] == (g.preRoll + window)[n..] + later;
      if c.preRollCapacity == 0 { assert (g.preRoll + window)[n..] == []; }
  }

  lemma {:induction false} WalkReplays<T>(c: Config, loudness: Loudness<T>, g: Gate<T>, samples: seq<T>)
    requires c.Valid() && GateOk(c, g)
    ensures var (g', vs) := Walk(c, loudness, g, samples);
            GateOk(c, g') && ReplayVerdicts(vs, g.preRoll + samples) == Some(g'.preRoll)
    decreases |samples|
  {
    if samples == [] {
      assert g.preRoll + samples == g.preRoll;
    } else {
      var end := WindowEnd(samples, c);
      var window, later := samples[..end], samples[end..];
      assert samples == window + later;
      var (g1, v) := WindowStep(c, loudness, g, window);
      WindowReplays(c, loudness, g, window, later);
      WalkReplays(c, loudness, g1, later);
      var rest := Walk(c, loudness, g1, later).1;
      VerdictsConcat([v], rest, g.preRoll + samples);
      assert [v][..0] == [];
      assert ReplayVerdicts([v], g.preRoll + samples) == TakeVerdict(v, g.preRoll + samples);
    }
  }

  /** One push: replaying its actions over pre-roll ++ samples consumes that stream in order and
      leaves exactly the new pre-roll. */
  lemma ProcessReplays<T>(c: Config, loudness: Loudness<T>, g: Gate<T>, samples: seq<T>)
    requires c.Valid() && GateOk(c, g)
    ensures var (g', actions) := Process(c, loudness, g, samples);
            GateOk(c, g') && Replay(actions, g.preRoll + samples) == Some(g'.preRoll)
  {
    WalkReplays(c, loudness, g, samples);
    CoalesceReplays(Walk(c, loudness, g, samples).1, g.preRoll + samples);
  }

  // ---- Any number of pushes ---------------------------------------------------------

  ghost function PushAll<T>(c: Config, loudness: Loudness<T>, g: Gate<T>, pushes: seq<seq<T>>)
    : (Gate<T>, seq<Action<T>>)
    requires c.Valid()
  {
    if pushes == [] then (g, [])
    else
      var (g1, before) := PushAll(c, loudness, g, pushes[..|pushes| - 1]);
      var (g2, last) := Process(c, loudness, g1, pushes[|pushes| - 1]);
      (g2, before + last)
  }

  ghost function Flatten<T>(pushes: seq<seq<T>>): seq<T> {
    if pushes == [] then [] else Flatten(pushes[..|pushes| - 1]) + pushes[|pushes| - 1]
  }

  lemma {:induction false} ReplayConcat<T>(a: seq<Action<T>>, b: seq<Action<T>>, stream: seq<T>)
    ensures Replay(a + b, stream) == if Replay(a, stream).Some? then Replay(b, Replay(a, stream).value) else None
  {
    if b == [] {
      assert a + b == a;
    } else {
      ReplayConcat(a, b[..|b| - 1], stream);
      assert (a + b)[..|a + b| - 1] == a + b[..|b| - 1];
    }
  }

  lemma {:induction false} ReplayFrames<T>(actions: seq<Action<T>>, stream: seq<T>, more: seq<T>)
    requires Replay(actions, stream).Some?
    ensures Replay(actions, stream + more) == Some(Replay(actions, stream).value + more)
  {
    if actions != [] {
      var front, a := actions[..|actions| - 1], actions[|actions| - 1];
      ReplayFrames(front, stream, more);
      var rest := Replay(front, stream).value;
      match a
      case Send(s) => assert (rest + more)[|s|..] == rest[|s|..] + more;
      case SendStitched(s) => assert (rest + more)[|s|..] == rest[|s|..] + more;
      case Drop(n) => assert (rest + more)[n..] == rest[n..] + more;
    }
  }

  lemma NothingReplays<T>(stream: seq<T>)
    ensures Replay<T>([], stream) == Some(stream)
  {
  }

  /** However the audio is cut into pushes: every sample is sent, dropped or still in the
      pre-roll, exactly once and in order. */
  lemma {:induction false} PushesReplay<T>(c: Config, loudness: Loudness<T>, g: Gate<T>, pushes: seq<seq<T>>)
    requires c.Valid() && GateOk(c, g)
    ensures var (g', actions) := PushAll(c, loudness, g, pushes);
            GateOk(c, g') && Replay(actions, g.preRoll + Flatten(pushes)) == Some(g'.preRoll)
  {
    hide Process, Replay;
    if pushes == [] {
      assert g.preRoll + Flatten(pushes) == g.preRoll;
      NothingReplays(g.preRoll);
    } else {
      var front, last := pushes[..|pushes| - 1], pushes[|pushes| - 1];
      var (g1, before) := PushAll(c, loudness, g, front);
      PushesReplay(c, loudness, g, front);
      ProcessReplays(c, loudness, g1, last);
      var actions := Process(c, loudness, g1, last).1;
      ReplayFrames(before, g.preRoll + Flatten(front), last);
      assert g.preRoll + Flatten(pushes) == (g.preRoll + Flatten(front)) + last;
      ReplayConcat(before, actions, g.preRoll + Flatten(pushes));
    }
  }

  ghost function Amount<T>(a: Action<T>): nat {
    match a
    case Send(s) => |s|
    case SendStitched(s) => |s|
    case Drop(n) => n
  }

  ghost function Total<T>(actions: seq<Action<T>>): nat {
    if actions == [] then 0 else Total(actions[..|actions| - 1]) + Amount(actions[|actions| - 1])
  }

  lemma {:induction false} ReplayConserves<T>(actions: seq<Action<T>>, stream: seq<T>)
    requires Replay(actions, stream).Some?
    ensures Total(actions) + |Replay(actions, stream).value| == |stream|
  {
    if actions != [] {
      ReplayConserves(actions[..|actions| - 1], stream);
    }
  }

  /** Conservation over any pushes, counted in samples. */
  lemma PushesConserve<T>(c: Config, loudness: Loudness<T>, g: Gate<T>, pushes: seq<seq<T>>)
    requires c.Valid() && GateOk(c, g)
    ensures var (g', actions) := PushAll(c, loudness, g, pushes);
            Total(actions) + |g'.preRoll| == |g.preRoll| + |Flatten(pushes)|
  {
    PushesReplay(c, loudness, g, pushes);
    ReplayConserves(PushAll(c, loudness, g, pushes).1, g.preRoll + Flatten(pushes));
  }

  // ---- Cutting at a window boundary -------------------------------------------------

  /** `actions` with adjacent sends and adjacent drops merged. */
  ghost function Merge<T>(actions: seq<Action<T>>): seq<Action<T>> {
    MergeOnto([], actions)
  }

  ghost function MergeOnto<T>(base: seq<Action<T>>, actions: seq<Action<T>>): seq<Action<T>> {
    if actions == [] then base
    else Append(MergeOnto(base, actions[..|actions| - 1]), actions[|actions| - 1])
  }

  lemma {:induction false} MergeOntoConcat<T>(base: seq<Action<T>>, a: seq<Action<T>>, b: seq<Action<T>>)
    ensures MergeOnto(base, a + b) == MergeOnto(MergeOnto(base, a), b)
  {
    if b == [] {
      assert a + b == a;
    } else {
      MergeOntoConcat(base, a, b[..|b| - 1]);
      assert (a + b)[..|a + b| - 1] == a + b[..|b| - 1];
    }
  }

  ghost predicate Merges<T>(a: Action<T>, b: Action<T>) {
    (a.Send? && b.Send?) || (a.Drop? && b.Drop?)
  }

  ghost function Merged<T>(a: Action<T>, b: Action<T>): Action<T>
    requires Merges(a, b)
  {
    if a.Send? then Send(a.samples + b.samples) else Drop(a.count + b.count)
  }

  lemma AppendMerges<T>(front: seq<Action<T>>, last: Action<T>, a: Action<T>)
    requires Merges(last, a)
    ensures Append(front + [last], a) == front + [Merged(last, a)]
  {
    assert (front + [last])[..|front|] == front;
  }

  lemma AppendAdds<T>(actions: seq<Action<T>>, a: Action<T>)
    requires actions == [] || !Merges(actions[|actions| - 1], a)
    ensures Append(actions, a) == actions + [a]
  {
  }

  lemma MergedAssociates<T>(x: Action<T>, a: Action<T>, b: Action<T>)
    requires Merges(x, a) && Merges(a, b)
    ensures Merged(Merged(x, a), b) == Merged(x, Merged(a, b))
  {
    if a.Send? {
      assert (x.samples + a.samples) + b.samples == x.samples + (a.samples + b.samples);
    }
  }

  lemma AppendAssociates<T>(base: seq<Action<T>>, a: Action<T>, b: Action<T>)
    requires Merges(a, b)
    ensures Append(Append(base, a), b) == Append(base, Merged(a, b))
  {
    hide Append;
    if base != [] && Merges(base[|base| - 1], a) {
      var front, x := base[..|base| - 1], base[|base| - 1];
      assert base == front + [x];
      AppendMerges(front, x, a);
      AppendMerges(front, Merged(x, a), b);
      AppendMerges(front, x, Merged(a, b));
      MergedAssociates(x, a, b);
    } else {
      AppendAdds(base, a);
      AppendMerges(base, a, b);
      AppendAdds(base, Merged(a, b));
    }
  }

  /** Appending commutes with merging onto a base. */
  lemma MergeOntoAppend<T>(base: seq<Action<T>>, actions: seq<Action<T>>, a: Action<T>)
    ensures MergeOnto(base, Append(actions, a)) == Append(MergeOnto(base, actions), a)
  {
    hide Append, MergeOnto;
    if actions != [] && Merges(actions[|actions| - 1], a) {
      var front, last := actions[..|actions| - 1], actions[|actions| - 1];
      assert actions == front + [last];
      AppendMerges(front, last, a);
      MergeOntoMore(base, front, last);
      MergeOntoMore(base, front, Merged(last, a));
      AppendAssociates(MergeOnto(base, front), last, a);
    } else {
      AppendAdds(actions, a);
      MergeOntoMore(base, actions, a);
    }
  }

  lemma MergeOntoMore<T>(base: seq<Action<T>>, actions: seq<Action<T>>, a: Action<T>)
    ensures MergeOnto(base, actions + [a]) == Append(MergeOnto(base, actions), a)
  {
    assert (actions + [a])[..|actions|] == actions;
  }

  lemma {:induction false} CoalesceMerges<T>(a: seq<Verdict<T>>, b: seq<Verdict<T>>)
    ensures MergeOnto(Coalesce(a), Coalesce(b)) == Coalesce(a + b)
  {
    if b == [] {
      assert a + b == a;
    } else {
      var front, v := b[..|b| - 1], b[|b| - 1];
      CoalesceMerges(a, front);
      assert (a + b)[..|a + b| - 1] == a + front;
      match v
      case Pass(w) => MergeOntoAppend(Coalesce(a), Coalesce(front), Send(w));
      case Stitch(buffer) =>
        MergeOntoAppend(Coalesce(a), Coalesce(front), SendStitched(buffer));
        StitchAppends(Coalesce(front), buffer);
        StitchAppends(Coalesce(a + front), buffer);
      case Hold(n) => MergeOntoAppend(Coalesce(a), Coalesce(front), Drop(n));
    }
  }

  lemma StitchAppends<T>(actions: seq<Action<T>>, buffer: seq<T>)
    ensures Append(actions, SendStitched(buffer)) == actions + [SendStitched(buffer)]
  {
  }

  lemma {:induction false} WalkSplits<T>(c: Config, loudness: Loudness<T>, g: Gate<T>, a: seq<T>, b: seq<T>)
    requires c.Valid() && |a| % c.windowSamples == 0
    ensures var (g1, va) := Walk(c, loudness, g, a);
            var (g2, vb) := Walk(c, loudness, g1, b);
            Walk(c, loudness, g, a + b) == (g2, va + vb)
    decreases |a|
  {
    var w := c.windowSamples;
    if a == [] {
      assert a + b == b;
      var vb := Walk(c, loudness, g, b).1;
      assert [] + vb == vb;
    } else {
      WholeWindows(|a|, w);
      assert (a + b)[..w] == a[..w] && (a + b)[w..] == a[w..] + b;
      var (g1, v) := WindowStep(c, loudness, g, a[..w]);
      WalkSplits(c, loudness, g1, a[w..], b);
      var (g2, va) := Walk(c, loudness, g1, a[w..]);
      var vb := Walk(c, loudness, g2, b).1;
      assert ([v] + va) + vb == [v] + (va + vb);
    }
  }

  lemma WholeWindows(n: nat, w: nat)
    requires w > 0 && n > 0 && n % w == 0
    ensures n >= w && (n - w) % w == 0
  {
    SmallMod(n, w);
    var k, q, r := n / w, (n - w) / w, (n - w) % w;
    assert n == w * k && n - w == w * q + r;
    assert w * (k - 1 - q) == r by { assert w * (k - 1 - q) == w * k - w - w * q; }
    OnlyZero(w, k - 1 - q, r);
  }

  lemma SmallMod(n: nat, w: nat)
    requires w > 0
    ensures n < w ==> n % w == n
  {
  }

  lemma OnlyZero(w: nat, d: int, r: nat)
    requires r < w && w * d == r
    ensures r == 0
  {
    Scaled(w, d);
  }

  lemma Scaled(w: int, d: int)
    requires w >= 0
    ensures d >= 1 ==> w * d >= w
    ensures d <= -1 ==> w * d <= -w
  {
    if d >= 1 {
      assert w * d >= w * 1;
    } else if d <= -1 {
      assert w * d <= w * (-1);
    }
  }

  /** Cutting a push at a window boundary reaches the same gate and, after merging adjacent sends
      and adjacent drops, the same actions. */
  lemma BoundarySplit<T>(c: Config, loudness: Loudness<T>, g: Gate<T>, a: seq<T>, b: seq<T>)
    requires c.Valid() && |a| % c.windowSamples == 0
    ensures var (g1, first) := Process(c, loudness, g, a);
            var (g2, second) := Process(c, loudness, g1, b);
            var (g', whole) := Process(c, loudness, g, a + b);
            g' == g2 && Merge(first + second) == whole && Merge(whole) == whole
  {
    hide Walk, Coalesce, MergeOnto;
    WalkSplits(c, loudness, g, a, b);
    NothingCoalesces<T>();
    var (g1, va) := Walk(c, loudness, g, a);
    var (g2, vb) := Walk(c, loudness, g1, b);
    CoalesceMerges([], va);
    CoalesceMerges([], va + vb);
    assert [] + va == va && [] + (va + vb) == va + vb;
    MergeOntoConcat([], Coalesce(va), Coalesce(vb));
    CoalesceMerges(va, vb);
  }

  lemma NothingCoalesces<T>()
    ensures Coalesce<T>([]) == []
  {
  }

  // ---- The hangover -----------------------------------------------------------------

  /** The clock before which a gate that is not silent cannot fall silent. */
  ghost function HoldsUntil<T>(c: Config, g: Gate<T>): nat {
    (if g.state.Hangover? then g.state.since else g.clock) + c.hangoverSamples
  }

  lemma {:induction false} WalkWithinHangover<T>(c: Config, loudness: Loudness<T>, g: Gate<T>, samples: seq<T>)
    requires c.Valid() && GateOk(c, g) && !g.state.Silent?
    requires g.clock + |samples| < HoldsUntil(c, g)
    ensures var (g', vs) := Walk(c, loudness, g, samples);
            && !g'.state.Silent? && g'.clock == g.clock + |samples|
            && HoldsUntil(c, g') >= HoldsUntil(c, g)
            && forall i :: 0 <= i < |vs| ==> vs[i].Pass?
    decreases |samples|
  {
    if samples != [] {
      var end := WindowEnd(samples, c);
      var (g1, v) := WindowStep(c, loudness, g, samples[..end]);
      WindowReplays(c, loudness, g, samples[..end], []);
      WalkWithinHangover(c, loudness, g1, samples[end..]);
    }
  }

  lemma {:induction false} PassesCoalesce<T>(vs: seq<Verdict<T>>)
    requires forall i :: 0 <= i < |vs| ==> vs[i].Pass?
    ensures forall i :: 0 <= i < |Coalesce(vs)| ==> Coalesce(vs)[i].Send?
  {
    if vs != [] {
      PassesCoalesce(vs[..|vs| - 1]);
    }
  }

  /** Once quiet, nothing is held back or dropped until the clock has advanced by the hangover
      past the first quiet window, however the audio is cut into pushes. */
  lemma {:induction false} NothingDroppedWithinHangover<T>(c: Config, loudness: Loudness<T>, g: Gate<T>,
                                                           pushes: seq<seq<T>>)
    requires c.Valid() && GateOk(c, g) && !g.state.Silent?
    requires g.clock + |Flatten(pushes)| < HoldsUntil(c, g)
    ensures var (g', actions) := PushAll(c, loudness, g, pushes);
            && GateOk(c, g') && !g'.state.Silent? && g'.clock == g.clock + |Flatten(pushes)|
            && HoldsUntil(c, g') >= HoldsUntil(c, g)
            && forall i :: 0 <= i < |actions| ==> actions[i].Send?
  {
    if pushes != [] {
      var front, last := pushes[..|pushes| - 1], pushes[|pushes| - 1];
      NothingDroppedWithinHangover(c, loudness, g, front);
      var g1 := PushAll(c, loudness, g, front).0;
      WalkWithinHangover(c, loudness, g1, last);
      WalkReplays(c, loudness, g1, last);
      PassesCoalesce(Walk(c, loudness, g1, last).1);
    }
  }
}
