/** What lies at each frame of an aligned track. */
module AlignerContent {
  import opened Prelude
  import opened Resampling
  import opened AlignerModel

  /** A packet whose frames are taken over one by one: it is flagged, or its length is more than a
      twentieth away from what its time should hold. */
  ghost predicate TakenOver(p: Packet, frames: nat) {
    p.discontinuity || 20 * (frames - |p.samples|) > |p.samples| || 20 * (|p.samples| - frames) > |p.samples|
  }

  lemma HardJumpExactly(p: Packet, frames: nat)
    requires p.samples != []
    ensures HardJump(p, frames) <==> TakenOver(p, frames)
  {
    hide Deviation;
    DeviationExceeds(frames, |p.samples|);
  }

  lemma DeviationExceeds(expected: nat, actual: nat)
    requires actual > 0
    ensures Deviation(expected, actual) > 0.05 <==>
              20 * (expected - actual) > actual || 20 * (actual - expected) > actual
  {
    hide Deviation;
    var off := if expected >= actual then expected - actual else actual - expected;
    DeviationScaled(expected, actual, off);
    Exceeds(Deviation(expected, actual), actual as real, off as real);
    RealTwentieth(off, actual);
  }

  lemma Exceeds(d: real, x: real, off: real)
    requires x > 0.0 && d * x == off
    ensures d > 0.05 <==> off > 0.05 * x
  {
    TimesPositive(d, 0.05, x);
  }

  lemma DeviationScaled(expected: nat, actual: nat, off: nat)
    requires actual > 0 && off == if expected >= actual then expected - actual else actual - expected
    ensures Deviation(expected, actual) * actual as real == off as real
  {
    var x: real := actual as real;
    var ratio := expected as real / x;
    assert ratio * x == expected as real;
    TimesPositive(ratio, 1.0, x);
    Distributes(ratio, x);
  }

  lemma Distributes(ratio: real, x: real)
    ensures (ratio - 1.0) * x == ratio * x - x
    ensures (1.0 - ratio) * x == x - ratio * x
  {
  }

  lemma RealTwentieth(off: nat, actual: nat)
    ensures off as real > 0.05 * actual as real <==> 20 * off > actual
  {
    assert (20 * off) as real == 20.0 * off as real;
  }

  lemma TimesPositive(a: real, b: real, x: real)
    requires x > 0.0
    ensures a > b <==> a * x > b * x
    ensures a >= b <==> a * x >= b * x
  {
    if a > b {
      assert (a - b) * x > 0.0;
    } else if a < b {
      assert (b - a) * x > 0.0;
    }
  }

  /** Frame `j` of what a packet contributes: silence if it is empty; its own frame, or silence
      behind its last one, if it is taken over; the interpolated frame otherwise. */
  ghost function FrameOf(p: Packet, frames: nat, j: nat): real
    requires j < frames
  {
    if p.samples == [] then 0.0
    else if TakenOver(p, frames) then (if j < |p.samples| then p.samples[j] else 0.0)
    else Resampled(p.samples, frames)[j]
  }

  lemma FittedFrames(p: Packet, frames: nat, j: nat)
    requires j < frames
    ensures |Fitted(p, frames)| == frames && Fitted(p, frames)[j] == FrameOf(p, frames, j)
  {
    hide Deviation, Resampled;
    FittedLength(p, frames);
    if p.samples != [] {
      HardJumpExactly(p, frames);
    }
  }

  /** A time is rounded to the nearest frame, and half a frame up. */
  lemma RoundsHalfUp(ns: nat, rate: nat)
    ensures var frames := NsToFramesRound(ns, rate);
            1_000_000_000 * (2 * frames - 1) <= 2 * (rate * ns) < 1_000_000_000 * (2 * frames + 1)
  {
    ScaledIs(rate, ns);
    hide Scaled;
  }

  lemma ScaledIs(rate: nat, ns: nat)
    ensures Scaled(rate, ns) == rate * ns
  {
  }

  /** Where there is nothing to interpolate between, the first sample is held. */
  lemma OneSampleHeld(samples: seq<real>, frames: nat, j: nat)
    requires j < frames && samples != [] && (|samples| == 1 || frames == 1)
    ensures Resampled(samples, frames)[j] == samples[0]
  {
  }

  /** Every packet's frames lie at the frame of its own time. */
  lemma FrameInPlace(rate: nat, packets: seq<Packet>, i: nat, j: nat)
    requires OnGrid(rate, packets) && i < |packets| && j < NsToFramesRound(packets[i].nominalDurationNs, rate)
    ensures packets[i].hostTimeNs >= packets[0].hostTimeNs
    ensures var at := NsToFramesRound(packets[i].hostTimeNs - packets[0].hostTimeNs, rate);
            var frames := NsToFramesRound(packets[i].nominalDurationNs, rate);
            var output := IngestAll(rate, packets).output;
            at + j < |output| && output[at + j] == FrameOf(packets[i], frames, j)
  {
    hide NsToFramesRound, OnGrid, Fitted, IngestAll, FrameOf;
    AudioIsInPlace(rate, packets, i);
    var at := NsToFramesRound(packets[i].hostTimeNs - packets[0].hostTimeNs, rate);
    var frames := NsToFramesRound(packets[i].nominalDurationNs, rate);
    var output := IngestAll(rate, packets).output;
    FittedFrames(packets[i], frames, j);
    assert output[at..at + frames][j] == output[at + j];
  }

  /** Frame `x` of the track belongs to packet `i`. */
  ghost predicate Covers(rate: nat, packets: seq<Packet>, i: nat, x: nat) {
    && i < |packets| && packets[i].hostTimeNs >= packets[0].hostTimeNs
    && var at := NsToFramesRound(packets[i].hostTimeNs - packets[0].hostTimeNs, rate);
       at <= x < at + NsToFramesRound(packets[i].nominalDurationNs, rate)
  }

  /** Whatever belongs to no packet is silence. */
  lemma {:induction false} SilenceBetween(rate: nat, packets: seq<Packet>, x: nat)
    requires OnGrid(rate, packets) && x < |IngestAll(rate, packets).output|
    requires forall i: nat :: !Covers(rate, packets, i, x)
    ensures IngestAll(rate, packets).output[x] == 0.0
  {
    hide NsToFramesRound, Fitted, FitStats, Whole, Scaled;
    var n := |packets| - 1;
    var front, p := packets[..n], packets[n];
    var a := IngestAll(rate, front);
    IngestedClock(rate, front);
    GridLength(rate, packets);
    IngestParts(a, p);
    if x < |a.output| {
      forall i: nat ensures !Covers(rate, front, i, x) {
        assert !Covers(rate, packets, i, x);
      }
      SilenceBetween(rate, front, x);
    } else {
      assert !Covers(rate, packets, n, x);
    }
  }

  lemma IngestParts(a: Aligner, p: Packet)
    ensures var a' := Ingest(a, p);
            var start := |a.output| + GapFrames(a, p);
            && |a'.output| == start + NsToFramesRound(p.nominalDurationNs, a.rate)
            && (forall x :: 0 <= x < |a.output| ==> a'.output[x] == a.output[x])
            && (forall x :: |a.output| <= x < start ==> a'.output[x] == 0.0)
  {
    hide NsToFramesRound, Fitted, FitStats;
    IngestLength(a, p);
  }

  /** Finishing a track adds silence only, and nothing the second time. */
  lemma FinishAddsSilence(a: Aligner, endNs: nat)
    ensures var done := FinalizeUpTo(a, endNs);
            && a.output <= done.output
            && (forall x :: |a.output| <= x < |done.output| ==> done.output[x] == 0.0)
            && FinalizeUpTo(done, endNs) == done
  {
    hide NsToFramesRound;
  }

  // ---- Statistics of the hard jumps -------------------------------------------------

  /** A packet that has frames to give and time to give them to. */
  ghost predicate Gives(rate: nat, p: Packet) {
    p.samples != [] && NsToFramesRound(p.nominalDurationNs, rate) > 0
  }

  ghost function TakenOverCount(rate: nat, packets: seq<Packet>): nat {
    if packets == [] then 0
    else
      var p := packets[|packets| - 1];
      TakenOverCount(rate, packets[..|packets| - 1])
      + if Gives(rate, p) && TakenOver(p, NsToFramesRound(p.nominalDurationNs, rate)) then 1 else 0
  }

  lemma JumpCounted(a: Aligner, p: Packet)
    ensures var frames := NsToFramesRound(p.nominalDurationNs, a.rate);
            var s, s' := a.stats, Ingest(a, p).stats;
            && s'.hardJumps == s.hardJumps + (if Gives(a.rate, p) && TakenOver(p, frames) then 1 else 0)
            && s'.maxDeviation >= s.maxDeviation
            && (Gives(a.rate, p) ==> s'.maxDeviation >= Deviation(frames, |p.samples|))
            && (s'.maxDeviation == s.maxDeviation
                || (Gives(a.rate, p) && s'.maxDeviation == Deviation(frames, |p.samples|)))
  {
    hide NsToFramesRound, Deviation, TakenOver, HardJump, Fitted;
    if p.samples != [] {
      HardJumpExactly(p, NsToFramesRound(p.nominalDurationNs, a.rate));
    }
  }

  ghost function DeviationOf(rate: nat, p: Packet): real {
    if Gives(rate, p) then Deviation(NsToFramesRound(p.nominalDurationNs, rate), |p.samples|) else 0.0
  }

  /** The hard jumps counted are the packets taken over, and the deviation reported is the largest. */
  lemma {:induction false} JumpsCounted(rate: nat, packets: seq<Packet>)
    ensures var s := IngestAll(rate, packets).stats;
            && s.hardJumps == TakenOverCount(rate, packets)
            && (forall i :: 0 <= i < |packets| ==> DeviationOf(rate, packets[i]) <= s.maxDeviation)
            && (s.maxDeviation == 0.0
                || exists i :: 0 <= i < |packets| && DeviationOf(rate, packets[i]) == s.maxDeviation)
  {
    if packets != [] {
      hide Ingest, NsToFramesRound, Gives, TakenOver, Deviation, DeviationOf;
      var n := |packets| - 1;
      var front, p := packets[..n], packets[n];
      var s, s' := IngestAll(rate, front).stats, IngestAll(rate, packets).stats;
      JumpsCounted(rate, front);
      NeverNegative(rate, packets);
      LastJump(rate, packets);
      assert forall i :: 0 <= i < n ==> front[i] == packets[i];
      if s'.maxDeviation == s.maxDeviation && s.maxDeviation != 0.0 {
        var i :| 0 <= i < n && DeviationOf(rate, front[i]) == s.maxDeviation;
        assert DeviationOf(rate, packets[i]) == s'.maxDeviation;
      } else if s'.maxDeviation != 0.0 {
        assert DeviationOf(rate, packets[n]) == s'.maxDeviation;
      }
    }
  }

  lemma LastJump(rate: nat, packets: seq<Packet>)
    requires packets != []
    ensures var n := |packets| - 1;
            var p, s, s' := packets[n], IngestAll(rate, packets[..n]).stats, IngestAll(rate, packets).stats;
            && s'.hardJumps == s.hardJumps
               + (if Gives(rate, p) && TakenOver(p, NsToFramesRound(p.nominalDurationNs, rate)) then 1 else 0)
            && s'.maxDeviation >= s.maxDeviation
            && (s'.maxDeviation >= 0.0 ==> DeviationOf(rate, p) <= s'.maxDeviation)
            && (s'.maxDeviation == s.maxDeviation || s'.maxDeviation == DeviationOf(rate, p))
  {
    hide Ingest, NsToFramesRound, Gives, TakenOver, Deviation;
    var n := |packets| - 1;
    IngestedClock(rate, packets[..n]);
    JumpCounted(IngestAll(rate, packets[..n]), packets[n]);
  }

  lemma {:induction false} NeverNegative(rate: nat, packets: seq<Packet>)
    ensures IngestAll(rate, packets).stats.maxDeviation >= 0.0
  {
    if packets != [] {
      hide Ingest;
      NeverNegative(rate, packets[..|packets| - 1]);
      JumpCounted(IngestAll(rate, packets[..|packets| - 1]), packets[|packets| - 1]);
    }
  }
}
