/**
  Aligning the packets of one source onto a continuous timeline
  (crates/audio-timeline/src/aligner.rs), over exact arithmetic.
*/
module AlignerModel {
  import opened Prelude
  import opened Resampling

  const NS: nat := 1_000_000_000
  const MAX_SMOOTH_RATIO_DEVIATION: real := 0.05

  datatype Packet = Packet(hostTimeNs: nat, nominalDurationNs: nat, samples: seq<real>, discontinuity: bool)

  datatype Stats = Stats(
    packetsProcessed: nat, gapsDetected: nat, discontinuitiesSeen: nat, silenceFramesInserted: nat,
    resampledFrames: nat, hardJumps: nat, maxDeviation: real)

  datatype Aligner = Aligner(rate: nat, output: seq<real>, next: Option<nat>, stats: Stats)

  function New(rate: nat): Aligner {
    Aligner(rate, [], None, Stats(0, 0, 0, 0, 0, 0, 0.0))
  }

  /** Nanoseconds times rate: frames, a billion times over. */
  function Scaled(rate: nat, ns: nat): nat {
    rate * ns
  }

  /** To the nearest frame; half a frame rounds up. */
  function NsToFramesRound(ns: nat, rate: nat): nat {
    (2 * Scaled(rate, ns) + NS) / (2 * NS)
  }

  function Zeros(n: nat): seq<real> {
    seq(n, i => 0.0)
  }

  function Deviation(expected: nat, actual: nat): real
    requires actual > 0
  {
    var ratio := expected as real / actual as real;
    if ratio >= 1.0 then ratio - 1.0 else 1.0 - ratio
  }

  predicate HardJump(p: Packet, expected: nat)
    requires p.samples != []
  {
    p.discontinuity || Deviation(expected, |p.samples|) > MAX_SMOOTH_RATIO_DEVIATION
  }

  /** What a packet contributes: always exactly the frames its interval should hold. */
  function Fitted(p: Packet, expected: nat): seq<real> {
    if expected == 0 then []
    else if p.samples == [] then Zeros(expected)
    else if HardJump(p, expected) then
      if |p.samples| >= expected then p.samples[..expected] else p.samples + Zeros(expected - |p.samples|)
    else Resampled(p.samples, expected)
  }

  function StartOf(a: Aligner, p: Packet): nat {
    if a.next.Some? then a.next.value else p.hostTimeNs
  }

  function GapFrames(a: Aligner, p: Packet): nat {
    if p.hostTimeNs > StartOf(a, p) then NsToFramesRound(p.hostTimeNs - StartOf(a, p), a.rate) else 0
  }

  function Filled(a: Aligner, p: Packet): Aligner {
    if p.hostTimeNs > StartOf(a, p) then
      var frames := GapFrames(a, p);
      a.(output := a.output + Zeros(frames),
         stats := a.stats.(silenceFramesInserted := a.stats.silenceFramesInserted + frames,
                           gapsDetected := a.stats.gapsDetected + 1))
    else a
  }

  function FitStats(s: Stats, p: Packet, expected: nat): Stats {
    if expected == 0 then s
    else if p.samples == [] then s.(silenceFramesInserted := s.silenceFramesInserted + expected)
    else
      var d := Deviation(expected, |p.samples|);
      var s1 := s.(maxDeviation := if d > s.maxDeviation then d else s.maxDeviation);
      if !HardJump(p, expected) then s1.(resampledFrames := s1.resampledFrames + expected)
      else
        var s2 := s1.(hardJumps := s1.hardJumps + 1);
        if |p.samples| >= expected then s2
        else s2.(silenceFramesInserted := s2.silenceFramesInserted + (expected - |p.samples|))
  }

  function Ingest(a: Aligner, p: Packet): Aligner {
    var a1 := Filled(a, p);
    var expected := NsToFramesRound(p.nominalDurationNs, a.rate);
    var s := FitStats(a1.stats, p, expected);
    Aligner(a.rate, a1.output + Fitted(p, expected), Some(p.hostTimeNs + p.nominalDurationNs),
            s.(discontinuitiesSeen := s.discontinuitiesSeen + (if p.discontinuity then 1 else 0),
               packetsProcessed := s.packetsProcessed + 1))
  }

  function FinalizeUpTo(a: Aligner, endNs: nat): Aligner {
    var start := if a.next.Some? then a.next.value else 0;
    if endNs > start then
      var frames := NsToFramesRound(endNs - start, a.rate);
      a.(output := a.output + Zeros(frames), next := Some(endNs),
         stats := a.stats.(silenceFramesInserted := a.stats.silenceFramesInserted + frames))
    else a.(next := Some(endNs))
  }

  function IngestAll(rate: nat, packets: seq<Packet>): Aligner {
    if packets == [] then New(rate)
    else Ingest(IngestAll(rate, packets[..|packets| - 1]), packets[|packets| - 1])
  }

  // ---- The clock of a packet list ---------------------------------------------------

  function EndNs(p: Packet): nat {
    p.hostTimeNs + p.nominalDurationNs
  }

  /** The packet before the last one, by its end; the last packet's own start when it is alone. */
  function EndBefore(packets: seq<Packet>): nat
    requires packets != []
  {
    if |packets| == 1 then packets[0].hostTimeNs else EndNs(packets[|packets| - 2])
  }

  /** Nanoseconds delivered twice: by which packets start before their predecessor's end. */
  function Overlap(packets: seq<Packet>): nat {
    if packets == [] then 0
    else
      var p := packets[|packets| - 1];
      Overlap(packets[..|packets| - 1])
      + if EndBefore(packets) > p.hostTimeNs then EndBefore(packets) - p.hostTimeNs else 0
  }

  /** How many packets start after their predecessor's end. */
  function Gaps(packets: seq<Packet>): nat {
    if packets == [] then 0
    else Gaps(packets[..|packets| - 1]) + if EndBefore(packets) < packets[|packets| - 1].hostTimeNs then 1 else 0
  }

  /** How much time the packets account for, overlaps counted twice. */
  function Covered(packets: seq<Packet>): int {
    if packets == [] then 0 else EndNs(packets[|packets| - 1]) - packets[0].hostTimeNs + Overlap(packets)
  }

  // ---- Rounding ---------------------------------------------------------------------

  lemma ScaledSum(rate: nat, a: nat, b: nat)
    ensures Scaled(rate, a + b) == Scaled(rate, a) + Scaled(rate, b)
  {
  }

  lemma HalfAFrame(ns: nat, rate: nat)
    ensures -(NS as int) <= 2 * (NS * NsToFramesRound(ns, rate)) - 2 * Scaled(rate, ns) <= NS
  {
    hide Scaled;
  }

  lemma FittedLength(p: Packet, expected: nat)
    ensures |Fitted(p, expected)| == expected
  {
    hide Deviation;
  }

  // ---- Length -----------------------------------------------------------------------

  lemma IngestLength(a: Aligner, p: Packet)
    ensures var a' := Ingest(a, p);
            && |a'.output| == |a.output| + GapFrames(a, p) + NsToFramesRound(p.nominalDurationNs, a.rate)
            && a'.rate == a.rate && a'.next == Some(EndNs(p))
            && a'.stats.gapsDetected == a.stats.gapsDetected + (if p.hostTimeNs > StartOf(a, p) then 1 else 0)
            && a'.stats.packetsProcessed == a.stats.packetsProcessed + 1
  {
    hide Fitted, NsToFramesRound, Deviation;
    FittedLength(p, NsToFramesRound(p.nominalDurationNs, a.rate));
  }

  /** The loop's state after any packets, by their times alone. */
  lemma {:induction false} IngestedClock(rate: nat, packets: seq<Packet>)
    ensures var a := IngestAll(rate, packets);
            && a.rate == rate
            && a.next == (if packets == [] then None else Some(EndNs(packets[|packets| - 1])))
            && a.stats.gapsDetected == Gaps(packets) && a.stats.packetsProcessed == |packets|
  {
    hide Ingest;
    if packets != [] {
      var front := packets[..|packets| - 1];
      IngestedClock(rate, front);
      IngestLength(IngestAll(rate, front), packets[|packets| - 1]);
    }
  }

  lemma {:induction false} CoveredIsPositive(packets: seq<Packet>)
    ensures Covered(packets) >= 0
    ensures packets != [] ==>
              var p := packets[|packets| - 1];
              Covered(packets) == Covered(packets[..|packets| - 1]) + p.nominalDurationNs
                                  + (if p.hostTimeNs > EndBefore(packets) then p.hostTimeNs - EndBefore(packets) else 0)
  {
    if packets != [] {
      var front := packets[..|packets| - 1];
      CoveredIsPositive(front);
      if front == [] {
        assert Overlap(front) == 0 && Covered(front) == 0;
      } else {
        assert front[0] == packets[0] && EndBefore(packets) == EndNs(front[|front| - 1]);
      }
    }
  }

  /** Twice a billion times the length is off by at most a billion a rounding. */
  ghost predicate Near(length: nat, rate: nat, ns: int, roundings: nat) {
    ns >= 0 && -(NS * roundings) as int <= 2 * (NS * length) - 2 * Scaled(rate, ns) <= NS * roundings
  }

  lemma NearGrows(length: nat, rate: nat, ns: int, roundings: nat, more: nat)
    requires Near(length, rate, ns, roundings)
    ensures Near(length + NsToFramesRound(more, rate), rate, ns + more, roundings + 1)
  {
    hide NsToFramesRound;
    HalfAFrame(more, rate);
    ScaledSum(rate, ns, more);
    hide Scaled;
  }

  lemma {:induction false} IngestedLength(rate: nat, packets: seq<Packet>)
    ensures Near(|IngestAll(rate, packets).output|, rate, Covered(packets), |packets| + Gaps(packets))
  {
    hide Ingest, NsToFramesRound, Near, Covered;
    CoveredIsPositive(packets);
    if packets == [] {
      NothingIsNear(rate);
    } else {
      var front, p := packets[..|packets| - 1], packets[|packets| - 1];
      var a := IngestAll(rate, front);
      IngestedLength(rate, front);
      IngestedClock(rate, front);
      IngestLength(a, p);
      assert StartOf(a, p) == EndBefore(packets);
      var gap := if p.hostTimeNs > EndBefore(packets) then p.hostTimeNs - EndBefore(packets) else 0;
      if gap > 0 {
        NearGrows(|a.output|, rate, Covered(front), |front| + Gaps(front), gap);
        NearGrows(|a.output| + GapFrames(a, p), rate, Covered(front) + gap, |front| + Gaps(front) + 1,
                  p.nominalDurationNs);
      } else {
        NearGrows(|a.output|, rate, Covered(front), |front| + Gaps(front), p.nominalDurationNs);
      }
    }
  }

  lemma NothingIsNear(rate: nat)
    ensures Near(0, rate, Covered([]), 0)
  {
  }

  /** However the packets fell, the finished track is at most half a frame a rounding away from
      the time it spans plus what was delivered twice. */
  lemma LengthBound(rate: nat, packets: seq<Packet>, endNs: nat)
    requires packets != []
    ensures var last := EndNs(packets[|packets| - 1]);
            var span := (if endNs > last then endNs else last) - packets[0].hostTimeNs + Overlap(packets);
            var length := |FinalizeUpTo(IngestAll(rate, packets), endNs).output|;
            var roundings := |packets| + Gaps(packets) + 1;
            && span >= 0
            && -(NS * roundings) as int <= 2 * (NS * length) - 2 * (rate * span) <= NS * roundings
            && IngestAll(rate, packets).stats.gapsDetected == Gaps(packets)
  {
    hide Ingest, NsToFramesRound, Near;
    IngestedLength(rate, packets);
    IngestedClock(rate, packets);
    CoveredIsPositive(packets);
    var a := IngestAll(rate, packets);
    var last := EndNs(packets[|packets| - 1]);
    if endNs > last {
      NearGrows(|a.output|, rate, Covered(packets), |packets| + Gaps(packets), endNs - last);
      NearMeans(|FinalizeUpTo(a, endNs).output|, rate, Covered(packets) + (endNs - last),
                |packets| + Gaps(packets) + 1);
    } else {
      NearMeans(|a.output|, rate, Covered(packets), |packets| + Gaps(packets));
    }
  }

  lemma NearMeans(length: nat, rate: nat, ns: int, roundings: nat)
    requires Near(length, rate, ns, roundings)
    ensures ns >= 0 && -(NS * roundings) as int <= 2 * (NS * length) - 2 * (rate * ns) <= NS * roundings
  {
  }

  // ---- Statistics -------------------------------------------------------------------

  /** Frames of a packet that are taken over sample by sample. */
  function Copied(p: Packet, expected: nat): nat {
    if expected == 0 || p.samples == [] || !HardJump(p, expected) then 0
    else if |p.samples| >= expected then expected
    else |p.samples|
  }

  function CopiedAll(rate: nat, packets: seq<Packet>): nat {
    if packets == [] then 0
    else
      var p := packets[|packets| - 1];
      CopiedAll(rate, packets[..|packets| - 1]) + Copied(p, NsToFramesRound(p.nominalDurationNs, rate))
  }

  function Flagged(packets: seq<Packet>): nat {
    if packets == [] then 0
    else Flagged(packets[..|packets| - 1]) + if packets[|packets| - 1].discontinuity then 1 else 0
  }

  lemma FitAddsUp(s: Stats, p: Packet, expected: nat)
    ensures var s' := FitStats(s, p, expected);
            && s'.silenceFramesInserted + s'.resampledFrames + Copied(p, expected)
                 == s.silenceFramesInserted + s.resampledFrames + expected
            && s'.gapsDetected == s.gapsDetected && s'.packetsProcessed == s.packetsProcessed
            && s'.discontinuitiesSeen == s.discontinuitiesSeen
  {
    hide Deviation;
  }

  /** Every frame of the output is silence put in, resampled or copied, and the statistics say how
      many of each; every packet is counted, and every flagged one as a discontinuity. */
  lemma {:induction false} StatsAddUp(rate: nat, packets: seq<Packet>)
    ensures var a := IngestAll(rate, packets);
            && a.stats.silenceFramesInserted + a.stats.resampledFrames + CopiedAll(rate, packets) == |a.output|
            && a.stats.packetsProcessed == |packets| && a.stats.discontinuitiesSeen == Flagged(packets)
  {
    if packets != [] {
      var front, p := packets[..|packets| - 1], packets[|packets| - 1];
      StatsAddUp(rate, front);
      IngestAddsUp(IngestAll(rate, front), p);
      IngestedClock(rate, front);
    }
  }

  lemma IngestAddsUp(a: Aligner, p: Packet)
    ensures var a' := Ingest(a, p);
            && a'.stats.silenceFramesInserted + a'.stats.resampledFrames
               + Copied(p, NsToFramesRound(p.nominalDurationNs, a.rate))
                 == a.stats.silenceFramesInserted + a.stats.resampledFrames + (|a'.output| - |a.output|)
            && a'.stats.packetsProcessed == a.stats.packetsProcessed + 1
            && a'.stats.discontinuitiesSeen == a.stats.discontinuitiesSeen + (if p.discontinuity then 1 else 0)
  {
    hide Fitted, NsToFramesRound, FitStats, Copied;
    FitAddsUp(Filled(a, p).stats, p, NsToFramesRound(p.nominalDurationNs, a.rate));
    FittedLength(p, NsToFramesRound(p.nominalDurationNs, a.rate));
  }

  // ---- Whole frames -----------------------------------------------------------------

  ghost predicate Whole(rate: nat, ns: nat) {
    Scaled(rate, ns) % NS == 0
  }

  /** No packet starts before its predecessor ends, and all times fall on frames. */
  ghost predicate OnGrid(rate: nat, packets: seq<Packet>) {
    packets == []
    || (var p := packets[|packets| - 1];
        && OnGrid(rate, packets[..|packets| - 1])
        && EndBefore(packets) <= p.hostTimeNs && packets[0].hostTimeNs <= p.hostTimeNs
        && Whole(rate, p.hostTimeNs - packets[0].hostTimeNs) && Whole(rate, p.nominalDurationNs))
  }

  lemma WholeFrames(rate: nat, ns: nat)
    requires Whole(rate, ns)
    ensures NS * NsToFramesRound(ns, rate) == Scaled(rate, ns)
  {
    hide Scaled;
  }

  lemma WholeDifference(rate: nat, a: nat, b: nat, frames: nat)
    requires Whole(rate, a) && Scaled(rate, b) == NS * frames && b <= a
    ensures Whole(rate, a - b) && NsToFramesRound(a, rate) == frames + NsToFramesRound(a - b, rate)
  {
    ScaledSum(rate, a - b, b);
    hide Scaled;
    WholeFrames(rate, a);
    WholeFrames(rate, a - b);
  }

  /** On the grid lengths are exact: each packet begins at the frame of its own time. */
  lemma {:induction false} GridLength(rate: nat, packets: seq<Packet>)
    requires OnGrid(rate, packets) && packets != []
    ensures var p := packets[|packets| - 1];
            var a := IngestAll(rate, packets[..|packets| - 1]);
            && |a.output| + GapFrames(a, p) == NsToFramesRound(p.hostTimeNs - packets[0].hostTimeNs, rate)
            && EndNs(p) >= packets[0].hostTimeNs
            && NS * |IngestAll(rate, packets).output| == Scaled(rate, EndNs(p) - packets[0].hostTimeNs)
  {
    hide Ingest, NsToFramesRound, Whole, Scaled;
    var front, p := packets[..|packets| - 1], packets[|packets| - 1];
    var a := IngestAll(rate, front);
    var start := packets[0].hostTimeNs;
    IngestedClock(rate, front);
    IngestLength(a, p);
    WholeFrames(rate, p.nominalDurationNs);
    WholeFrames(rate, p.hostTimeNs - start);
    ScaledSum(rate, p.hostTimeNs - start, p.nominalDurationNs);
    if front == [] {
      ZeroFrames(rate);
    } else {
      GridLength(rate, front);
      WholeDifference(rate, p.hostTimeNs - start, EndBefore(packets) - start, |a.output|);
      if p.hostTimeNs == EndBefore(packets) { ZeroFrames(rate); }
    }
  }

  lemma ZeroFrames(rate: nat)
    ensures NsToFramesRound(0, rate) == 0
  {
    assert Scaled(rate, 0) == 0;
  }

  /** Two tracks that begin together and stay on the grid end with equal lengths, whatever packets
      each of them lost: the frames of the time since they began. */
  lemma TracksEndTogether(rate: nat, p: seq<Packet>, q: seq<Packet>, endNs: nat)
    requires p != [] && q != [] && OnGrid(rate, p) && OnGrid(rate, q) && p[0].hostTimeNs == q[0].hostTimeNs
    requires EndNs(p[|p| - 1]) <= endNs && EndNs(q[|q| - 1]) <= endNs && Whole(rate, endNs - p[0].hostTimeNs)
    ensures |FinalizeUpTo(IngestAll(rate, p), endNs).output| == |FinalizeUpTo(IngestAll(rate, q), endNs).output|
         == NsToFramesRound(endNs - p[0].hostTimeNs, rate)
  {
    hide NsToFramesRound, Scaled, Whole, OnGrid, IngestAll, FinalizeUpTo;
    GridLength(rate, p);
    GridLength(rate, q);
    FinalGridLength(rate, p, endNs);
    FinalGridLength(rate, q, endNs);
  }

  lemma FinalGridLength(rate: nat, p: seq<Packet>, endNs: nat)
    requires p != [] && OnGrid(rate, p) && p[0].hostTimeNs <= EndNs(p[|p| - 1]) <= endNs
             && Whole(rate, endNs - p[0].hostTimeNs)
    ensures |FinalizeUpTo(IngestAll(rate, p), endNs).output| == NsToFramesRound(endNs - p[0].hostTimeNs, rate)
  {
    hide NsToFramesRound, Scaled, Whole, OnGrid, IngestAll;
    GridLength(rate, p);
    IngestedClock(rate, p);
    var last := EndNs(p[|p| - 1]);
    WholeDifference(rate, endNs - p[0].hostTimeNs, last - p[0].hostTimeNs, |IngestAll(rate, p).output|);
    ZeroFrames(rate);
  }

  /** And on the grid every packet's audio lies at the frame of its own time in the finished track,
      so tracks stay in step however many packets were lost before it. */
  lemma {:induction false} AudioIsInPlace(rate: nat, packets: seq<Packet>, i: nat)
    requires OnGrid(rate, packets) && i < |packets|
    ensures packets[i].hostTimeNs >= packets[0].hostTimeNs
    ensures var at := NsToFramesRound(packets[i].hostTimeNs - packets[0].hostTimeNs, rate);
            var frames := NsToFramesRound(packets[i].nominalDurationNs, rate);
            var output := IngestAll(rate, packets).output;
            at + frames <= |output| && output[at..at + frames] == Fitted(packets[i], frames)
  {
    hide NsToFramesRound, Whole, Fitted, Deviation, HardJump, FitStats, Scaled;
    var front, p := packets[..|packets| - 1], packets[|packets| - 1];
    var a := IngestAll(rate, front);
    IngestedClock(rate, front);
    if i == |packets| - 1 {
      GridLength(rate, packets);
      FittedLength(p, NsToFramesRound(p.nominalDurationNs, rate));
    } else {
      AudioIsInPlace(rate, front, i);
      OutputGrows(a, p);
    }
  }

  lemma OutputGrows(a: Aligner, p: Packet)
    ensures a.output <= Ingest(a, p).output
  {
    hide Fitted, NsToFramesRound, FitStats;
  }
}

/** The aligner as an object. */
module TimelineAligners {
  import opened Prelude
  import opened Resampling
  import opened AlignerModel

  class TimelineAligner {
    const nominalRateHz: nat
    var output: seq<real>
    var nextExpectedNs: Option<nat>
    var stats: Stats

    ghost function View(): Aligner
      reads this
    {
      Aligner(nominalRateHz, output, nextExpectedNs, stats)
    }

    constructor (nominalRateHz: nat)
      ensures View() == New(nominalRateHz)
    {
      this.nominalRateHz := nominalRateHz;
      output, nextExpectedNs, stats := [], None, Stats(0, 0, 0, 0, 0, 0, 0.0);
    }

    method Ingest(p: Packet)
      modifies this
      ensures View() == AlignerModel.Ingest(old(View()), p)
    {
      hide Deviation, NsToFramesRound, Resampled;
      var startNs := if nextExpectedNs.Some? then nextExpectedNs.value else p.hostTimeNs;
      if p.hostTimeNs > startNs {
        var gapFrames := NsToFramesRound(p.hostTimeNs - startNs, nominalRateHz);
        output := output + Zeros(gapFrames);
        stats := stats.(silenceFramesInserted := stats.silenceFramesInserted + gapFrames,
                        gapsDetected := stats.gapsDetected + 1);
      }
      assert View() == Filled(old(View()), p);
      var expected := NsToFramesRound(p.nominalDurationNs, nominalRateHz);
      Fit(p, expected);
      if p.discontinuity {
        stats := stats.(discontinuitiesSeen := stats.discontinuitiesSeen + 1);
      }
      stats := stats.(packetsProcessed := stats.packetsProcessed + 1);
      nextExpectedNs := Some(p.hostTimeNs + p.nominalDurationNs);
    }

    /** The middle part of `Ingest`: the packet's own frames. */
    method Fit(p: Packet, expected: nat)
      modifies this`output, this`stats
      ensures output == old(output) + Fitted(p, expected)
      ensures stats == FitStats(old(stats), p, expected)
    {
      hide Deviation;
      var actual := |p.samples|;
      if expected == 0 {
      } else if actual == 0 {
        output := output + Zeros(expected);
        stats := stats.(silenceFramesInserted := stats.silenceFramesInserted + expected);
      } else {
        var deviation := Deviation(expected, actual);
        if deviation > stats.maxDeviation {
          stats := stats.(maxDeviation := deviation);
        }
        if p.discontinuity || deviation > MAX_SMOOTH_RATIO_DEVIATION {
          stats := stats.(hardJumps := stats.hardJumps + 1);
          if actual >= expected {
            output := output + p.samples[..expected];
          } else {
            var pad := expected - actual;
            output := output + p.samples;
            output := output + Zeros(pad);
            stats := stats.(silenceFramesInserted := stats.silenceFramesInserted + pad);
          }
        } else {
          var resampled := LinearResample(p.samples, expected);
          stats := stats.(resampledFrames := stats.resampledFrames + |resampled|);
          output := output + resampled;
        }
      }
    }

    method FinalizeUpTo(endNs: nat)
      modifies this
      ensures View() == AlignerModel.FinalizeUpTo(old(View()), endNs)
    {
      var startNs := if nextExpectedNs.Some? then nextExpectedNs.value else 0;
      if endNs > startNs {
        var gapFrames := NsToFramesRound(endNs - startNs, nominalRateHz);
        output := output + Zeros(gapFrames);
        stats := stats.(silenceFramesInserted := stats.silenceFramesInserted + gapFrames);
      }
      nextExpectedNs := Some(endNs);
    }
  }
}
