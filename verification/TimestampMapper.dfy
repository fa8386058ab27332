/**
  The timestamp mapper (crates/app-service/src/timestamp_mapper.rs): a list of checkpoints
  (provider position, net offset), compacted in place and searched by halving, that turns
  provider-relative milliseconds back into wall-clock milliseconds.
*/
module MapperModel {
  import opened Prelude

  datatype Checkpoint = Checkpoint(position: nat, offset: int)

  // ---- Recording --------------------------------------------------------------------

  ghost predicate Sorted(cps: seq<Checkpoint>) {
    forall i, j :: 0 <= i <= j < |cps| ==> cps[i].position <= cps[j].position
  }

  ghost predicate StrictlySorted(cps: seq<Checkpoint>) {
    forall i, j :: 0 <= i < j < |cps| ==> cps[i].position < cps[j].position
  }

  function Record(cps: seq<Checkpoint>, c: Checkpoint): seq<Checkpoint> {
    if cps != [] && cps[|cps| - 1].position == c.position then cps[..|cps| - 1] + [c] else cps + [c]
  }

  /** What the mapper keeps of everything ever recorded. */
  function Compact(history: seq<Checkpoint>): seq<Checkpoint> {
    if history == [] then []
    else Record(Compact(history[..|history| - 1]), history[|history| - 1])
  }

  // ---- Looking up -------------------------------------------------------------------

  /** A linear scan from the newest entry: the offset that applies at provider position `x`. */
  function Scan(cps: seq<Checkpoint>, x: nat): int {
    if cps == [] then 0
    else if cps[|cps| - 1].position <= x then cps[|cps| - 1].offset
    else Scan(cps[..|cps| - 1], x)
  }

  // ---- Milliseconds -----------------------------------------------------------------

  /** Signed division as the source language defines it: truncation toward zero. */
  function TruncDiv(a: int, b: nat): int
    requires b > 0
  {
    if a >= 0 then a / b else -(-a / b)
  }

  function SignedSamplesToMs(samples: int, rate: nat): int
    requires rate > 0
  {
    var numerator := samples * 1000;
    if numerator >= 0 then TruncDiv(numerator + rate / 2, rate) else TruncDiv(numerator - rate / 2, rate)
  }

  function SaturatingAdd(ms: nat, offset: int): nat {
    if ms + offset < 0 then 0 else ms + offset
  }

  function Wallclock(cps: seq<Checkpoint>, rate: nat, ms: nat): nat
    requires cps == [] || rate > 0
  {
    if cps == [] then ms
    else SaturatingAdd(ms, SignedSamplesToMs(Scan(cps, MsToSamples(ms, rate)), rate))
  }

  // ---- Compaction loses nothing -----------------------------------------------------

  lemma RecordKeepsSorted(cps: seq<Checkpoint>, c: Checkpoint)
    requires StrictlySorted(cps) && (cps != [] ==> cps[|cps| - 1].position <= c.position)
    ensures StrictlySorted(Record(cps, c))
    ensures Record(cps, c) != [] && Record(cps, c)[|Record(cps, c)| - 1] == c
  {
  }

  /** What recording does to every lookup: the new offset from its position on, no change before. */
  lemma RecordScans(cps: seq<Checkpoint>, c: Checkpoint, x: nat)
    ensures Scan(Record(cps, c), x) == if c.position <= x then c.offset else Scan(cps, x)
  {
    var n := |cps| - 1;
    assert (cps + [c])[..|cps|] == cps;
    if cps != [] {
      assert (cps[..n] + [c])[..n] == cps[..n];
    }
  }

  lemma {:induction false} CompactIsSorted(history: seq<Checkpoint>)
    requires Sorted(history)
    ensures StrictlySorted(Compact(history))
    ensures history != [] ==>
              Compact(history) != [] && Compact(history)[|Compact(history)| - 1] == history[|history| - 1]
  {
    if history != [] {
      var front := history[..|history| - 1];
      CompactIsSorted(front);
      RecordKeepsSorted(Compact(front), history[|history| - 1]);
    }
  }

  lemma CompactIsNonEmpty(history: seq<Checkpoint>)
    ensures (history == []) == (Compact(history) == [])
  {
  }

  /** For every query, the compacted list answers as a scan of everything ever recorded does. */
  lemma {:induction false} CompactionIsInvisible(history: seq<Checkpoint>, x: nat)
    ensures Scan(Compact(history), x) == Scan(history, x)
  {
    if history != [] {
      var front := history[..|history| - 1];
      CompactionIsInvisible(front, x);
      RecordScans(Compact(front), history[|history| - 1], x);
    }
  }

  /** The scan is decided by the boundary that a binary search finds. */
  lemma {:induction false} BoundaryScans(cps: seq<Checkpoint>, x: nat, index: nat)
    requires index <= |cps|
    requires forall i :: 0 <= i < index ==> cps[i].position <= x
    requires forall i :: index <= i < |cps| ==> cps[i].position > x
    ensures Scan(cps, x) == if index == 0 then 0 else cps[index - 1].offset
  {
    if index < |cps| {
      BoundaryScans(cps[..|cps| - 1], x, index);
    }
  }

  // ---- Rounding ---------------------------------------------------------------------

  lemma MulBound(a: int, b: int, rate: nat)
    requires rate > 0 && a * rate < b * rate
    ensures a < b
  {
    Scaled(b, a, rate);
  }

  lemma Scaled(a: int, b: int, rate: int)
    requires rate >= 0
    ensures a <= b ==> a * rate <= b * rate
  {
  }

  lemma TruncBounds(a: int, b: nat)
    requires a >= 0 && b > 0
    ensures TruncDiv(a, b) * b <= a < TruncDiv(a, b) * b + b
    ensures TruncDiv(-a, b) == -TruncDiv(a, b)
  {
    assert a == b * (a / b) + a % b;
    if a == 0 { assert TruncDiv(0, b) == 0; }
  }

  /** The millisecond offset is within half a millisecond of the exact quotient; a tie goes away
      from zero; and negating the samples negates it. */
  lemma OffsetIsNearest(samples: int, rate: nat)
    requires rate > 0
    ensures var m := SignedSamplesToMs(samples, rate);
            && -(rate as int) <= 2 * (1000 * samples - m * rate) <= rate
            && (2 * (1000 * samples - m * rate) == rate ==> samples < 0)
            && (2 * (1000 * samples - m * rate) == -(rate as int) ==> samples > 0)
    ensures SignedSamplesToMs(-samples, rate) == -SignedSamplesToMs(samples, rate)
  {
    hide TruncDiv, SignedSamplesToMs;
    OffsetIsOdd(samples, rate);
    if samples >= 0 {
      PositiveOffset(samples, rate);
    } else {
      PositiveOffset(-samples, rate);
      var m := SignedSamplesToMs(samples, rate);
      assert (-m) * rate == -(m * rate);
    }
  }

  lemma OffsetIsOdd(samples: int, rate: nat)
    requires rate > 0
    ensures SignedSamplesToMs(-samples, rate) == -SignedSamplesToMs(samples, rate)
  {
    hide TruncDiv;
    if samples == 0 {
      SmallQuotient(rate / 2, rate);
    } else if samples > 0 {
      TruncBounds(samples * 1000 + rate / 2, rate);
    } else {
      TruncBounds(-samples * 1000 + rate / 2, rate);
    }
  }

  lemma PositiveOffset(samples: int, rate: nat)
    requires rate > 0 && samples >= 0
    ensures var m := SignedSamplesToMs(samples, rate);
            -(rate as int) <= 2 * (1000 * samples - m * rate) < rate
    ensures samples == 0 ==> SignedSamplesToMs(samples, rate) == 0
  {
    hide TruncDiv;
    TruncBounds(samples * 1000 + rate / 2, rate);
    SmallQuotient(rate / 2, rate);
  }

  lemma SmallQuotient(a: nat, b: nat)
    requires a < b
    ensures TruncDiv(a, b) == 0
  {
  }

  /** No other whole number of milliseconds is nearer. */
  lemma NoOtherIsNearer(samples: int, rate: nat, other: int)
    requires rate > 0
    ensures var m := SignedSamplesToMs(samples, rate);
            Distance(1000 * samples, m * rate) <= Distance(1000 * samples, other * rate)
  {
    OffsetIsNearest(samples, rate);
    var m := SignedSamplesToMs(samples, rate);
    hide SignedSamplesToMs;
    Scaled(m + 1, other, rate);
    Scaled(other, m - 1, rate);
    assert (m + 1) * rate == m * rate + rate && (m - 1) * rate == m * rate - rate;
  }

  function Distance(a: int, b: int): nat {
    if a <= b then b - a else a - b
  }

  lemma OffsetMonotone(s: int, t: int, rate: nat)
    requires rate > 0 && s <= t
    ensures SignedSamplesToMs(s, rate) <= SignedSamplesToMs(t, rate)
  {
    OffsetIsNearest(s, rate);
    OffsetIsNearest(t, rate);
    var m, n := SignedSamplesToMs(s, rate), SignedSamplesToMs(t, rate);
    if s < t {
      assert (m - 1) * rate == m * rate - rate;
      MulBound(m - 1, n, rate);
    }
  }

  // ---- Monotonicity -----------------------------------------------------------------

  /** Offsets that start at zero or above and never decrease. */
  ghost predicate NeverDecreasing(cps: seq<Checkpoint>) {
    && (forall i :: 0 <= i < |cps| ==> cps[i].offset >= 0)
    && (forall i, j :: 0 <= i <= j < |cps| ==> cps[i].offset <= cps[j].offset)
  }

  lemma {:induction false} ScanMonotone(cps: seq<Checkpoint>, x: nat, y: nat)
    requires StrictlySorted(cps) && NeverDecreasing(cps) && x <= y
    ensures 0 <= Scan(cps, x) <= Scan(cps, y)
    ensures cps != [] ==> Scan(cps, y) <= cps[|cps| - 1].offset
  {
    if cps != [] {
      var front := cps[..|cps| - 1];
      ScanMonotone(front, x, y);
    }
  }

  /** As long as only silence was dropped and nothing was injected, wall-clock times keep the
      order of provider times. */
  lemma WallclockMonotone(cps: seq<Checkpoint>, rate: nat, a: nat, b: nat)
    requires rate > 0 && StrictlySorted(cps) && NeverDecreasing(cps) && a <= b
    ensures Wallclock(cps, rate, a) <= Wallclock(cps, rate, b)
    ensures a <= Wallclock(cps, rate, a)
  {
    if cps != [] {
      assert a * rate <= b * rate;
      DivMonotone(a * rate, b * rate);
      ScanMonotone(cps, MsToSamples(a, rate), MsToSamples(b, rate));
      OffsetMonotone(Scan(cps, MsToSamples(a, rate)), Scan(cps, MsToSamples(b, rate)), rate);
      SmallQuotient(rate / 2, rate);
      OffsetMonotone(0, Scan(cps, MsToSamples(a, rate)), rate);
    }
  }

  lemma DivMonotone(a: nat, b: nat)
    requires a <= b
    ensures a / 1000 <= b / 1000
  {
  }

  /** The offset that applied just before checkpoint `i`. */
  ghost function Before(cps: seq<Checkpoint>, i: nat): int
    requires i < |cps|
  {
    if i == 0 then 0 else cps[i - 1].offset
  }

  /** No checkpoint takes away more than the one position it moves on by. (A first checkpoint at
      position 0 has nothing before it.) */
  ghost predicate NeverJumpsBack(cps: seq<Checkpoint>) {
    forall i :: 0 <= i < |cps| ==> cps[i].position == 0 || cps[i].offset >= Before(cps, i) - 1
  }

  ghost predicate KeepsOrder(cps: seq<Checkpoint>) {
    forall x: nat, y: nat :: x <= y ==> x + Scan(cps, x) <= y + Scan(cps, y)
  }

  lemma {:induction false} OrderKept(cps: seq<Checkpoint>, x: nat, y: nat)
    requires StrictlySorted(cps) && NeverJumpsBack(cps) && x <= y
    ensures x + Scan(cps, x) <= y + Scan(cps, y)
    decreases y - x
  {
    hide Scan, StrictlySorted;
    if x < y {
      OrderKept(cps, x, y - 1);
      StepScans(cps, y);
    }
  }

  /** At position `y` the lookup goes over to checkpoint `i`. */
  ghost predicate JumpsAt(cps: seq<Checkpoint>, i: nat, y: nat)
    requires y > 0
  {
    i < |cps| && cps[i].position == y && Scan(cps, y) == cps[i].offset && Scan(cps, y - 1) == Before(cps, i)
  }

  /** One position on, the lookup changes only at a checkpoint, to that checkpoint's offset. */
  lemma {:induction false} StepScans(cps: seq<Checkpoint>, y: nat)
    requires StrictlySorted(cps) && y > 0
    ensures Scan(cps, y) == Scan(cps, y - 1)
            || exists i :: JumpsAt(cps, i, y)
  {
    if cps != [] && cps[|cps| - 1].position > y {
      var front := cps[..|cps| - 1];
      StepScans(front, y);
      if Scan(front, y) != Scan(front, y - 1) {
        var i: nat :| JumpsAt(front, i, y);
        assert JumpsAt(cps, i, y);
      }
    } else if cps != [] && cps[|cps| - 1].position == y {
      BoundaryScans(cps, y - 1, |cps| - 1);
      assert JumpsAt(cps, |cps| - 1, y);
    }
  }

  lemma AroundCheckpoint(cps: seq<Checkpoint>, i: nat)
    requires StrictlySorted(cps) && i < |cps| && cps[i].position > 0
    ensures Scan(cps, cps[i].position) == cps[i].offset && Scan(cps, cps[i].position - 1) == Before(cps, i)
  {
    BoundaryScans(cps, cps[i].position, i + 1);
    BoundaryScans(cps, cps[i].position - 1, i);
  }

  /** Exactly when mapped positions keep their order: when no checkpoint jumps back. */
  lemma OrderKeptExactly(cps: seq<Checkpoint>)
    requires StrictlySorted(cps)
    ensures KeepsOrder(cps) <==> NeverJumpsBack(cps)
  {
    if NeverJumpsBack(cps) {
      forall x: nat, y: nat | x <= y ensures x + Scan(cps, x) <= y + Scan(cps, y) {
        OrderKept(cps, x, y);
      }
    }
    if KeepsOrder(cps) {
      forall i | 0 <= i < |cps| ensures cps[i].position == 0 || cps[i].offset >= Before(cps, i) - 1 {
        var y := cps[i].position;
        if y > 0 {
          AroundCheckpoint(cps, i);
          assert (y - 1) + Scan(cps, y - 1) <= y + Scan(cps, y);
        }
      }
    }
  }

  // ---- Order in milliseconds --------------------------------------------------------

  /** The first millisecond whose sample position reaches `position`. */
  function FirstMs(position: nat, rate: nat): nat
    requires rate > 0
  {
    (1000 * position + rate - 1) / rate
  }

  lemma FirstMsReaches(position: nat, rate: nat, ms: nat)
    requires rate > 0
    ensures MsToSamples(ms, rate) >= position <==> ms >= FirstMs(position, rate)
  {
    var first := FirstMs(position, rate);
    var sum := 1000 * position + rate - 1;
    TruncBounds(sum, rate);
    assert first == TruncDiv(sum, rate);
    hide TruncDiv;
    Scaled(first, ms, rate);
    Scaled(ms, first - 1, rate);
    assert (first - 1) * rate == first * rate - rate;
  }

  /** The checkpoints by the millisecond from which they apply. */
  function InMs(cps: seq<Checkpoint>, rate: nat): seq<Checkpoint>
    requires rate > 0
  {
    seq(|cps|, i requires 0 <= i < |cps| => Checkpoint(FirstMs(cps[i].position, rate), cps[i].offset))
  }

  /** The same with one entry for each millisecond: the last that applies there. */
  function Timeline(cps: seq<Checkpoint>, rate: nat): seq<Checkpoint>
    requires rate > 0
  {
    Compact(InMs(cps, rate))
  }

  lemma {:induction false} InMsScans(cps: seq<Checkpoint>, rate: nat, ms: nat)
    requires rate > 0
    ensures Scan(InMs(cps, rate), ms) == Scan(cps, MsToSamples(ms, rate))
  {
    hide FirstMs, MsToSamples;
    if cps != [] {
      var front := cps[..|cps| - 1];
      InMsScans(front, rate, ms);
      FirstMsReaches(cps[|cps| - 1].position, rate, ms);
      assert InMs(cps, rate)[..|cps| - 1] == InMs(front, rate);
    }
  }

  lemma InMsSorted(cps: seq<Checkpoint>, rate: nat)
    requires rate > 0 && StrictlySorted(cps)
    ensures Sorted(InMs(cps, rate))
  {
    hide FirstMs;
    forall i, j | 0 <= i <= j < |cps| ensures FirstMs(cps[i].position, rate) <= FirstMs(cps[j].position, rate) {
      FirstMsMonotone(cps[i].position, cps[j].position, rate);
    }
  }

  lemma FirstMsMonotone(a: nat, b: nat, rate: nat)
    requires rate > 0 && a <= b
    ensures FirstMs(a, rate) <= FirstMs(b, rate)
  {
    FirstMsReaches(a, rate, FirstMs(b, rate));
    FirstMsReaches(b, rate, FirstMs(b, rate));
  }

  /** The timeline answers every query in milliseconds as the checkpoints do. */
  lemma TimelineScans(cps: seq<Checkpoint>, rate: nat, ms: nat)
    requires rate > 0
    ensures Scan(Timeline(cps, rate), ms) == Scan(cps, MsToSamples(ms, rate))
  {
    CompactionIsInvisible(InMs(cps, rate), ms);
    InMsScans(cps, rate, ms);
  }

  /** A change of offset from one millisecond to the next that does not turn the clock back: by no
      more than the millisecond that passes, unless the time before is at zero anyway. */
  ghost predicate KeepsTime(before: int, after: int, ms: nat, rate: nat)
    requires rate > 0
  {
    var was, now := SignedSamplesToMs(before, rate), SignedSamplesToMs(after, rate);
    now >= was - 1 || ms - 1 + was <= 0
  }

  /** No checkpoint turns the clock back. (One that applies from the start has nothing before it.) */
  ghost predicate NeverTurnsBack(timeline: seq<Checkpoint>, rate: nat)
    requires rate > 0
  {
    forall i :: 0 <= i < |timeline| ==>
      timeline[i].position == 0 || KeepsTime(Before(timeline, i), timeline[i].offset, timeline[i].position, rate)
  }

  ghost predicate TimesInOrder(cps: seq<Checkpoint>, rate: nat)
    requires rate > 0
  {
    forall a: nat, b: nat :: a <= b ==> Wallclock(cps, rate, a) <= Wallclock(cps, rate, b)
  }

  lemma WallclockByTimeline(cps: seq<Checkpoint>, rate: nat, ms: nat)
    requires rate > 0
    ensures Wallclock(cps, rate, ms) == SaturatingAdd(ms, SignedSamplesToMs(Scan(Timeline(cps, rate), ms), rate))
  {
    TimelineScans(cps, rate, ms);
    SmallQuotient(rate / 2, rate);
    hide Timeline;
  }

  lemma StepKeepsTime(cps: seq<Checkpoint>, rate: nat, ms: nat)
    requires rate > 0 && ms > 0
    ensures var t := Timeline(cps, rate);
            Wallclock(cps, rate, ms - 1) <= Wallclock(cps, rate, ms) <==>
                  KeepsTime(Scan(t, ms - 1), Scan(t, ms), ms, rate)
  {
    WallclockByTimeline(cps, rate, ms - 1);
    WallclockByTimeline(cps, rate, ms);
    hide Timeline, SignedSamplesToMs, Wallclock, Scan;
  }

  lemma {:induction false} TimesKept(cps: seq<Checkpoint>, rate: nat, a: nat, b: nat)
    requires rate > 0 && a <= b && StrictlySorted(Timeline(cps, rate)) && NeverTurnsBack(Timeline(cps, rate), rate)
    ensures Wallclock(cps, rate, a) <= Wallclock(cps, rate, b)
    decreases b - a
  {
    hide Timeline, StrictlySorted, Wallclock, Scan, SignedSamplesToMs;
    if a < b {
      TimesKept(cps, rate, a, b - 1);
      StepScans(Timeline(cps, rate), b);
      StepKeepsTime(cps, rate, b);
    }
  }

  lemma TimelineSorted(cps: seq<Checkpoint>, rate: nat)
    requires rate > 0 && StrictlySorted(cps)
    ensures StrictlySorted(Timeline(cps, rate))
  {
    InMsSorted(cps, rate);
    CompactIsSorted(InMs(cps, rate));
  }

  lemma OrderShows(cps: seq<Checkpoint>, rate: nat, i: nat)
    requires rate > 0 && StrictlySorted(cps) && TimesInOrder(cps, rate)
    requires i < |Timeline(cps, rate)| && Timeline(cps, rate)[i].position > 0
    ensures var t := Timeline(cps, rate); KeepsTime(Before(t, i), t[i].offset, t[i].position, rate)
  {
    hide Wallclock, Timeline, StrictlySorted, Scan, KeepsTime, Before;
    var t := Timeline(cps, rate);
    TimelineSorted(cps, rate);
    AroundCheckpoint(t, i);
    StepKeepsTime(cps, rate, t[i].position);
  }

  /** Exactly when wall-clock times keep the order of provider times: when no checkpoint turns the
      clock back by more than the millisecond it moves on. */
  lemma WallclockOrderExactly(cps: seq<Checkpoint>, rate: nat)
    requires rate > 0 && StrictlySorted(cps)
    ensures TimesInOrder(cps, rate) <==> NeverTurnsBack(Timeline(cps, rate), rate)
  {
    hide Timeline, Wallclock, StrictlySorted, KeepsTime, Before;
    TimelineSorted(cps, rate);
    if NeverTurnsBack(Timeline(cps, rate), rate) {
      forall a: nat, b: nat | a <= b ensures Wallclock(cps, rate, a) <= Wallclock(cps, rate, b) {
        TimesKept(cps, rate, a, b);
      }
    }
    if TimesInOrder(cps, rate) {
      forall i | 0 <= i < |Timeline(cps, rate)| && Timeline(cps, rate)[i].position > 0
        ensures var t := Timeline(cps, rate); KeepsTime(Before(t, i), t[i].offset, t[i].position, rate)
      {
        OrderShows(cps, rate, i);
      }
    }
  }
}

/** The mapper as an object. */
module TimestampMappers {
  import opened Prelude
  import opened MapperModel

  class TimestampMapper {
    var checkpoints: seq<Checkpoint>
    const sampleRateHz: nat

    constructor (sampleRateHz: nat)
      ensures checkpoints == [] && this.sampleRateHz == sampleRateHz
    {
      checkpoints := [];
      this.sampleRateHz := sampleRateHz;
    }

    /** Positions may not decrease; an entry at the last position replaces it. */
    method RecordCheckpoint(position: nat, offset: int)
      requires StrictlySorted(checkpoints)
      requires checkpoints != [] ==> checkpoints[|checkpoints| - 1].position <= position
      modifies this
      ensures checkpoints == Record(old(checkpoints), Checkpoint(position, offset))
      ensures StrictlySorted(checkpoints)
      ensures forall x: nat :: Scan(checkpoints, x) == if position <= x then offset else Scan(old(checkpoints), x)
    {
      var c := Checkpoint(position, offset);
      RecordKeepsSorted(checkpoints, c);
      forall x: nat ensures Scan(Record(checkpoints, c), x) == if position <= x then offset else Scan(checkpoints, x) {
        RecordScans(checkpoints, c, x);
      }
      if |checkpoints| > 0 {
        var last := |checkpoints| - 1;
        if checkpoints[last].position == position {
          checkpoints := checkpoints[..last] + [c];
          return;
        }
      }
      checkpoints := checkpoints + [c];
    }

    /** How many checkpoints lie at or before `x`, by halving. */
    method PartitionPoint(x: nat) returns (index: nat)
      requires StrictlySorted(checkpoints)
      ensures index <= |checkpoints|
      ensures forall i :: 0 <= i < index ==> checkpoints[i].position <= x
      ensures forall i :: index <= i < |checkpoints| ==> checkpoints[i].position > x
    {
      index := 0;
      var high := |checkpoints|;
      while index < high
        invariant 0 <= index <= high <= |checkpoints|
        invariant forall i :: 0 <= i < index ==> checkpoints[i].position <= x
        invariant forall i :: high <= i < |checkpoints| ==> checkpoints[i].position > x
      {
        var mid := (index + high) / 2;
        if checkpoints[mid].position <= x {
          index := mid + 1;
        } else {
          high := mid;
        }
      }
    }

    /** Halving the compacted list answers as the linear scan of any history that compacts to it. */
    method ToWallclockMs(providerMs: nat) returns (wallclockMs: nat)
      requires StrictlySorted(checkpoints) && (checkpoints == [] || sampleRateHz > 0)
      ensures wallclockMs == Wallclock(checkpoints, sampleRateHz, providerMs)
      ensures forall history :: Compact(history) == checkpoints && history != [] && sampleRateHz > 0 ==>
                wallclockMs == Wallclock(history, sampleRateHz, providerMs)
    {
      if checkpoints == [] {
        forall history ensures history != [] ==> Compact(history) != [] {
          CompactIsNonEmpty(history);
        }
        return providerMs;
      }
      var samples := MsToSamples(providerMs, sampleRateHz);
      var index := PartitionPoint(samples);
      BoundaryScans(checkpoints, samples, index);
      var netOffset := if index == 0 then 0 else checkpoints[index - 1].offset;
      var offsetMs := SignedSamplesToMs(netOffset, sampleRateHz);
      wallclockMs := SaturatingAdd(providerMs, offsetMs);
      forall history | Compact(history) == checkpoints && history != []
        ensures wallclockMs == Wallclock(history, sampleRateHz, providerMs)
      {
        CompactionIsInvisible(history, samples);
      }
    }
  }
}
