/** What is stored for a track and shown for a gap, row by row and segment by segment. */
module RetranscribeRows {
  import opened Prelude
  import opened Retranscription

  // ---- Rows -------------------------------------------------------------------------

  ghost function Later(ms: Option<nat>, offset: nat): Option<nat> {
    if ms.Some? then Some(offset + ms.value) else None
  }

  /** A row for one speaker's turn: said by whoever said each of its words, from the start of the
      first word to the end of the last, counted from the start of the decoded audio. */
  ghost predicate Tells(row: Row, run: seq<Word>, audioStartMs: nat) {
    && run != []
    && (forall w :: w in run ==> w.speaker == row.speaker)
    && row.startMs == Later(run[0].startMs, audioStartMs)
    && row.endMs == Later(run[|run| - 1].endMs, audioStartMs)
    && row.text == Joined(run)
  }

  /** The rows of a split tell its turns one by one, and no two neighbours have one speaker. */
  lemma RowsTell(runs: seq<seq<Word>>, words: seq<Word>, audioStartMs: nat)
    requires IsSplit(runs, words)
    ensures var rows := RowsOf(runs, audioStartMs);
            && |rows| == |runs|
            && (forall i :: 0 <= i < |rows| ==> Tells(rows[i], runs[i], audioStartMs))
            && (forall i :: 0 <= i < |rows| - 1 ==> rows[i].speaker != rows[i + 1].speaker)
  {
    hide Joined, Concat;
    assert forall i :: 0 <= i < |runs| ==> OneSpeaker(runs[i]);
    forall i | 0 <= i < |runs| - 1
      ensures RowsOf(runs, audioStartMs)[i].speaker != RowsOf(runs, audioStartMs)[i + 1].speaker
    {
      assert runs[i][0].speaker != runs[i + 1][0].speaker;
    }
  }

  // ---- Segments ---------------------------------------------------------------------

  ghost predicate IsDuring(s: AudioSegment, at: nat) {
    s.timelineStartMs <= at < s.timelineStartMs + s.durationMs
  }

  ghost predicate SharesInstant(s: AudioSegment, startMs: nat, endMs: nat) {
    exists at: nat :: startMs <= at < endMs && IsDuring(s, at)
  }

  /** What is decoded for a gap are the segments that share an instant with it. */
  lemma FoundExactly(segments: seq<AudioSegment>, startMs: nat, endMs: nat, s: AudioSegment)
    requires startMs < endMs && s.durationMs > 0
    ensures s in SegmentsOverlapping(segments, startMs, endMs) <==> s in segments && SharesInstant(s, startMs, endMs)
  {
    OverlapMeans(segments, startMs, endMs, s);
    if Overlaps(s, startMs, endMs) {
      var at := if startMs >= s.timelineStartMs then startMs else s.timelineStartMs;
      assert startMs <= at < endMs && IsDuring(s, at);
    }
  }

  lemma {:induction false} OverlapMeans(segments: seq<AudioSegment>, startMs: nat, endMs: nat, s: AudioSegment)
    ensures s in SegmentsOverlapping(segments, startMs, endMs) <==> s in segments && Overlaps(s, startMs, endMs)
  {
    if segments != [] {
      hide Overlaps;
      OverlapMeans(segments[1..], startMs, endMs, s);
      assert segments == [segments[0]] + segments[1..];
    }
  }

  /** A track is cut into as many segments as it takes, numbered from 0, each stamped with its
      place and holding the samples of its own window. */
  lemma SegmentsAre<T>(pcm: seq<T>, rate: nat, durationMs: nat, i: nat)
    requires rate * durationMs / 1000 > 0
    ensures var n := rate * durationMs / 1000;
            var out := SegmentPcm(pcm, rate, durationMs);
            && (i < |out| <==> WindowStart(i, n) < |pcm|)
            && (i < |out| ==>
                  && out[i].sequence == i && out[i].timelineStartMs == i * durationMs
                  && out[i].pcm == pcm[WindowStart(i, n)..Min(WindowStart(i + 1, n), |pcm|)])
  {
    hide Chunks, WindowStart;
    var n := rate * durationMs / 1000;
    assert n == SamplesPerSegment(rate, durationMs);
    if pcm == [] {
      WindowStarts(i, n);
    } else {
      ChunkCount(pcm, n, i);
      if i < |Chunks(pcm, n)| {
        ChunkAt(pcm, n, i);
        WindowStarts(i, n);
      }
    }
  }

  lemma {:induction false} ChunkCount<T>(pcm: seq<T>, n: nat, i: nat)
    requires n > 0
    ensures i < |Chunks(pcm, n)| <==> WindowStart(i, n) < |pcm|
    decreases i
  {
    hide WindowStart;
    WindowStarts(i, n);
    if i > 0 {
      WindowStarts(i - 1, n);
      if |pcm| > n {
        ChunkCount(pcm[n..], n, i - 1);
      } else {
        WindowAfter(i, n);
      }
    }
  }

  lemma WindowAfter(i: nat, n: nat)
    requires i > 0
    ensures WindowStart(i, n) >= n
  {
  }
}
