/**
  Cutting a track into segments (crates/app-service/src/segmenter.rs) and turning a gap back into
  transcript rows (crates/app-service/src/retranscribe.rs): which segments are decoded for it, and
  how the words that come back are split by speaker.
*/
module Retranscription {
  import opened Prelude

  // ---- Segments ---------------------------------------------------------------------

  datatype PendingSegment<T> = PendingSegment(sequence: nat, timelineStartMs: nat, pcm: seq<T>)

  function Chunks<T>(pcm: seq<T>, n: nat): seq<seq<T>>
    requires n > 0
    decreases |pcm|
  {
    if pcm == [] then [] else if |pcm| <= n then [pcm] else [pcm[..n]] + Chunks(pcm[n..], n)
  }

  function SamplesPerSegment(rate: nat, durationMs: nat): nat {
    rate * durationMs / 1000
  }

  function SegmentPcm<T>(pcm: seq<T>, rate: nat, durationMs: nat): seq<PendingSegment<T>> {
    var n := SamplesPerSegment(rate, durationMs);
    if n == 0 || pcm == [] then []
    else
      var chunks := Chunks(pcm, n);
      seq(|chunks|, i requires 0 <= i < |chunks| => PendingSegment(i, i * durationMs, chunks[i]))
  }

  function Concat<T>(xs: seq<seq<T>>): seq<T> {
    if xs == [] then [] else xs[0] + Concat(xs[1..])
  }

  function Min(a: int, b: int): int { if a <= b then a else b }

  /** Where window `i` begins. */
  function WindowStart(i: nat, n: nat): nat {
    i * n
  }

  lemma WindowStarts(i: nat, n: nat)
    ensures WindowStart(0, n) == 0 && WindowStart(i + 1, n) == WindowStart(i, n) + n
  {
  }

  /** Chunk `i` is the samples of window `i`, on every track alike. */
  lemma {:induction false} ChunkAt<T>(pcm: seq<T>, n: nat, i: nat)
    requires n > 0 && i < |Chunks(pcm, n)|
    ensures WindowStart(i, n) < |pcm|
    ensures Chunks(pcm, n)[i] == pcm[WindowStart(i, n)..Min(WindowStart(i + 1, n), |pcm|)]
    ensures i + 1 < |Chunks(pcm, n)| ==> |Chunks(pcm, n)[i]| == n
    decreases i
  {
    WindowStarts(i, n);
    hide WindowStart;
    if |pcm| > n {
      var rest := Chunks(pcm[n..], n);
      assert Chunks(pcm, n) == [pcm[..n]] + rest;
      hide Chunks;
      if i > 0 {
        WindowStarts(i - 1, n);
        ChunkAt(pcm[n..], n, i - 1);
        Sliced(pcm, n, WindowStart(i - 1, n), Min(WindowStart(i, n), |pcm| - n));
      }
    }
  }

  lemma Sliced<T>(pcm: seq<T>, n: nat, a: nat, b: nat)
    requires n + b <= |pcm| && a <= b
    ensures pcm[n..][a..b] == pcm[n + a..n + b]
  {
  }

  /** The chunks `lo..hi`, put together, are one stretch of the track. */
  lemma {:induction false} BlockIsContiguous<T>(pcm: seq<T>, n: nat, lo: nat, hi: nat)
    requires n > 0 && lo < hi <= |Chunks(pcm, n)|
    ensures WindowStart(lo, n) < |pcm| && WindowStart(lo, n) <= Min(WindowStart(hi, n), |pcm|)
    ensures Concat(Chunks(pcm, n)[lo..hi]) == pcm[WindowStart(lo, n)..Min(WindowStart(hi, n), |pcm|)]
    decreases hi - lo
  {
    var chunks := Chunks(pcm, n);
    ChunkAt(pcm, n, lo);
    WindowStarts(lo, n);
    hide Chunks, WindowStart;
    assert chunks[lo..hi][0] == chunks[lo] && chunks[lo..hi][1..] == chunks[lo + 1..hi];
    assert Concat(chunks[lo..hi]) == chunks[lo] + Concat(chunks[lo + 1..hi]);
    if lo + 1 < hi {
      BlockIsContiguous(pcm, n, lo + 1, hi);
    } else {
      assert Concat(chunks[lo + 1..hi]) == [];
    }
  }

  /** Nothing is lost or repeated by cutting. */
  lemma {:induction false} CuttingLosesNothing<T>(pcm: seq<T>, n: nat)
    requires n > 0
    ensures Concat(Chunks(pcm, n)) == pcm
    decreases |pcm|
  {
    if |pcm| > n {
      CuttingLosesNothing(pcm[n..], n);
      var chunks := Chunks(pcm, n);
      assert chunks[0] == pcm[..n] && chunks[1..] == Chunks(pcm[n..], n);
      hide Chunks;
      assert Concat(chunks) == chunks[0] + Concat(chunks[1..]);
      assert pcm[..n] + pcm[n..] == pcm;
    } else if pcm != [] {
      assert [pcm][1..] == [];
    }
  }

  // ---- Which segments overlap a gap -------------------------------------------------

  datatype AudioSegment = AudioSegment(sequence: nat, timelineStartMs: nat, durationMs: nat)

  predicate Overlaps(s: AudioSegment, startMs: nat, endMs: nat) {
    s.timelineStartMs < endMs && s.timelineStartMs + s.durationMs > startMs
  }

  function SegmentsOverlapping(segments: seq<AudioSegment>, startMs: nat, endMs: nat): seq<AudioSegment> {
    if segments == [] then []
    else
      var first := if Overlaps(segments[0], startMs, endMs) then [segments[0]] else [];
      first + SegmentsOverlapping(segments[1..], startMs, endMs)
  }

  /** Committed segments: numbered in order, cut every `durationMs`, none longer than that. */
  ghost predicate CutEvery(segments: seq<AudioSegment>, durationMs: nat) {
    forall i :: 0 <= i < |segments| ==>
      segments[i].sequence == i && segments[i].timelineStartMs == i * durationMs && segments[i].durationMs <= durationMs
  }

  /** Starts and ends both move forward. */
  ghost predicate Forward(segments: seq<AudioSegment>) {
    forall i, j :: 0 <= i < j < |segments| ==>
      && segments[i].timelineStartMs <= segments[j].timelineStartMs
      && segments[i].timelineStartMs + segments[i].durationMs <= segments[j].timelineStartMs + segments[j].durationMs
  }

  lemma CutIsForward(segments: seq<AudioSegment>, durationMs: nat)
    requires CutEvery(segments, durationMs)
    ensures Forward(segments)
  {
    forall i, j | 0 <= i < j < |segments|
      ensures segments[i].timelineStartMs + segments[i].durationMs <= segments[j].timelineStartMs
    {
      assert (i + 1) * durationMs <= j * durationMs by { Stretch(i + 1, j, durationMs); }
      assert (i + 1) * durationMs == i * durationMs + durationMs;
    }
  }

  lemma Stretch(a: nat, b: nat, c: nat)
    requires a <= b
    ensures a * c <= b * c
  {
  }

  /** Exactly the segments `lo..hi` overlap. */
  ghost predicate IsBlock(segments: seq<AudioSegment>, startMs: nat, endMs: nat, lo: nat, hi: nat) {
    && lo <= hi <= |segments|
    && forall i :: 0 <= i < |segments| ==> (lo <= i < hi <==> Overlaps(segments[i], startMs, endMs))
  }

  /** The segments that overlap a gap are one block, with no hole in it, and no segment outside the
      block overlaps it. */
  lemma {:induction false} OverlapIsBlock(segments: seq<AudioSegment>, startMs: nat, endMs: nat)
      returns (lo: nat, hi: nat)
    requires Forward(segments)
    ensures IsBlock(segments, startMs, endMs, lo, hi)
    ensures SegmentsOverlapping(segments, startMs, endMs) == segments[lo..hi]
  {
    if segments == [] {
      lo, hi := 0, 0;
    } else {
      var rest := segments[1..];
      lo, hi := OverlapIsBlock(rest, startMs, endMs);
      var found := SegmentsOverlapping(rest, startMs, endMs);
      var first := if Overlaps(segments[0], startMs, endMs) then [segments[0]] else [];
      assert SegmentsOverlapping(segments, startMs, endMs) == first + found;
      hide SegmentsOverlapping;
      if !Overlaps(segments[0], startMs, endMs) {
        BlockShifts(segments, startMs, endMs, lo, hi);
        lo, hi := lo + 1, hi + 1;
      } else if hi == lo {
        FirstAlone(segments, startMs, endMs, lo);
        lo, hi := 0, 1;
      } else {
        FirstJoins(segments, startMs, endMs, lo, hi);
        lo, hi := 0, hi + 1;
      }
    }
  }

  lemma BlockShifts(segments: seq<AudioSegment>, startMs: nat, endMs: nat, lo: nat, hi: nat)
    requires segments != [] && IsBlock(segments[1..], startMs, endMs, lo, hi) && !Overlaps(segments[0], startMs, endMs)
    ensures IsBlock(segments, startMs, endMs, lo + 1, hi + 1) && [] + segments[1..][lo..hi] == segments[lo + 1..hi + 1]
  {
    hide Overlaps;
    forall i | 0 < i < |segments| ensures segments[1..][i - 1] == segments[i] {
    }
  }

  lemma FirstAlone(segments: seq<AudioSegment>, startMs: nat, endMs: nat, lo: nat)
    requires segments != [] && IsBlock(segments[1..], startMs, endMs, lo, lo) && Overlaps(segments[0], startMs, endMs)
    ensures IsBlock(segments, startMs, endMs, 0, 1) && [segments[0]] + segments[1..][lo..lo] == segments[0..1]
  {
    hide Overlaps;
    forall i | 0 < i < |segments| ensures segments[1..][i - 1] == segments[i] {
    }
  }

  lemma FirstJoins(segments: seq<AudioSegment>, startMs: nat, endMs: nat, lo: nat, hi: nat)
    requires Forward(segments) && segments != [] && Overlaps(segments[0], startMs, endMs)
    requires lo < hi && IsBlock(segments[1..], startMs, endMs, lo, hi)
    ensures lo == 0 && IsBlock(segments, startMs, endMs, 0, hi + 1)
    ensures [segments[0]] + segments[1..][lo..hi] == segments[0..hi + 1]
  {
    var rest := segments[1..];
    forall i | 0 < i < |segments| ensures rest[i - 1] == segments[i] {
    }
    assert Overlaps(rest[lo], startMs, endMs);
    assert segments[1].timelineStartMs <= segments[lo + 1].timelineStartMs;
    assert Overlaps(segments[1], startMs, endMs);
    assert Overlaps(rest[0], startMs, endMs);
    hide Overlaps, Forward;
  }

  /** Every recorded instant of the gap is in one of the segments found. */
  lemma GapIsCovered(segments: seq<AudioSegment>, startMs: nat, endMs: nat, i: nat, at: nat)
    requires i < |segments| && startMs <= at < endMs
    requires segments[i].timelineStartMs <= at < segments[i].timelineStartMs + segments[i].durationMs
    ensures segments[i] in SegmentsOverlapping(segments, startMs, endMs)
  {
    FoundByOverlap(segments, startMs, endMs, i);
  }

  lemma {:induction false} FoundByOverlap(segments: seq<AudioSegment>, startMs: nat, endMs: nat, i: nat)
    requires i < |segments| && Overlaps(segments[i], startMs, endMs)
    ensures segments[i] in SegmentsOverlapping(segments, startMs, endMs)
    decreases i
  {
    if i > 0 { FoundByOverlap(segments[1..], startMs, endMs, i - 1); }
  }

  /** So the audio decoded for a gap is one stretch of the track, and it starts at the sample of the
      first segment's time. */
  lemma DecodedAudioIsContiguous<T>(pcm: seq<T>, rate: nat, durationMs: nat, segments: seq<AudioSegment>, startMs: nat,
                                    endMs: nat)
    returns (lo: nat, hi: nat)
    requires SamplesPerSegment(rate, durationMs) > 0
    requires CutEvery(segments, durationMs) && |segments| == |SegmentPcm(pcm, rate, durationMs)|
    ensures lo <= hi <= |segments| && SegmentsOverlapping(segments, startMs, endMs) == segments[lo..hi]
    ensures lo < hi ==>
              var n := SamplesPerSegment(rate, durationMs);
              && WindowStart(lo, n) <= Min(WindowStart(hi, n), |pcm|)
              && SegmentPcm(pcm, rate, durationMs)[lo].timelineStartMs == segments[lo].timelineStartMs
              && Concat(Chunks(pcm, n)[lo..hi]) == pcm[WindowStart(lo, n)..Min(WindowStart(hi, n), |pcm|)]
  {
    hide Chunks, Concat, WindowStart;
    CutIsForward(segments, durationMs);
    lo, hi := OverlapIsBlock(segments, startMs, endMs);
    if lo < hi {
      BlockIsContiguous(pcm, SamplesPerSegment(rate, durationMs), lo, hi);
    }
  }

  // ---- Splitting words by speaker ---------------------------------------------------

  datatype Word = Word(text: string, startMs: Option<nat>, endMs: Option<nat>, speaker: Option<nat>)

  datatype Row = Row(speaker: Option<nat>, text: string, startMs: Option<nat>, endMs: Option<nat>)

  function Joined(words: seq<Word>): string {
    if words == [] then ""
    else if |words| == 1 then words[0].text
    else Joined(words[..|words| - 1]) + " " + words[|words| - 1].text
  }

  function Shifted(ms: Option<nat>, offset: nat): Option<nat> {
    if ms.Some? then Some(offset + ms.value) else None
  }

  function TurnToSegment(speaker: Option<nat>, words: seq<Word>, audioStartMs: nat): Row {
    Row(speaker, Joined(words),
        if words == [] then None else Shifted(words[0].startMs, audioStartMs),
        if words == [] then None else Shifted(words[|words| - 1].endMs, audioStartMs))
  }

  /** A split of `words` into non-empty runs of one speaker, no two neighbours alike. */
  ghost predicate IsSplit(runs: seq<seq<Word>>, words: seq<Word>) {
    && Concat(runs) == words
    && (forall i :: 0 <= i < |runs| ==> OneSpeaker(runs[i]))
    && (forall i :: 0 <= i < |runs| - 1 ==> runs[i][0].speaker != runs[i + 1][0].speaker)
  }

  ghost predicate OneSpeaker(run: seq<Word>) {
    run != [] && forall j :: 0 <= j < |run| ==> run[j].speaker == run[0].speaker
  }

  function RowOf(run: seq<Word>, audioStartMs: nat): Row {
    TurnToSegment(if run == [] then None else run[0].speaker, run, audioStartMs)
  }

  function RowsOf(runs: seq<seq<Word>>, audioStartMs: nat): seq<Row> {
    seq(|runs|, i requires 0 <= i < |runs| => RowOf(runs[i], audioStartMs))
  }

  /** Without words there is one row over the gap; with words, one row for each speaker's turn. */
  method TranscriptToSegments(audioStartMs: nat, gapStartMs: nat, gapEndMs: nat, text: string,
                              maybeWords: Option<seq<Word>>)
    returns (segments: seq<Row>)
    ensures maybeWords.None? || maybeWords.value == [] ==>
              segments == [Row(None, text, Some(gapStartMs), Some(gapEndMs))]
    ensures maybeWords.Some? && maybeWords.value != [] ==>
              exists runs :: IsSplit(runs, maybeWords.value) && segments == RowsOf(runs, audioStartMs)
  {
    hide IsSplit, RowsOf, Joined, OneSpeaker, LastSpeakerIsNot;
    if maybeWords.None? || maybeWords.value == [] {
      return [Row(None, text, Some(gapStartMs), Some(gapEndMs))];
    }
    var words := maybeWords.value;
    segments := [];
    ghost var runs: seq<seq<Word>> := [];
    var currentSpeaker := words[0].speaker;
    var currentWords: seq<Word> := [];
    NoRuns(audioStartMs);
    for i := 0 to |words|
      invariant |currentWords| <= i && (i > 0 ==> currentWords != []) && (i == 0 ==> runs == [])
      invariant IsSplit(runs, words[..i - |currentWords|]) && segments == RowsOf(runs, audioStartMs)
      invariant currentWords == words[i - |currentWords|..i]
      invariant currentWords != [] ==> OneSpeaker(currentWords) && currentWords[0].speaker == currentSpeaker
      invariant runs != [] ==> LastSpeakerIsNot(runs, currentSpeaker)
    {
      if words[i].speaker != currentSpeaker && currentWords != [] {
        RunAdded(runs, words[..i - |currentWords|], currentWords, audioStartMs);
        assert words[..i - |currentWords|] + currentWords == words[..i];
        segments := segments + [TurnToSegment(currentSpeaker, currentWords, audioStartMs)];
        LastOf(runs, currentWords, words[i].speaker);
        runs := runs + [currentWords];
        currentWords := [];
      }
      OneMoreWord(currentWords, words, i);
      currentSpeaker := words[i].speaker;
      currentWords := currentWords + [words[i]];
    }
    if currentWords != [] {
      RunAdded(runs, words[..|words| - |currentWords|], currentWords, audioStartMs);
      assert words[..|words| - |currentWords|] + currentWords == words;
      segments := segments + [TurnToSegment(currentSpeaker, currentWords, audioStartMs)];
      runs := runs + [currentWords];
    }
  }

  ghost predicate LastSpeakerIsNot(runs: seq<seq<Word>>, speaker: Option<nat>) {
    runs != [] && runs[|runs| - 1] != [] && runs[|runs| - 1][0].speaker != speaker
  }

  lemma LastOf(runs: seq<seq<Word>>, run: seq<Word>, speaker: Option<nat>)
    requires run != [] && run[0].speaker != speaker
    ensures LastSpeakerIsNot(runs + [run], speaker)
  {
  }

  lemma OneMoreWord(run: seq<Word>, words: seq<Word>, i: nat)
    requires |run| <= i < |words| && run == words[i - |run|..i]
    requires run != [] ==> OneSpeaker(run) && run[0].speaker == words[i].speaker
    ensures run + [words[i]] == words[i - |run|..i + 1]
    ensures OneSpeaker(run + [words[i]]) && (run + [words[i]])[0].speaker == words[i].speaker
  {
  }

  lemma NoRuns(audioStartMs: nat)
    ensures IsSplit([], []) && RowsOf([], audioStartMs) == []
  {
  }

  lemma RunAdded(runs: seq<seq<Word>>, words: seq<Word>, run: seq<Word>, audioStartMs: nat)
    requires IsSplit(runs, words) && OneSpeaker(run)
    requires runs != [] ==> LastSpeakerIsNot(runs, run[0].speaker)
    ensures IsSplit(runs + [run], words + run)
    ensures RowsOf(runs + [run], audioStartMs)
            == RowsOf(runs, audioStartMs) + [TurnToSegment(run[0].speaker, run, audioStartMs)]
  {
    hide Joined;
    ConcatMore(runs, run);
  }

  lemma {:induction false} ConcatMore<T>(xs: seq<seq<T>>, x: seq<T>)
    ensures Concat(xs + [x]) == Concat(xs) + x
  {
    if xs == [] {
      assert Concat([x]) == x + Concat([x][1..]);
    } else {
      ConcatMore(xs[1..], x);
      assert (xs + [x])[1..] == xs[1..] + [x];
    }
  }

  /** The first run is as long as the first speaker goes on. */
  lemma FirstRun(a: seq<seq<Word>>, words: seq<Word>)
    requires IsSplit(a, words) && a != []
    ensures a[0] != [] && a[0] <= words
    ensures forall j :: 0 <= j < |a[0]| ==> words[j].speaker == words[0].speaker
    ensures |a[0]| < |words| ==> words[|a[0]|].speaker != words[0].speaker
  {
    assert words == a[0] + Concat(a[1..]);
    assert OneSpeaker(a[0]);
    if |a[0]| < |words| {
      assert a[1..] != [] && a[1..][0] == a[1];
      assert OneSpeaker(a[1]);
      assert Concat(a[1..])[0] == a[1][0];
      assert a[0][0].speaker != a[0 + 1][0].speaker;
    }
  }

  /** There is only one such split. */
  lemma {:induction false} SplitIsUnique(a: seq<seq<Word>>, b: seq<seq<Word>>, words: seq<Word>)
    requires IsSplit(a, words) && IsSplit(b, words)
    ensures a == b
    decreases |a|
  {
    if a != [] && b != [] {
      FirstRun(a, words);
      FirstRun(b, words);
      assert a[0] == words[..|a[0]|] && b[0] == words[..|b[0]|];
      Tail(a, words);
      Tail(b, words);
      SplitIsUnique(a[1..], b[1..], words[|a[0]|..]);
      assert a == [a[0]] + a[1..] && b == [b[0]] + b[1..];
    } else {
      EmptySplit(a, words);
      EmptySplit(b, words);
    }
  }

  lemma EmptySplit(a: seq<seq<Word>>, words: seq<Word>)
    requires IsSplit(a, words)
    ensures (a == []) == (words == [])
  {
    if a != [] { assert OneSpeaker(a[0]); }
  }

  lemma Tail(a: seq<seq<Word>>, words: seq<Word>)
    requires IsSplit(a, words) && a != []
    ensures IsSplit(a[1..], words[|a[0]|..])
  {
    var rest := a[1..];
    assert words == a[0] + Concat(rest);
    forall i | 0 <= i < |rest| ensures OneSpeaker(rest[i]) {
      assert rest[i] == a[i + 1];
    }
    forall i | 0 <= i < |rest| - 1 ensures rest[i][0].speaker != rest[i + 1][0].speaker {
      assert a[i + 1][0].speaker != a[i + 1 + 1][0].speaker;
    }
  }

  // ---- Text -------------------------------------------------------------------------

  function JoinedTexts(rows: seq<Row>): string {
    if rows == [] then ""
    else if |rows| == 1 then rows[0].text
    else JoinedTexts(rows[..|rows| - 1]) + " " + rows[|rows| - 1].text
  }

  lemma {:induction false} JoinedConcat(a: seq<Word>, b: seq<Word>)
    requires a != [] && b != []
    ensures Joined(a + b) == Joined(a) + " " + Joined(b)
  {
    var n := |b| - 1;
    var front, last := b[..n], b[n];
    assert b == front + [last] && a + b == (a + front) + [last];
    JoinedMore(a + front, last);
    if n > 0 {
      JoinedMore(front, last);
      JoinedConcat(a, front);
      hide Joined;
      Reassociate(Joined(a), " ", Joined(front), " " + last.text);
    } else {
      assert a + front == a;
    }
  }

  lemma JoinedMore(words: seq<Word>, w: Word)
    ensures words != [] ==> Joined(words + [w]) == Joined(words) + (" " + w.text)
    ensures words == [] ==> Joined(words + [w]) == w.text
  {
    assert (words + [w])[..|words|] == words;
    if words != [] {
      hide Joined;
      assert (Joined(words) + " ") + w.text == Joined(words) + (" " + w.text);
    }
  }

  lemma Reassociate(a: string, b: string, c: string, d: string)
    ensures (a + b + c) + d == a + b + (c + d)
  {
  }

  /** Splitting by speaker keeps every word, in order: the rows' texts, joined, are the words'. */
  lemma {:induction false} TextIsKept(runs: seq<seq<Word>>, audioStartMs: nat)
    requires forall i :: 0 <= i < |runs| ==> OneSpeaker(runs[i])
    ensures JoinedTexts(RowsOf(runs, audioStartMs)) == Joined(Concat(runs))
    ensures runs != [] ==> Concat(runs) != []
  {
    var rows := RowsOf(runs, audioStartMs);
    if |runs| == 1 {
      assert runs[1..] == [] && Concat(runs) == runs[0];
    } else if |runs| > 1 {
      var n := |runs| - 1;
      TextIsKept(runs[..n], audioStartMs);
      ConcatMore(runs[..n], runs[n]);
      assert runs[..n] + [runs[n]] == runs;
      assert rows[..n] == RowsOf(runs[..n], audioStartMs);
      JoinedConcat(Concat(runs[..n]), runs[n]);
    }
  }

  // ---- Times ------------------------------------------------------------------------

  /** Every word is timed, and no word begins before its predecessor ends. */
  ghost predicate Timed(words: seq<Word>) {
    && (forall i :: 0 <= i < |words| ==> WordTimed(words[i]))
    && (forall i, j :: 0 <= i < j < |words| && WordTimed(words[i]) && WordTimed(words[j]) ==>
          words[i].endMs.value <= words[j].startMs.value)
  }

  ghost predicate WordTimed(w: Word) {
    w.startMs.Some? && w.endMs.Some? && w.startMs.value <= w.endMs.value
  }

  ghost predicate RowTimed(r: Row, audioStartMs: nat) {
    r.startMs.Some? && r.endMs.Some? && audioStartMs <= r.startMs.value <= r.endMs.value
  }

  ghost predicate Precedes(a: Row, b: Row) {
    a.endMs.Some? && b.startMs.Some? && a.endMs.value <= b.startMs.value
  }

  lemma TimedPrefix(words: seq<Word>, n: nat)
    requires Timed(words) && n <= |words|
    ensures Timed(words[..n]) && Timed(words[n..])
  {
  }

  lemma RunTimed(run: seq<Word>, audioStartMs: nat)
    requires Timed(run) && run != []
    ensures RowTimed(RowOf(run, audioStartMs), audioStartMs)
    ensures RowOf(run, audioStartMs).startMs == Some(audioStartMs + run[0].startMs.value)
    ensures RowOf(run, audioStartMs).endMs == Some(audioStartMs + run[|run| - 1].endMs.value)
  {
    hide Joined;
    if |run| > 1 {
      assert WordTimed(run[0]) && WordTimed(run[|run| - 1]);
      assert run[0].endMs.value <= run[|run| - 1].startMs.value;
    }
  }

  ghost predicate RowsTimed(rows: seq<Row>, audioStartMs: nat) {
    && (forall i :: 0 <= i < |rows| ==> RowTimed(rows[i], audioStartMs))
    && (forall i, j :: 0 <= i < j < |rows| ==> Precedes(rows[i], rows[j]))
  }

  /** One more row, after rows that end with the word `last`. */
  lemma RowAdded(rows: seq<Row>, row: Row, audioStartMs: nat, last: Word, first: Word)
    requires RowsTimed(rows, audioStartMs) && RowTimed(row, audioStartMs)
    requires WordTimed(last) && WordTimed(first) && last.endMs.value <= first.startMs.value
    requires rows != [] ==> rows[|rows| - 1].endMs == Some(audioStartMs + last.endMs.value)
    requires row.startMs == Some(audioStartMs + first.startMs.value)
    ensures RowsTimed(rows + [row], audioStartMs)
  {
    forall i | 0 <= i < |rows| ensures Precedes(rows[i], row) {
      assert i == |rows| - 1 || Precedes(rows[i], rows[|rows| - 1]);
      assert RowTimed(rows[|rows| - 1], audioStartMs);
    }
  }

  /** Timed words make timed rows: each lies after the start of the audio, none begins before an
      earlier one ends. */
  lemma {:induction false} RowsInOrder(runs: seq<seq<Word>>, audioStartMs: nat)
    requires Timed(Concat(runs)) && forall i :: 0 <= i < |runs| ==> OneSpeaker(runs[i])
    ensures RowsTimed(RowsOf(runs, audioStartMs), audioStartMs)
    ensures runs != [] ==>
              var words := Concat(runs);
              words != [] && WordTimed(words[|words| - 1])
              && RowsOf(runs, audioStartMs)[|runs| - 1].endMs == Some(audioStartMs + words[|words| - 1].endMs.value)
  {
    hide RowOf, RowsTimed, Timed, WordTimed;
    if runs == [] {
      NothingTimed(audioStartMs);
    } else {
      var n := |runs| - 1;
      var front, run := runs[..n], runs[n];
      ConcatMore(front, run);
      assert front + [run] == runs;
      EmptyConcat(front);
      hide Concat;
      var before := Concat(front);
      TimedPrefix(before + run, |before|);
      assert (before + run)[..|before|] == before;
      RowsInOrder(front, audioStartMs);
      RowsOfMore(front, run, audioStartMs);
      hide RowsOf;
      RowsStep(RowsOf(front, audioStartMs), before, run, audioStartMs);
    }
  }

  lemma RowsOfMore(runs: seq<seq<Word>>, run: seq<Word>, audioStartMs: nat)
    ensures RowsOf(runs + [run], audioStartMs) == RowsOf(runs, audioStartMs) + [RowOf(run, audioStartMs)]
    ensures |RowsOf(runs, audioStartMs)| == |runs|
  {
    hide RowOf;
  }

  lemma EmptyConcat(runs: seq<seq<Word>>)
    requires forall i :: 0 <= i < |runs| ==> OneSpeaker(runs[i])
    ensures (runs == []) == (Concat(runs) == [])
  {
  }

  lemma RowsStep(rows: seq<Row>, before: seq<Word>, run: seq<Word>, audioStartMs: nat)
    requires Timed(before + run) && run != [] && RowsTimed(rows, audioStartMs)
    requires (rows == []) == (before == [])
    requires rows != [] ==> rows[|rows| - 1].endMs.Some? && WordTimed(before[|before| - 1])
                            && rows[|rows| - 1].endMs == Some(audioStartMs + before[|before| - 1].endMs.value)
    ensures RowsTimed(rows + [RowOf(run, audioStartMs)], audioStartMs)
    ensures WordTimed(run[|run| - 1])
    ensures RowOf(run, audioStartMs).endMs == Some(audioStartMs + run[|run| - 1].endMs.value)
  {
    hide RowsTimed, RowOf, RowTimed;
    var words := before + run;
    TimedPrefix(words, |before|);
    assert words[|before|..] == run;
    RunTimed(run, audioStartMs);
    if rows == [] {
      OneRowTimed(RowOf(run, audioStartMs), audioStartMs);
    } else {
      assert words[|before| - 1] == before[|before| - 1] && words[|before|] == run[0];
      RowAdded(rows, RowOf(run, audioStartMs), audioStartMs, before[|before| - 1], run[0]);
    }
  }

  lemma NothingTimed(audioStartMs: nat)
    ensures RowsTimed(RowsOf([], audioStartMs), audioStartMs)
  {
  }

  lemma OneRowTimed(row: Row, audioStartMs: nat)
    requires RowTimed(row, audioStartMs)
    ensures RowsTimed([] + [row], audioStartMs)
  {
  }
}
