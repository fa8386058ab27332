/**
  Where a sample on the provider's wire came from. Beside the track runs a trace of what really
  happened: what the provider received at each position, and the true timeline of captured audio
  and outages. The mapper's lookups are proved against it over every run.
*/
module RemoteProofs {
  import opened Prelude
  import opened GateModel
  import opened MapperModel
  import opened RemoteModel
  import Gates = GateReplay

  datatype Cell<T> = Heard(sample: T) | Silence

  /** `wire`: the provider positions of this session. `accounted`: what the counters have settled,
      in the order the mapper believes in. `pending`: captured, not yet settled. `timeline`: what
      really happened. `skipped`: samples the gate sent after the session had died.
      `base`: how much was accounted or pending when this session began. */
  datatype Trace<T> = Trace(
    wire: seq<Cell<T>>, accounted: seq<Cell<T>>, pending: seq<T>, timeline: seq<Cell<T>>,
    skipped: nat, base: nat, clean: bool)
  {
    /** The timeline as the mapper sees it. */
    function Mapped(): seq<Cell<T>> {
      accounted + Cells(pending)
    }
  }

  datatype Track<T> = Track(remote: Remote<T>, trace: Trace<T>)

  datatype Event<T> =
    | Chunk(samples: seq<T>, failAt: nat, at: nat)
    | KeepAlive(effect: KeepAliveEffect, at: nat)
    | Disconnected
    | Reconnected(outage: nat, at: nat)

  function Cells<T>(samples: seq<T>): (cells: seq<Cell<T>>)
    ensures |cells| == |samples| && forall i :: 0 <= i < |cells| ==> cells[i] == Heard(samples[i])
  {
    seq(|samples|, i requires 0 <= i < |samples| => Heard(samples[i]))
  }

  function Silences<T>(n: nat): (cells: seq<Cell<T>>)
    ensures |cells| == n && forall i :: 0 <= i < n ==> cells[i] == Silence
  {
    seq(n, i => Silence)
  }

  // ---- The trace --------------------------------------------------------------------

  function After<T>(xs: seq<T>, n: nat): seq<T> {
    if n <= |xs| then xs[n..] else []
  }

  function Sent<T>(live: bool, t: Trace<T>, pcm: seq<T>): Trace<T> {
    var t' := t.(pending := After(t.pending, |pcm|));
    if live then t'.(wire := t.wire + Cells(pcm), accounted := t.accounted + Cells(pcm))
    else t'.(skipped := t.skipped + |pcm|, clean := t.clean && pcm == [])
  }

  function Traced<T>(live: bool, t: Trace<T>, a: Action<T>): Trace<T> {
    match a
    case Send(pcm) => Sent(live, t, pcm)
    case SendStitched(pcm) => Sent(live, t, pcm)
    case Drop(n) =>
      var taken := if n <= |t.pending| then t.pending[..n] else t.pending;
      t.(accounted := t.accounted + Cells(taken), pending := After(t.pending, n))
  }

  function ActTrack<T>(k: Track<T>, a: Action<T>, fails: bool, now: nat): Track<T> {
    Track(Act(k.remote, a, fails, now), Traced(k.remote.live, k.trace, a))
  }

  function ActAllTrack<T>(k: Track<T>, actions: seq<Action<T>>, failAt: nat, now: nat): Track<T> {
    if actions == [] then k
    else
      var n := |actions| - 1;
      ActTrack(ActAllTrack(k, actions[..n], failAt, now), actions[n], failAt == n, now)
  }

  function Fed<T>(t: Trace<T>, samples: seq<T>): Trace<T> {
    t.(pending := t.pending + samples, timeline := t.timeline + Cells(samples))
  }

  function ChunkTrack<T>(c: Config, loudness: Loudness<T>, k: Track<T>, samples: seq<T>, failAt: nat,
                         now: nat): Track<T>
    requires c.Valid()
  {
    var r, t := k.remote, k.trace;
    if r.gate.None? then
      Track(HandleChunk(c, loudness, r, samples, failAt, now), Sent(r.live, Fed(t, samples), samples))
    else
      var (g, actions) := Process(c, loudness, r.gate.value, samples);
      ActAllTrack(Track(r.(gate := Some(g)), Fed(t, samples)), actions, failAt, now)
  }

  /** One turn of the loop that owns the track. Audio that arrives without a session is not
      looked at. */
  function Step<T>(c: Config, loudness: Loudness<T>, k: Track<T>, e: Event<T>): Track<T>
    requires c.Valid()
  {
    var r, t := k.remote, k.trace;
    match e
    case Chunk(samples, failAt, at) => if !r.live then k else ChunkTrack(c, loudness, k, samples, failAt, at)
    case KeepAlive(effect, at) =>
      var r' := KeepAliveIfIdle(r, effect, at);
      Track(r', t.(wire := t.wire + Silences(r'.totalInjected - r.totalInjected)))
    case Disconnected => k.(remote := r.(live := false))
    case Reconnected(outage, at) =>
      Track(Reconnect(r, outage, at),
            t.(wire := [], accounted := t.accounted + Silences(outage), timeline := t.timeline + Silences(outage),
               base := |t.accounted| + outage + |t.pending|, clean := t.clean && (outage == 0 || t.pending == [])))
  }

  function Run<T>(c: Config, loudness: Loudness<T>, k: Track<T>, events: seq<Event<T>>): Track<T>
    requires c.Valid()
  {
    if events == [] then k
    else Step(c, loudness, Run(c, loudness, k, events[..|events| - 1]), events[|events| - 1])
  }

  function Start<T>(live: bool, gateEnabled: bool, now: nat): Track<T> {
    Track(Fresh(live, gateEnabled, now), Trace([], [], [], [], 0, 0, true))
  }

  // ---- What holds at every action ---------------------------------------------------

  ghost predicate MapperOk(cps: seq<Checkpoint>, position: nat, offset: int) {
    && StrictlySorted(cps)
    && (forall i :: 0 <= i < |cps| ==> cps[i].position <= position)
    && (forall x: nat :: x >= position ==> Scan(cps, x) == offset)
  }

  /** The sample at provider position `x` is found where the lookup at `x` says. */
  ghost predicate Placed<T>(cps: seq<Checkpoint>, wire: seq<Cell<T>>, accounted: seq<Cell<T>>, x: nat)
    requires x < |wire|
  {
    wire[x].Heard? ==>
      var i := x + Scan(cps, x);
      0 <= i < |accounted| && accounted[i] == wire[x]
  }

  ghost predicate AllPlaced<T>(cps: seq<Checkpoint>, wire: seq<Cell<T>>, accounted: seq<Cell<T>>) {
    forall x: nat :: x < |wire| ==> Placed(cps, wire, accounted, x)
  }

  /** Since this session began, the mapped timeline is the true one, late by what was skipped. */
  ghost predicate RecentOk<T>(t: Trace<T>) {
    && t.base <= |t.Mapped()|
    && t.base + t.skipped <= |t.timeline|
    && t.Mapped()[t.base..] == t.timeline[t.base + t.skipped..]
  }

  ghost predicate Differs<T>(xs: seq<Cell<T>>, ys: seq<Cell<T>>, i: nat) {
    i < |xs| && i < |ys| && xs[i] != ys[i]
  }

  ghost predicate ExactOk<T>(t: Trace<T>) {
    && |t.timeline| == |t.Mapped()| + t.skipped
    && (t.clean ==> t.Mapped() == t.timeline)
    && (!t.clean ==> t.skipped > 0 || exists i :: Differs(t.accounted, t.timeline, i))
  }

  /** The invariant of a gated track, also between two actions of one chunk. */
  ghost predicate Midway<T>(k: Track<T>) {
    var r, t := k.remote, k.trace;
    && r.gate.Some? && r.mapper.Some?
    && |t.wire| == r.Position()
    && MapperOk(r.mapper.value, r.Position(), r.netOffset)
    && r.Position() + r.netOffset == |t.accounted|
    && AllPlaced(r.mapper.value, t.wire, t.accounted)
    && (r.live ==> RecentOk(t))
    && ExactOk(t)
  }

  /** Between chunks the pending samples are exactly the gate's pre-roll. */
  ghost predicate GatedOk<T>(c: Config, k: Track<T>) {
    Midway(k) && GateOk(c, k.remote.gate.value) && k.trace.pending == k.remote.gate.value.preRoll
  }

  /** An ungated session puts on the wire exactly what was captured since it began. */
  ghost predicate UngatedOk<T>(k: Track<T>) {
    var r, t := k.remote, k.trace;
    && r.gate.None? && r.mapper.None? && r.totalInjected == 0 && r.netOffset == 0
    && t.pending == [] && t.skipped == 0 && t.clean && t.accounted == t.timeline
    && t.base <= |t.timeline| && t.wire == t.timeline[t.base..] && |t.wire| == r.samplesSent
  }

  ghost predicate TrackOk<T>(c: Config, k: Track<T>) {
    if k.remote.gate.Some? then GatedOk(c, k) else UngatedOk(k)
  }

  // ---- Checkpoints ------------------------------------------------------------------

  lemma CheckpointKeeps(cps: seq<Checkpoint>, position: nat, offset: int, position': nat, offset': int)
    requires MapperOk(cps, position, offset) && position <= position'
    ensures MapperOk(Record(cps, Checkpoint(position', offset')), position', offset')
    ensures forall x: nat :: x < position' ==> Scan(Record(cps, Checkpoint(position', offset')), x) == Scan(cps, x)
  {
    var c := Checkpoint(position', offset');
    RecordKeepsSorted(cps, c);
    forall x: nat ensures Scan(Record(cps, c), x) == if position' <= x then offset' else Scan(cps, x) {
      RecordScans(cps, c, x);
    }
  }

  lemma PlacedAfter<T>(cps: seq<Checkpoint>, cps': seq<Checkpoint>, wire: seq<Cell<T>>, accounted: seq<Cell<T>>,
                       more: seq<Cell<T>>, added: seq<Cell<T>>, offset: int)
    requires AllPlaced(cps, wire, accounted)
    requires forall x: nat :: x < |wire + more| ==> Scan(cps', x) == Scan(cps, x)
    requires forall x: nat :: x >= |wire| ==> Scan(cps, x) == offset
    requires (more == added && |wire| + offset == |accounted|) || (forall i :: 0 <= i < |more| ==> more[i] == Silence)
    ensures AllPlaced(cps', wire + more, accounted + added)
  {
    hide Scan;
    forall x: nat | x < |wire + more| ensures Placed(cps', wire + more, accounted + added, x) {
      if x < |wire| {
        assert Placed(cps, wire, accounted, x);
      }
    }
  }

  // ---- One action -------------------------------------------------------------------

  lemma CellsConcat<T>(a: seq<T>, b: seq<T>)
    ensures Cells(a + b) == Cells(a) + Cells(b)
  {
  }

  lemma SettlingKeepsMapped<T>(accounted: seq<Cell<T>>, pending: seq<T>, n: nat)
    requires n <= |pending|
    ensures (accounted + Cells(pending[..n])) + Cells(pending[n..]) == accounted + Cells(pending)
  {
    assert pending[..n] + pending[n..] == pending;
    CellsConcat(pending[..n], pending[n..]);
    hide Cells;
    var front, back := Cells(pending[..n]), Cells(pending[n..]);
    assert (accounted + front) + back == accounted + (front + back);
  }

  /** Settling the front of the pending samples leaves the mapped timeline as it is. */
  lemma SettlingKeeps<T>(t: Trace<T>, t': Trace<T>, n: nat)
    requires n <= |t.pending| && ExactOk(t)
    requires t' == t.(wire := t'.wire, accounted := t.accounted + Cells(t.pending[..n]), pending := t.pending[n..])
    ensures ExactOk(t') && t'.Mapped() == t.Mapped()
    ensures RecentOk(t) ==> RecentOk(t')
  {
    SettlingKeepsMapped(t.accounted, t.pending, n);
    forall i | Differs(t.accounted, t.timeline, i) ensures Differs(t'.accounted, t'.timeline, i) {
    }
  }

  lemma SendKeeps<T>(k: Track<T>, pcm: seq<T>, fails: bool, now: nat)
    requires Midway(k) && k.remote.live && pcm <= k.trace.pending
    ensures Midway(Track(SendGated(k.remote, pcm, fails, now), Sent(true, k.trace, pcm)))
  {
    hide StrictlySorted, Scan, Record, ExactOk, RecentOk, MapperOk;
    var r, t := k.remote, k.trace;
    var cps := r.mapper.value;
    var r', t' := SendGated(r, pcm, fails, now), Sent(true, t, pcm);
    var cps' := Record(cps, Checkpoint(r.Position() + |pcm|, r.netOffset));
    CheckpointKeeps(cps, r.Position(), r.netOffset, r.Position() + |pcm|, r.netOffset);
    ScansPast(cps, r.Position(), r.netOffset);
    PlacedAfter(cps, cps', t.wire, t.accounted, Cells(pcm), Cells(pcm), r.netOffset);
    assert t.pending[..|pcm|] == pcm;
    SettlingKeeps(t, t', |pcm|);
    assert r'.mapper == Some(cps');
  }

  lemma ScansPast(cps: seq<Checkpoint>, position: nat, offset: int)
    requires MapperOk(cps, position, offset)
    ensures forall x: nat :: x >= position ==> Scan(cps, x) == offset
  {
  }

  /** A send after the session has died only loses its samples. */
  lemma SkipKeeps<T>(k: Track<T>, pcm: seq<T>, fails: bool, now: nat)
    requires Midway(k) && !k.remote.live && pcm <= k.trace.pending
    ensures Midway(Track(SendGated(k.remote, pcm, fails, now), Sent(false, k.trace, pcm)))
  {
    hide StrictlySorted, Scan, Record, MapperOk, RecentOk, ExactOk;
    var r, t := k.remote, k.trace;
    var cps := r.mapper.value;
    var cps' := Record(cps, Checkpoint(r.Position(), r.netOffset));
    CheckpointKeeps(cps, r.Position(), r.netOffset, r.Position(), r.netOffset);
    ScansPast(cps, r.Position(), r.netOffset);
    PlacedAfter(cps, cps', t.wire, t.accounted, [], [], r.netOffset);
    assert t.wire + [] == t.wire && t.accounted + [] == t.accounted;
    SkipIsInexact(t, pcm);
  }

  lemma SkipIsInexact<T>(t: Trace<T>, pcm: seq<T>)
    requires ExactOk(t) && pcm <= t.pending
    ensures ExactOk(Sent(false, t, pcm))
  {
    var t' := Sent(false, t, pcm);
    if pcm == [] {
      assert t'.pending == t.pending;
      assert t' == t;
    }
  }

  lemma DropKeeps<T>(k: Track<T>, n: nat)
    requires Midway(k) && n <= |k.trace.pending|
    ensures Midway(Track(RecordDrop(k.remote, n), Traced(k.remote.live, k.trace, Drop(n))))
  {
    hide StrictlySorted, Scan, Record, MapperOk, RecentOk, ExactOk;
    var r, t := k.remote, k.trace;
    var cps := r.mapper.value;
    var t' := Traced(r.live, t, Drop(n));
    var cps' := Record(cps, Checkpoint(r.Position(), r.netOffset + n));
    CheckpointKeeps(cps, r.Position(), r.netOffset, r.Position(), r.netOffset + n);
    ScansPast(cps, r.Position(), r.netOffset);
    PlacedAfter(cps, cps', t.wire, t.accounted, [], Cells(t.pending[..n]), r.netOffset);
    assert t.wire + [] == t.wire;
    SettlingKeeps(t, t', n);
  }

  lemma ActKeeps<T>(k: Track<T>, a: Action<T>, fails: bool, now: nat)
    requires Midway(k) && Gates.Take(a, k.trace.pending).Some?
    ensures Midway(ActTrack(k, a, fails, now))
    ensures ActTrack(k, a, fails, now).trace.pending == Gates.Take(a, k.trace.pending).value
    ensures ActTrack(k, a, fails, now).remote.gate == k.remote.gate
  {
    hide Midway;
    match a
    case Send(pcm) =>
      if k.remote.live { SendKeeps(k, pcm, fails, now); } else { SkipKeeps(k, pcm, fails, now); }
    case SendStitched(pcm) =>
      if k.remote.live { SendKeeps(k, pcm, fails, now); } else { SkipKeeps(k, pcm, fails, now); }
    case Drop(n) => DropKeeps(k, n);
  }

  lemma {:induction false} ActAllKeeps<T>(k: Track<T>, actions: seq<Action<T>>, failAt: nat, now: nat)
    requires Midway(k) && Gates.Replay(actions, k.trace.pending).Some?
    ensures var k' := ActAllTrack(k, actions, failAt, now);
            && Midway(k') && k'.trace.pending == Gates.Replay(actions, k.trace.pending).value
            && k'.remote.gate == k.remote.gate
            && k'.remote == ActAll(k.remote, actions, failAt, now)
  {
    hide Midway;
    if actions != [] {
      var n := |actions| - 1;
      ActAllKeeps(k, actions[..n], failAt, now);
      ActKeeps(ActAllTrack(k, actions[..n], failAt, now), actions[n], failAt == n, now);
    }
  }

  // ---- One event --------------------------------------------------------------------

  lemma FeedKeeps<T>(k: Track<T>, g: Gate<T>, samples: seq<T>)
    requires Midway(k)
    ensures Midway(Track(k.remote.(gate := Some(g)), Fed(k.trace, samples)))
  {
    hide MapperOk, AllPlaced, RecentOk, ExactOk;
    FeedIsRecent(k.trace, samples);
    FeedIsExact(k.trace, samples);
  }

  lemma FeedMaps<T>(t: Trace<T>, samples: seq<T>)
    ensures Fed(t, samples).Mapped() == t.Mapped() + Cells(samples)
  {
    CellsConcat(t.pending, samples);
    hide Cells;
    var before, more := Cells(t.pending), Cells(samples);
    assert t.accounted + (before + more) == (t.accounted + before) + more;
  }

  lemma FeedIsExact<T>(t: Trace<T>, samples: seq<T>)
    requires ExactOk(t)
    ensures ExactOk(Fed(t, samples))
  {
    var t' := Fed(t, samples);
    FeedMaps(t, samples);
    forall i | Differs(t.accounted, t.timeline, i) ensures Differs(t'.accounted, t'.timeline, i) {
    }
  }

  lemma FeedIsRecent<T>(t: Trace<T>, samples: seq<T>)
    ensures RecentOk(t) ==> RecentOk(Fed(t, samples))
  {
    var t' := Fed(t, samples);
    FeedMaps(t, samples);
    if RecentOk(t) {
      assert t'.Mapped()[t.base..] == t.Mapped()[t.base..] + Cells(samples);
      assert t'.timeline[t.base + t.skipped..] == t.timeline[t.base + t.skipped..] + Cells(samples);
    }
  }

  lemma ChunkKeeps<T>(c: Config, loudness: Loudness<T>, k: Track<T>, samples: seq<T>, failAt: nat, now: nat)
    requires c.Valid() && GatedOk(c, k)
    ensures GatedOk(c, ChunkTrack(c, loudness, k, samples, failAt, now))
    ensures ChunkTrack(c, loudness, k, samples, failAt, now).remote
            == HandleChunk(c, loudness, k.remote, samples, failAt, now)
  {
    hide Process, Gates.Replay, ActAllTrack, ActAll, GateOk;
    var g := k.remote.gate.value;
    var (g', actions) := Process(c, loudness, g, samples);
    Gates.ProcessReplays(c, loudness, g, samples);
    FeedKeeps(k, g', samples);
    ActAllKeeps(Track(k.remote.(gate := Some(g')), Fed(k.trace, samples)), actions, failAt, now);
  }

  lemma KeepAliveKeeps<T>(c: Config, loudness: Loudness<T>, k: Track<T>, effect: KeepAliveEffect, at: nat)
    requires c.Valid() && GatedOk(c, k)
    ensures GatedOk(c, Step(c, loudness, k, KeepAlive(effect, at)))
  {
    hide StrictlySorted, Scan, Record, MapperOk, GateOk;
    var r, t := k.remote, k.trace;
    var r' := KeepAliveIfIdle(r, effect, at);
    var n := r'.totalInjected - r.totalInjected;
    var cps := r.mapper.value;
    var cps' := Record(cps, Checkpoint(r.Position() + n, r.netOffset - n));
    CheckpointKeeps(cps, r.Position(), r.netOffset, r.Position() + n, r.netOffset - n);
    ScansPast(cps, r.Position(), r.netOffset);
    PlacedAfter(cps, cps', t.wire, t.accounted, Silences(n), [], r.netOffset);
    PlacedAfter(cps, cps, t.wire, t.accounted, [], [], r.netOffset);
    assert t.wire + Silences(0) == t.wire && t.accounted + [] == t.accounted;
  }

  lemma ReconnectKeeps<T>(c: Config, loudness: Loudness<T>, k: Track<T>, outage: nat, at: nat)
    requires c.Valid() && GatedOk(c, k)
    ensures GatedOk(c, Step(c, loudness, k, Reconnected(outage, at)))
  {
    hide GateOk;
    var r, t := k.remote, k.trace;
    var k' := Step(c, loudness, k, Reconnected(outage, at));
    var cps' := k'.remote.mapper.value;
    assert cps' == [Checkpoint(0, CarryOver(r, outage))];
    assert forall x: nat :: Scan(cps', x) == CarryOver(r, outage);
    ReconnectIsExact(t, k'.trace, outage);
  }

  lemma ReconnectIsExact<T>(t: Trace<T>, t': Trace<T>, outage: nat)
    requires ExactOk(t)
    requires t' == t.(wire := [], accounted := t.accounted + Silences(outage),
                      timeline := t.timeline + Silences(outage),
                      base := |t.accounted| + outage + |t.pending|,
                      clean := t.clean && (outage == 0 || t.pending == []))
    ensures ExactOk(t') && RecentOk(t')
  {
    assert t'.Mapped()[t'.base..] == [];
    assert t'.timeline[t'.base + t'.skipped..] == [];
    if t'.clean {
      if outage == 0 {
        assert t'.Mapped() == t.Mapped() && t'.timeline == t.timeline;
      } else {
        assert t'.Mapped() == t'.timeline;
      }
    } else if t.clean {
      assert t.timeline[|t.accounted|] == t.Mapped()[|t.accounted|] == Heard(t.pending[0]);
      assert Differs(t'.accounted, t'.timeline, |t.accounted|);
    } else {
      forall i | Differs(t.accounted, t.timeline, i) ensures Differs(t'.accounted, t'.timeline, i) {
      }
    }
  }

  lemma UngatedSent<T>(t: Trace<T>, samples: seq<T>)
    requires t.pending == []
    ensures Sent(true, Fed(t, samples), samples)
         == t.(wire := t.wire + Cells(samples), accounted := t.accounted + Cells(samples),
               timeline := t.timeline + Cells(samples))
  {
    assert t.pending + samples == samples;
  }

  lemma UngatedChunkKeeps<T>(c: Config, loudness: Loudness<T>, k: Track<T>, samples: seq<T>, failAt: nat, at: nat)
    requires c.Valid() && UngatedOk(k) && k.remote.live
    ensures UngatedOk(ChunkTrack(c, loudness, k, samples, failAt, at))
  {
    hide Process, ActAllTrack, Sent, Fed;
    var t, t' := k.trace, ChunkTrack(c, loudness, k, samples, failAt, at).trace;
    UngatedSent(t, samples);
    assert t' == Sent(true, Fed(t, samples), samples);
    assert t'.timeline[t.base..] == t.timeline[t.base..] + Cells(samples);
  }

  lemma UngatedReconnectKeeps<T>(c: Config, loudness: Loudness<T>, k: Track<T>, outage: nat, at: nat)
    requires c.Valid() && UngatedOk(k)
    ensures UngatedOk(Step(c, loudness, k, Reconnected(outage, at)))
  {
    var t' := Step(c, loudness, k, Reconnected(outage, at)).trace;
    assert t'.timeline[t'.base..] == [];
  }

  lemma UngatedKeepAlive<T>(c: Config, loudness: Loudness<T>, k: Track<T>, effect: KeepAliveEffect, at: nat)
    requires c.Valid() && UngatedOk(k)
    ensures Step(c, loudness, k, KeepAlive(effect, at)) == k
  {
    assert k.trace.wire + Silences(0) == k.trace.wire;
  }

  lemma UngatedKeeps<T>(c: Config, loudness: Loudness<T>, k: Track<T>, e: Event<T>)
    requires c.Valid() && UngatedOk(k)
    ensures UngatedOk(Step(c, loudness, k, e))
  {
    hide ChunkTrack;
    match e
    case Chunk(samples, failAt, at) => if k.remote.live { UngatedChunkKeeps(c, loudness, k, samples, failAt, at); }
    case KeepAlive(effect, at) => UngatedKeepAlive(c, loudness, k, effect, at);
    case Disconnected => DisconnectUngated(k);
    case Reconnected(outage, at) => UngatedReconnectKeeps(c, loudness, k, outage, at);
  }

  lemma DisconnectUngated<T>(k: Track<T>)
    requires UngatedOk(k)
    ensures UngatedOk(k.(remote := k.remote.(live := false)))
  {
  }

  lemma UngatedStays<T>(c: Config, loudness: Loudness<T>, k: Track<T>, e: Event<T>)
    requires c.Valid()
    ensures Step(c, loudness, k, e).remote.gate.Some? == k.remote.gate.Some?
  {
    hide Process, Midway;
    match e
    case Chunk(samples, failAt, at) =>
      if k.remote.live && k.remote.gate.Some? {
        var (g, actions) := Process(c, loudness, k.remote.gate.value, samples);
        ActionsKeepGate(Track(k.remote.(gate := Some(g)), Fed(k.trace, samples)), actions, failAt, at);
      }
    case _ =>
  }

  lemma {:induction false} ActionsKeepGate<T>(k: Track<T>, actions: seq<Action<T>>, failAt: nat, now: nat)
    ensures ActAllTrack(k, actions, failAt, now).remote.gate == k.remote.gate
  {
    if actions != [] {
      ActionsKeepGate(k, actions[..|actions| - 1], failAt, now);
    }
  }

  /** Every event keeps the invariant, whatever the gate decides, whichever send fails and
      whatever the provider injects. */
  lemma StepKeeps<T>(c: Config, loudness: Loudness<T>, k: Track<T>, e: Event<T>)
    requires c.Valid() && TrackOk(c, k)
    ensures TrackOk(c, Step(c, loudness, k, e))
    ensures Step(c, loudness, k, e).remote.gate.Some? == k.remote.gate.Some?
  {
    hide UngatedOk, Step;
    UngatedStays(c, loudness, k, e);
    if k.remote.gate.None? {
      UngatedKeeps(c, loudness, k, e);
    } else {
      hide UngatedOk;
      GatedKeeps(c, loudness, k, e);
    }
  }

  lemma GatedKeeps<T>(c: Config, loudness: Loudness<T>, k: Track<T>, e: Event<T>)
    requires c.Valid() && GatedOk(c, k)
    ensures GatedOk(c, Step(c, loudness, k, e))
  {
    hide ChunkTrack, Midway, HandleChunk, GateOk, KeepAliveIfIdle, Reconnect;
    match e
    case Chunk(samples, failAt, at) => if k.remote.live { ChunkKeeps(c, loudness, k, samples, failAt, at); }
    case KeepAlive(effect, at) => KeepAliveKeeps(c, loudness, k, effect, at);
    case Disconnected => DisconnectKeeps(k);
    case Reconnected(outage, at) => ReconnectKeeps(c, loudness, k, outage, at);
  }

  lemma DisconnectKeeps<T>(k: Track<T>)
    requires Midway(k)
    ensures Midway(k.(remote := k.remote.(live := false)))
  {
  }

  lemma {:induction false} RunKeeps<T>(c: Config, loudness: Loudness<T>, live: bool, gated: bool, now: nat,
                                       events: seq<Event<T>>)
    requires c.Valid()
    ensures var k := Run(c, loudness, Start(live, gated, now), events);
            TrackOk(c, k) && k.remote.gate.Some? == gated
  {
    if events != [] {
      hide TrackOk, Step;
      RunKeeps(c, loudness, live, gated, now, events[..|events| - 1]);
      StepKeeps(c, loudness, Run(c, loudness, Start(live, gated, now), events[..|events| - 1]), events[|events| - 1]);
    }
  }

  // ---- Main results -----------------------------------------------------------------

  /** Conservation, at every point of every run and across reconnects: what the counters say was
      settled, plus the pre-roll, plus what a dead session lost, is all that was captured or out. */
  lemma AccountingIsExact<T>(c: Config, loudness: Loudness<T>, live: bool, now: nat, events: seq<Event<T>>)
    requires c.Valid()
    ensures var k := Run(c, loudness, Start(live, true, now), events);
            && k.remote.gate.Some?
            && k.remote.Position() == |k.trace.wire|
            && k.remote.Position() + k.remote.netOffset + |k.remote.gate.value.preRoll| + k.trace.skipped
               == |k.trace.timeline|
  {
    RunKeeps(c, loudness, live, true, now, events);
  }

  /** Exact correspondence: every real sample at provider position `x` is the sample at the mapped
      position `x + offset(x)`. */
  lemma EverySampleIsPlaced<T>(c: Config, loudness: Loudness<T>, live: bool, now: nat, events: seq<Event<T>>, x: nat)
    requires c.Valid()
    ensures var k := Run(c, loudness, Start(live, true, now), events);
            && k.remote.mapper.Some?
            && (x < |k.trace.wire| && k.trace.wire[x].Heard? ==>
                  var i := x + Scan(k.remote.mapper.value, x);
                  0 <= i < |k.trace.Mapped()| && k.trace.Mapped()[i] == k.trace.wire[x])
  {
    hide Run, MapperOk, ExactOk, GateOk, RecentOk, Scan;
    RunKeeps(c, loudness, live, true, now, events);
    var k := Run(c, loudness, Start(live, true, now), events);
    if x < |k.trace.wire| {
      assert Placed(k.remote.mapper.value, k.trace.wire, k.trace.accounted, x);
    }
  }

  // ---- When the mapped timeline is the true one --------------------------------------

  ghost predicate IsSend<T>(actions: seq<Action<T>>, i: nat) {
    i < |actions| && !actions[i].Drop?
  }

  /** A send at `failAt` fails and the gate had more to send in the same chunk. */
  ghost predicate LosesSends<T>(actions: seq<Action<T>>, failAt: nat) {
    IsSend(actions, failAt) && exists i: nat :: i > failAt && IsSend(actions, i)
  }

  /** The guard: no chunk goes on sending after a failed send, no outage meets a filled pre-roll. */
  ghost predicate Harmless<T>(c: Config, loudness: Loudness<T>, r: Remote<T>, e: Event<T>)
    requires c.Valid()
  {
    match e
    case Chunk(samples, failAt, _) =>
      r.live && r.gate.Some? ==> !LosesSends(Process(c, loudness, r.gate.value, samples).1, failAt)
    case Reconnected(outage, _) => outage == 0 || r.gate.None? || r.gate.value.preRoll == []
    case _ => true
  }

  ghost predicate AllHarmless<T>(c: Config, loudness: Loudness<T>, k: Track<T>, events: seq<Event<T>>)
    requires c.Valid()
  {
    events == []
    || (var front := events[..|events| - 1];
        && AllHarmless(c, loudness, k, front)
        && Harmless(c, loudness, Run(c, loudness, k, front).remote, events[|events| - 1]))
  }

  ghost predicate SendsSomething<T>(actions: seq<Action<T>>) {
    forall i :: 0 <= i < |actions| ==>
      match actions[i] { case Send(s) => s != [] case SendStitched(s) => s != [] case Drop(_) => true }
  }

  ghost predicate HoldsSomething<T>(vs: seq<Verdict<T>>) {
    forall i :: 0 <= i < |vs| ==>
      match vs[i] { case Pass(s) => s != [] case Stitch(s) => s != [] case Hold(_) => true }
  }

  lemma {:induction false} WalkHolds<T>(c: Config, loudness: Loudness<T>, g: Gate<T>, samples: seq<T>)
    requires c.Valid()
    ensures HoldsSomething(Walk(c, loudness, g, samples).1)
    decreases |samples|
  {
    if samples != [] {
      var end := WindowEnd(samples, c);
      WalkHolds(c, loudness, WindowStep(c, loudness, g, samples[..end]).0, samples[end..]);
    }
  }

  lemma {:induction false} CoalesceSends<T>(vs: seq<Verdict<T>>)
    requires HoldsSomething(vs)
    ensures SendsSomething(Coalesce(vs))
  {
    if vs != [] {
      CoalesceSends(vs[..|vs| - 1]);
    }
  }

  lemma LosesMore<T>(actions: seq<Action<T>>, failAt: nat)
    requires actions != []
    ensures var n := |actions| - 1;
            LosesSends(actions, failAt) <==>
              LosesSends(actions[..n], failAt) || (n > failAt && IsSend(actions, failAt) && IsSend(actions, n))
  {
    var n := |actions| - 1;
    forall i: nat | i < n ensures IsSend(actions[..n], i) == IsSend(actions, i) {
    }
  }

  lemma {:induction false} ActionsClean<T>(k: Track<T>, actions: seq<Action<T>>, failAt: nat, now: nat)
    requires k.remote.live && SendsSomething(actions)
    ensures var k' := ActAllTrack(k, actions, failAt, now);
            && k'.remote.live == !IsSend(actions, failAt)
            && k'.trace.clean == (k.trace.clean && !LosesSends(actions, failAt))
  {
    if actions != [] {
      var n := |actions| - 1;
      ActionsClean(k, actions[..n], failAt, now);
      LosesMore(actions, failAt);
      ActClean(ActAllTrack(k, actions[..n], failAt, now), actions[n], failAt == n, now);
    }
  }

  lemma ActClean<T>(k: Track<T>, a: Action<T>, fails: bool, now: nat)
    requires SendsSomething([a])
    ensures var k' := ActTrack(k, a, fails, now);
            && k'.remote.live == (k.remote.live && (a.Drop? || !fails))
            && k'.trace.clean == (k.trace.clean && (a.Drop? || k.remote.live))
  {
    assert [a][0] == a;
  }

  lemma StepClean<T>(c: Config, loudness: Loudness<T>, k: Track<T>, e: Event<T>)
    requires c.Valid() && k.remote.gate.Some? && k.trace.pending == k.remote.gate.value.preRoll
    ensures Step(c, loudness, k, e).trace.clean == (k.trace.clean && Harmless(c, loudness, k.remote, e))
  {
    hide ActAllTrack;
    match e
    case Chunk(samples, failAt, at) =>
      if k.remote.live {
        var (g, actions) := Process(c, loudness, k.remote.gate.value, samples);
        WalkHolds(c, loudness, k.remote.gate.value, samples);
        CoalesceSends(Walk(c, loudness, k.remote.gate.value, samples).1);
        ActionsClean(Track(k.remote.(gate := Some(g)), Fed(k.trace, samples)), actions, failAt, at);
      }
    case _ =>
  }

  lemma {:induction false} CleanExactly<T>(c: Config, loudness: Loudness<T>, live: bool, now: nat,
                                           events: seq<Event<T>>)
    requires c.Valid()
    ensures Run(c, loudness, Start(live, true, now), events).trace.clean <==>
              AllHarmless(c, loudness, Start(live, true, now), events)
  {
    hide Step, Harmless;
    if events != [] {
      var front := events[..|events| - 1];
      CleanExactly(c, loudness, live, now, front);
      RunKeeps(c, loudness, live, true, now, front);
      StepClean(c, loudness, Run(c, loudness, Start(live, true, now), front), events[|events| - 1]);
    }
  }

  /** What the mapper takes for the timeline is the true timeline exactly when no chunk lost
      samples to a dead session and no outage was bridged with audio still in the pre-roll. */
  lemma MappedIsTrueExactly<T>(c: Config, loudness: Loudness<T>, live: bool, now: nat, events: seq<Event<T>>)
    requires c.Valid()
    ensures var t := Run(c, loudness, Start(live, true, now), events).trace;
            t.Mapped() == t.timeline <==> AllHarmless(c, loudness, Start(live, true, now), events)
  {
    RunKeeps(c, loudness, live, true, now, events);
    CleanExactly(c, loudness, live, now, events);
    var t := Run(c, loudness, Start(live, true, now), events).trace;
    if !t.clean && t.skipped == 0 {
      var i: nat :| Differs(t.accounted, t.timeline, i);
      assert t.Mapped()[i] == t.accounted[i];
    }
  }

  /** In a live session, audio captured since the session began is mapped exactly, except that it
      comes early by the samples ever lost to dead sessions. */
  lemma LiveSessionIsExact<T>(c: Config, loudness: Loudness<T>, live: bool, now: nat, events: seq<Event<T>>, x: nat)
    requires c.Valid()
    ensures var k := Run(c, loudness, Start(live, true, now), events);
            && k.remote.mapper.Some?
            && (k.remote.live && x < |k.trace.wire| && k.trace.wire[x].Heard? ==>
                  var i := x + Scan(k.remote.mapper.value, x);
                  i >= k.trace.base ==>
                    0 <= i + k.trace.skipped < |k.trace.timeline|
                        && k.trace.timeline[i + k.trace.skipped] == k.trace.wire[x])
  {
    hide Run, AllPlaced, MapperOk, ExactOk, GateOk, RecentOk, Scan;
    EverySampleIsPlaced(c, loudness, live, now, events, x);
    RunKeeps(c, loudness, live, true, now, events);
    var k := Run(c, loudness, Start(live, true, now), events);
    var t := k.trace;
    if k.remote.live && x < |t.wire| && t.wire[x].Heard? && x + Scan(k.remote.mapper.value, x) >= t.base {
      var i := x + Scan(k.remote.mapper.value, x);
      RecentAt(t, i);
    }
  }

  lemma RecentAt<T>(t: Trace<T>, i: nat)
    requires RecentOk(t) && t.base <= i < |t.Mapped()|
    ensures i + t.skipped < |t.timeline| && t.timeline[i + t.skipped] == t.Mapped()[i]
  {
    assert t.Mapped()[i] == t.Mapped()[t.base..][i - t.base];
    assert t.timeline[i + t.skipped] == t.timeline[t.base + t.skipped..][i - t.base];
  }

  /** Over an outage the samples still in the pre-roll move: before it, the j-th of them would be
      mapped to position |accounted| + j of the true timeline; after it, `outage` further on. */
  lemma OutageDelaysPreRoll<T>(c: Config, loudness: Loudness<T>, k: Track<T>, outage: nat, at: nat, j: nat)
    requires c.Valid() && GatedOk(c, k) && j < |k.remote.gate.value.preRoll|
    ensures var k' := Step(c, loudness, k, Reconnected(outage, at));
            var before, after := k.remote.Position() + k.remote.netOffset, k'.remote.Position() + k'.remote.netOffset;
            && k.trace.Mapped()[before + j] == Heard(k.remote.gate.value.preRoll[j]) == k'.trace.Mapped()[after + j]
            && after == before + outage && k'.trace.timeline == k.trace.timeline + Silences(outage)
  {
    ReconnectKeeps(c, loudness, k, outage, at);
  }

  /** A transcript time, taken through the mapper, points at the captured sample: never more than
      half a millisecond late, nor more than half a millisecond and a sample early. */
  lemma TimestampsPointAtCapture<T>(c: Config, loudness: Loudness<T>, live: bool, now: nat, events: seq<Event<T>>,
                                    rate: nat, ms: nat)
    requires c.Valid() && rate > 0
    ensures var k := Run(c, loudness, Start(live, true, now), events);
            var x := MsToSamples(ms, rate);
            && k.remote.mapper.Some?
            && ((AllHarmless(c, loudness, Start(live, true, now), events)
                 && x < |k.trace.wire| && k.trace.wire[x].Heard?) ==>
                  var i := x + Scan(k.remote.mapper.value, x);
                  && 0 <= i < |k.trace.timeline| && k.trace.timeline[i] == k.trace.wire[x]
                  && -(rate as int) <= 2 * (Wallclock(k.remote.mapper.value, rate, ms) * rate - 1000 * i) < rate + 2000)
  {
    EverySampleIsPlaced(c, loudness, live, now, events, MsToSamples(ms, rate));
    MappedIsTrueExactly(c, loudness, live, now, events);
    var k := Run(c, loudness, Start(live, true, now), events);
    WallclockIsNear(k.remote.mapper.value, rate, ms);
  }

  lemma WallclockIsNear(cps: seq<Checkpoint>, rate: nat, ms: nat)
    requires rate > 0
    ensures var i := MsToSamples(ms, rate) + Scan(cps, MsToSamples(ms, rate));
            i >= 0 ==> -(rate as int) <= 2 * (Wallclock(cps, rate, ms) * rate - 1000 * i) < rate + 2000
  {
    hide SignedSamplesToMs;
    var x := MsToSamples(ms, rate);
    var offset := Scan(cps, x);
    var m := SignedSamplesToMs(offset, rate);
    OffsetIsNearest(offset, rate);
    assert 1000 * x <= ms * rate < 1000 * x + 1000;
    assert (ms + m) * rate == ms * rate + m * rate;
    if cps == [] {
      ZeroOffset(rate);
      assert m * rate == 0;
    } else if x + offset >= 0 {
      assert 2 * ((ms + m) * rate) >= -(rate as int);
      NotBelowZero(ms + m, rate);
    }
  }

  lemma ZeroOffset(rate: nat)
    requires rate > 0
    ensures SignedSamplesToMs(0, rate) == 0
  {
    SmallQuotient(rate / 2, rate);
  }

  lemma NotBelowZero(a: int, rate: nat)
    requires rate > 0 && 2 * (a * rate) >= -(rate as int)
    ensures a >= 0
  {
    MapperModel.Scaled(a, -1, rate);
  }

  /** What was sent at `k` stays as it is at `k'`, and so does every lookup below its position. */
  ghost predicate Extends<T>(k: Track<T>, k': Track<T>) {
    && k.remote.mapper.Some? && k'.remote.mapper.Some?
    && k.trace.wire <= k'.trace.wire && k.remote.Position() <= k'.remote.Position()
    && forall x: nat :: x < k.remote.Position() ==> Scan(k'.remote.mapper.value, x) == Scan(k.remote.mapper.value, x)
  }

  lemma StepExtends<T>(c: Config, loudness: Loudness<T>, k: Track<T>, e: Event<T>)
    requires c.Valid() && GatedOk(c, k) && !e.Reconnected?
    ensures Extends(k, Step(c, loudness, k, e))
  {
    match e
    case Chunk(samples, failAt, at) =>
      if k.remote.live {
        var (g, actions) := Process(c, loudness, k.remote.gate.value, samples);
        ActionsExtend(Track(k.remote.(gate := Some(g)), Fed(k.trace, samples)), actions, failAt, at);
      }
    case KeepAlive(effect, at) =>
      var r' := KeepAliveIfIdle(k.remote, effect, at);
      RecordLeaves(k.remote.mapper.value, r'.Position(), r'.netOffset);
    case Disconnected =>
  }

  /** Within a session nothing that happens later changes what was sent, nor any lookup below the
      position reached. */
  lemma {:induction false} LookupsAreFinal<T>(c: Config, loudness: Loudness<T>, k: Track<T>, events: seq<Event<T>>)
    requires c.Valid() && GatedOk(c, k) && forall i :: 0 <= i < |events| ==> !events[i].Reconnected?
    ensures Extends(k, Run(c, loudness, k, events)) && GatedOk(c, Run(c, loudness, k, events))
  {
    if events != [] {
      hide Step, GatedOk, Scan;
      var front, last := events[..|events| - 1], events[|events| - 1];
      LookupsAreFinal(c, loudness, k, front);
      StepExtends(c, loudness, Run(c, loudness, k, front), last);
      GatedKeeps(c, loudness, Run(c, loudness, k, front), last);
    } else {
      assert k.remote.mapper.Some?;
    }
  }

  lemma RecordLeaves(cps: seq<Checkpoint>, position: nat, offset: int)
    ensures forall x: nat :: x < position ==> Scan(Record(cps, Checkpoint(position, offset)), x) == Scan(cps, x)
  {
    forall x: nat | x < position ensures Scan(Record(cps, Checkpoint(position, offset)), x) == Scan(cps, x) {
      RecordScans(cps, Checkpoint(position, offset), x);
    }
  }

  lemma ActExtends<T>(k: Track<T>, a: Action<T>, fails: bool, now: nat)
    requires k.remote.mapper.Some?
    ensures var k' := ActTrack(k, a, fails, now);
            && k'.remote.mapper.Some? && k.trace.wire <= k'.trace.wire && k.remote.Position() <= k'.remote.Position()
            && forall x: nat :: x < k.remote.Position() ==>
                 Scan(k'.remote.mapper.value, x) == Scan(k.remote.mapper.value, x)
  {
    hide Scan, Record;
    var k' := ActTrack(k, a, fails, now);
    RecordLeaves(k.remote.mapper.value, k'.remote.Position(), k'.remote.netOffset);
  }

  lemma {:induction false} ActionsExtend<T>(k: Track<T>, actions: seq<Action<T>>, failAt: nat, now: nat)
    requires k.remote.mapper.Some?
    ensures var k' := ActAllTrack(k, actions, failAt, now);
            && k'.remote.mapper.Some? && k.trace.wire <= k'.trace.wire && k.remote.Position() <= k'.remote.Position()
            && forall x: nat :: x < k.remote.Position() ==>
                 Scan(k'.remote.mapper.value, x) == Scan(k.remote.mapper.value, x)
  {
    hide Scan, ActTrack;
    if actions != [] {
      var n := |actions| - 1;
      ActionsExtend(k, actions[..n], failAt, now);
      ActExtends(ActAllTrack(k, actions[..n], failAt, now), actions[n], failAt == n, now);
    }
  }

  // ---- Order of time ----------------------------------------------------------------

  ghost predicate Rising<T>(r: Remote<T>) {
    && r.mapper.Some? && r.netOffset >= 0 && NeverDecreasing(r.mapper.value)
    && forall i :: 0 <= i < |r.mapper.value| ==> r.mapper.value[i].offset <= r.netOffset
  }

  ghost predicate Injects<T>(e: Event<T>) {
    e.KeepAlive? && e.effect.InjectedAudio? && e.effect.samples > 0
  }

  lemma CheckpointRises<T>(r: Remote<T>, r': Remote<T>)
    requires Rising(r) && r'.netOffset >= r.netOffset && r'.mapper == r.mapper
    ensures Rising(Checkpointed(r'))
  {
  }

  lemma {:induction false} ActionsRise<T>(r: Remote<T>, actions: seq<Action<T>>, failAt: nat, now: nat)
    requires Rising(r)
    ensures Rising(ActAll(r, actions, failAt, now))
  {
    hide NeverDecreasing, Checkpointed;
    if actions != [] {
      var n := |actions| - 1;
      ActionsRise(r, actions[..n], failAt, now);
      var r1 := ActAll(r, actions[..n], failAt, now);
      match actions[n]
      case Send(pcm) => CheckpointRises(r1, SendUnconditional(r1, pcm, failAt == n));
      case SendStitched(pcm) => CheckpointRises(r1, SendUnconditional(r1, pcm, failAt == n));
      case Drop(count) => CheckpointRises(r1, r1.(netOffset := r1.netOffset + count));
    }
  }

  lemma {:induction false} ActAllTracks<T>(k: Track<T>, actions: seq<Action<T>>, failAt: nat, now: nat)
    ensures ActAllTrack(k, actions, failAt, now).remote == ActAll(k.remote, actions, failAt, now)
  {
    if actions != [] {
      ActAllTracks(k, actions[..|actions| - 1], failAt, now);
    }
  }

  lemma FreshRises(offset: int)
    requires offset >= 0
    ensures Record([], Checkpoint(0, offset)) == [Checkpoint(0, offset)] && NeverDecreasing([Checkpoint(0, offset)])
  {
  }

  lemma ChunkRises<T>(c: Config, loudness: Loudness<T>, k: Track<T>, samples: seq<T>, failAt: nat, now: nat)
    requires c.Valid() && k.remote.gate.Some? && Rising(k.remote)
    ensures Rising(ChunkTrack(c, loudness, k, samples, failAt, now).remote)
  {
    hide Process, ActAll, ActAllTrack, NeverDecreasing;
    var (g, actions) := Process(c, loudness, k.remote.gate.value, samples);
    ActAllTracks(Track(k.remote.(gate := Some(g)), Fed(k.trace, samples)), actions, failAt, now);
    ActionsRise(k.remote.(gate := Some(g)), actions, failAt, now);
  }

  lemma KeepAliveRises<T>(r: Remote<T>, effect: KeepAliveEffect, at: nat)
    requires Rising(r) && (effect.InjectedAudio? ==> effect.samples == 0)
    ensures Rising(KeepAliveIfIdle(r, effect, at))
  {
    hide NeverDecreasing, Checkpointed;
    if effect.InjectedAudio? {
      CheckpointRises(r, r.(netOffset := r.netOffset - 0, totalInjected := r.totalInjected + 0));
    }
  }

  lemma StepRises<T>(c: Config, loudness: Loudness<T>, k: Track<T>, e: Event<T>)
    requires c.Valid() && k.remote.gate.Some? && Rising(k.remote) && !Injects(e)
    ensures Rising(Step(c, loudness, k, e).remote)
  {
    hide ChunkTrack, KeepAliveIfIdle, NeverDecreasing;
    match e
    case Chunk(samples, failAt, at) => if k.remote.live { ChunkRises(c, loudness, k, samples, failAt, at); }
    case KeepAlive(effect, at) => KeepAliveRises(k.remote, effect, at);
    case Disconnected =>
    case Reconnected(outage, at) => FreshRises(CarryOver(k.remote, outage));
  }

  lemma {:induction false} RunRises<T>(c: Config, loudness: Loudness<T>, live: bool, now: nat, events: seq<Event<T>>)
    requires c.Valid() && forall i :: 0 <= i < |events| ==> !Injects(events[i])
    ensures Rising(Run(c, loudness, Start(live, true, now), events).remote)
  {
    if events != [] {
      hide Step, Rising;
      var front := events[..|events| - 1];
      RunRises(c, loudness, live, now, front);
      RunKeeps(c, loudness, live, true, now, front);
      StepRises(c, loudness, Run(c, loudness, Start(live, true, now), front), events[|events| - 1]);
    } else {
      assert Run(c, loudness, Start<T>(live, true, now), events) == Start(live, true, now);
    }
  }

  /** As long as no audio is ever injected, transcript times keep their order. */
  lemma TimeKeepsOrder<T>(c: Config, loudness: Loudness<T>, live: bool, now: nat, events: seq<Event<T>>, rate: nat,
                          a: nat, b: nat)
    requires c.Valid() && rate > 0 && a <= b
    requires forall i :: 0 <= i < |events| ==> !Injects(events[i])
    ensures var k := Run(c, loudness, Start(live, true, now), events);
            && k.remote.mapper.Some?
            && Wallclock(k.remote.mapper.value, rate, a) <= Wallclock(k.remote.mapper.value, rate, b)
  {
    RunRises(c, loudness, live, now, events);
    RunKeeps(c, loudness, live, true, now, events);
    WallclockMonotone(Run(c, loudness, Start(live, true, now), events).remote.mapper.value, rate, a, b);
  }

  /** With injections, after any run: transcript times keep their order exactly when no checkpoint
      the mapper holds turns the clock back. */
  lemma TimesInOrderExactly<T>(c: Config, loudness: Loudness<T>, live: bool, now: nat, events: seq<Event<T>>, rate: nat)
    requires c.Valid() && rate > 0
    ensures var k := Run(c, loudness, Start(live, true, now), events);
            && k.remote.mapper.Some?
            && (TimesInOrder(k.remote.mapper.value, rate) <==>
                 NeverTurnsBack(Timeline(k.remote.mapper.value, rate), rate))
  {
    RunKeeps(c, loudness, live, true, now, events);
    WallclockOrderExactly(Run(c, loudness, Start(live, true, now), events).remote.mapper.value, rate);
  }
}
