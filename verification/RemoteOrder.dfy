/**
  Which events of the remote track put its transcript times out of order. Sends, drops, failures
  and reconnects never do; a heartbeat does exactly when the injected audio takes more off the
  offset than the millisecond it moves on by.
*/
module RemoteOrder {
  import opened Prelude
  import opened GateModel
  import opened MapperModel
  import opened RemoteModel
  import opened RemoteProofs
  import Gates = GateReplay

  // ---- Checkpoints that do not go down ----------------------------------------------

  ghost predicate InOrder<T>(r: Remote<T>, rate: nat)
    requires rate > 0
  {
    r.mapper.Some? ==> TimesInOrder(r.mapper.value, rate)
  }

  lemma ByScan(cps: seq<Checkpoint>, rate: nat, ms: nat)
    requires rate > 0
    ensures Wallclock(cps, rate, ms) == SaturatingAdd(ms, SignedSamplesToMs(Scan(cps, MsToSamples(ms, rate)), rate))
  {
    SmallQuotient(rate / 2, rate);
  }

  /** One lookup after a checkpoint at or past the end, with an offset no smaller than the last. */
  lemma LookupRises(cps: seq<Checkpoint>, position: nat, before: int, c: Checkpoint, rate: nat, ms: nat)
    requires rate > 0 && MapperOk(cps, position, before) && position <= c.position && before <= c.offset
    ensures var x := MsToSamples(ms, rate);
            && Wallclock(cps, rate, ms) <= Wallclock(Record(cps, c), rate, ms)
            && (x < c.position ==> Wallclock(Record(cps, c), rate, ms) == Wallclock(cps, rate, ms))
            && (x >= c.position ==>
                  Wallclock(Record(cps, c), rate, ms) == SaturatingAdd(ms, SignedSamplesToMs(c.offset, rate)))
  {
    var x := MsToSamples(ms, rate);
    RecordScans(cps, c, x);
    ByScan(cps, rate, ms);
    ByScan(Record(cps, c), rate, ms);
    if x >= c.position {
      OffsetMonotone(Scan(cps, x), c.offset, rate);
    }
    hide Wallclock, Record, Scan, SignedSamplesToMs;
  }

  lemma SamplesMonotone(a: nat, b: nat, rate: nat)
    requires a <= b
    ensures MsToSamples(a, rate) <= MsToSamples(b, rate)
  {
    assert a * rate <= b * rate;
    DivMonotone(a * rate, b * rate);
  }

  lemma RisingCheckpoint(cps: seq<Checkpoint>, position: nat, before: int, c: Checkpoint, rate: nat)
    requires rate > 0 && MapperOk(cps, position, before) && position <= c.position && before <= c.offset
    requires TimesInOrder(cps, rate)
    ensures TimesInOrder(Record(cps, c), rate)
  {
    hide Wallclock, Record, MapperOk, SignedSamplesToMs, MsToSamples;
    forall a: nat, b: nat | a <= b ensures Wallclock(Record(cps, c), rate, a) <= Wallclock(Record(cps, c), rate, b) {
      SamplesMonotone(a, b, rate);
      LookupRises(cps, position, before, c, rate, a);
      LookupRises(cps, position, before, c, rate, b);
      assert Wallclock(cps, rate, a) <= Wallclock(cps, rate, b);
    }
  }

  // ---- Events -----------------------------------------------------------------------

  lemma CheckpointKeepsOrder<T>(r: Remote<T>, r': Remote<T>, rate: nat)
    requires rate > 0 && r.mapper.Some? && MapperOk(r.mapper.value, r.Position(), r.netOffset)
    requires r'.mapper == r.mapper && r.Position() <= r'.Position() && r.netOffset <= r'.netOffset
    requires InOrder(r, rate)
    ensures InOrder(Checkpointed(r'), rate)
  {
    RisingCheckpoint(r.mapper.value, r.Position(), r.netOffset, Checkpoint(r'.Position(), r'.netOffset), rate);
  }

  lemma ActKeepsOrder<T>(r: Remote<T>, a: Action<T>, fails: bool, now: nat, rate: nat)
    requires rate > 0 && r.mapper.Some? && MapperOk(r.mapper.value, r.Position(), r.netOffset) && InOrder(r, rate)
    ensures InOrder(Act(r, a, fails, now), rate)
  {
    hide MapperOk, TimesInOrder, Checkpointed;
    match a
    case Send(pcm) => CheckpointKeepsOrder(r, SendUnconditional(r, pcm, fails), rate);
    case SendStitched(pcm) => CheckpointKeepsOrder(r, SendUnconditional(r, pcm, fails), rate);
    case Drop(count) => CheckpointKeepsOrder(r, r.(netOffset := r.netOffset + count), rate);
  }

  lemma {:induction false} ActionsKeepOrder<T>(k: Track<T>, actions: seq<Action<T>>, failAt: nat, now: nat, rate: nat)
    requires rate > 0 && Midway(k) && Gates.Replay(actions, k.trace.pending).Some? && InOrder(k.remote, rate)
    ensures InOrder(ActAllTrack(k, actions, failAt, now).remote, rate)
  {
    hide InOrder, Act;
    if actions != [] {
      var n := |actions| - 1;
      ActionsKeepOrder(k, actions[..n], failAt, now, rate);
      ActAllKeeps(k, actions[..n], failAt, now);
      ActKeepsOrder(ActAllTrack(k, actions[..n], failAt, now).remote, actions[n], failAt == n, now, rate);
    }
  }

  lemma ChunkKeepsOrder<T>(c: Config, loudness: Loudness<T>, k: Track<T>, samples: seq<T>, failAt: nat, now: nat,
                           rate: nat)
    requires c.Valid() && GatedOk(c, k) && rate > 0 && InOrder(k.remote, rate)
    ensures InOrder(ChunkTrack(c, loudness, k, samples, failAt, now).remote, rate)
  {
    hide Process, Gates.Replay, ActAllTrack, GateOk, TimesInOrder, Midway;
    MidwayIsGated(k);
    var g := k.remote.gate.value;
    var (g', actions) := Process(c, loudness, g, samples);
    Gates.ProcessReplays(c, loudness, g, samples);
    FeedKeeps(k, g', samples);
    ActionsKeepOrder(Track(k.remote.(gate := Some(g')), Fed(k.trace, samples)), actions, failAt, now, rate);
  }

  lemma MidwayIsGated<T>(k: Track<T>)
    requires Midway(k)
    ensures k.remote.gate.Some? && k.remote.mapper.Some?
    ensures MapperOk(k.remote.mapper.value, k.remote.Position(), k.remote.netOffset)
  {
  }

  /** A new session starts with one checkpoint at its beginning: its times are in order. */
  lemma FreshIsInOrder(offset: int, rate: nat)
    requires rate > 0
    ensures TimesInOrder(Record([], Checkpoint(0, offset)), rate)
  {
    var cps := Record([], Checkpoint(0, offset));
    assert cps == [Checkpoint(0, offset)];
    forall a: nat, b: nat | a <= b ensures Wallclock(cps, rate, a) <= Wallclock(cps, rate, b) {
      assert Scan(cps, MsToSamples(a, rate)) == offset && Scan(cps, MsToSamples(b, rate)) == offset;
    }
  }

  /** Nothing but injected audio puts times out of order; a reconnect puts them in order again. */
  lemma OnlyInjectionReorders<T>(c: Config, loudness: Loudness<T>, k: Track<T>, e: Event<T>, rate: nat)
    requires c.Valid() && GatedOk(c, k) && rate > 0 && !Injects(e)
    ensures InOrder(k.remote, rate) ==> InOrder(Step(c, loudness, k, e).remote, rate)
    ensures e.Reconnected? ==> InOrder(Step(c, loudness, k, e).remote, rate)
  {
    MidwayIsGated(k);
    hide TimesInOrder, MapperOk, Midway, GateOk;
    match e
    case Chunk(samples, failAt, at) =>
      if k.remote.live && InOrder(k.remote, rate) {
        ChunkKeepsOrder(c, loudness, k, samples, failAt, at, rate);
      }
    case KeepAlive(effect, at) =>
      if effect.InjectedAudio? && InOrder(k.remote, rate) {
        HeartbeatOfNothing(k.remote, at, rate);
      }
    case Disconnected =>
    case Reconnected(outage, at) => FreshIsInOrder(CarryOver(k.remote, outage), rate);
  }

  lemma HeartbeatOfNothing<T>(r: Remote<T>, at: nat, rate: nat)
    requires rate > 0 && r.mapper.Some? && MapperOk(r.mapper.value, r.Position(), r.netOffset) && InOrder(r, rate)
    ensures InOrder(KeepAliveIfIdle(r, InjectedAudio(0), at), rate)
  {
    hide MapperOk, TimesInOrder, Checkpointed;
    CheckpointKeepsOrder(r, r.(netOffset := r.netOffset - 0, totalInjected := r.totalInjected + 0), rate);
  }

  // ---- Heartbeats -------------------------------------------------------------------

  lemma TimelineEnds(cps: seq<Checkpoint>, rate: nat)
    requires rate > 0 && StrictlySorted(cps)
    ensures (cps == []) == (Timeline(cps, rate) == [])
    ensures cps != [] ==>
              var t := Timeline(cps, rate);
              t[|t| - 1] == Checkpoint(FirstMs(cps[|cps| - 1].position, rate), cps[|cps| - 1].offset)
  {
    InMsSorted(cps, rate);
    CompactIsSorted(InMs(cps, rate));
    if cps == [] { assert InMs(cps, rate) == []; }
    hide FirstMs, Compact;
  }

  lemma TimelineGrows(cps: seq<Checkpoint>, c: Checkpoint, rate: nat)
    requires rate > 0 && StrictlySorted(cps)
    requires cps != [] ==> FirstMs(cps[|cps| - 1].position, rate) < FirstMs(c.position, rate)
    ensures Record(cps, c) == cps + [c]
    ensures Timeline(cps + [c], rate) == Timeline(cps, rate) + [Checkpoint(FirstMs(c.position, rate), c.offset)]
  {
    hide FirstMs;
    var ms := Checkpoint(FirstMs(c.position, rate), c.offset);
    TimelineEnds(cps, rate);
    assert InMs(cps + [c], rate) == InMs(cps, rate) + [ms];
    assert (InMs(cps, rate) + [ms])[..|cps|] == InMs(cps, rate);
  }

  lemma LastTurn(t: seq<Checkpoint>, c: Checkpoint, rate: nat)
    requires rate > 0
    ensures NeverTurnsBack(t + [c], rate) <==>
              && NeverTurnsBack(t, rate)
              && (c.position == 0 || KeepsTime(if t == [] then 0 else t[|t| - 1].offset, c.offset, c.position, rate))
  {
    hide KeepsTime;
    var all := t + [c];
    forall i | 0 <= i < |t| ensures Before(all, i) == Before(t, i) && all[i] == t[i] {
    }
    assert Before(all, |t|) == if t == [] then 0 else t[|t| - 1].offset;
    if NeverTurnsBack(all, rate) {
      assert all[|t|] == c;
      forall i | 0 <= i < |t|
        ensures t[i].position == 0 || KeepsTime(Before(t, i), t[i].offset, t[i].position, rate)
      {
        assert all[i].position == 0 || KeepsTime(Before(all, i), all[i].offset, all[i].position, rate);
      }
    }
  }

  /** A heartbeat that reaches the provider and moves on by at least a millisecond turns the clock
      back exactly when it takes more off the offset, in whole milliseconds, than one (unless the
      time before it was zero). */
  lemma HeartbeatReordersExactly<T>(c: Config, k: Track<T>, samples: nat, at: nat, rate: nat)
    requires c.Valid() && GatedOk(c, k) && rate > 0
    requires k.remote.live && at >= k.remote.lastActive + IDLE_THRESHOLD_MS
    requires FirstMs(k.remote.Position(), rate) < FirstMs(k.remote.Position() + samples, rate)
    ensures var r := k.remote;
            InOrder(KeepAliveIfIdle(r, InjectedAudio(samples), at), rate) <==>
              && InOrder(r, rate)
              && KeepsTime(r.netOffset, r.netOffset - samples, FirstMs(r.Position() + samples, rate), rate)
  {
    MidwayIsGated(k);
    hide Midway, GateOk, FirstMs, KeepsTime, MapperOk, TimesInOrder;
    var r := k.remote;
    var next := Checkpoint(r.Position() + samples, r.netOffset - samples);
    NextReorders(r.mapper.value, r.Position(), r.netOffset, next, rate);
    assert KeepAliveIfIdle(r, InjectedAudio(samples), at).mapper == Some(Record(r.mapper.value, next));
  }

  /** The same of any list of checkpoints and a next one at a later millisecond. */
  lemma NextReorders(cps: seq<Checkpoint>, position: nat, before: int, next: Checkpoint, rate: nat)
    requires rate > 0 && MapperOk(cps, position, before) && FirstMs(position, rate) < FirstMs(next.position, rate)
    ensures TimesInOrder(Record(cps, next), rate) <==>
              TimesInOrder(cps, rate) && KeepsTime(before, next.offset, FirstMs(next.position, rate), rate)
  {
    LastOffset(cps, position, before);
    SortedOf(cps, position, before);
    hide FirstMs, KeepsTime, TimesInOrder, NeverTurnsBack, Timeline, StrictlySorted, Record, MapperOk;
    if cps != [] { FirstMsMonotone(cps[|cps| - 1].position, position, rate); }
    TimelineGrows(cps, next, rate);
    TimelineEnds(cps, rate);
    LastTurn(Timeline(cps, rate), Checkpoint(FirstMs(next.position, rate), next.offset), rate);
    if next.position < position { FirstMsMonotone(next.position, position, rate); }
    CheckpointKeeps(cps, position, before, next.position, next.offset);
    SortedOf(Record(cps, next), next.position, next.offset);
    WallclockOrderExactly(cps, rate);
    WallclockOrderExactly(Record(cps, next), rate);
  }

  lemma SortedOf(cps: seq<Checkpoint>, position: nat, offset: int)
    requires MapperOk(cps, position, offset)
    ensures StrictlySorted(cps)
  {
  }

  lemma LastOffset(cps: seq<Checkpoint>, position: nat, offset: int)
    requires MapperOk(cps, position, offset)
    ensures offset == if cps == [] then 0 else cps[|cps| - 1].offset
    ensures cps != [] ==> cps[|cps| - 1].position <= position
  {
    assert Scan(cps, position) == offset;
  }

  // ---- Runs -------------------------------------------------------------------------

  /** An event that injects nothing, or a heartbeat that does not turn the clock back. */
  ghost predicate Tame<T>(r: Remote<T>, e: Event<T>, rate: nat)
    requires rate > 0
  {
    Injects(e) && r.live && e.at >= r.lastActive + IDLE_THRESHOLD_MS ==>
      var first := FirstMs(r.Position() + e.effect.samples, rate);
      FirstMs(r.Position(), rate) < first && KeepsTime(r.netOffset, r.netOffset - e.effect.samples, first, rate)
  }

  ghost predicate AllTame<T>(c: Config, loudness: Loudness<T>, k: Track<T>, events: seq<Event<T>>, rate: nat)
    requires c.Valid() && rate > 0
  {
    events == []
    || (var front := events[..|events| - 1];
        && AllTame(c, loudness, k, front, rate)
        && Tame(Run(c, loudness, k, front).remote, events[|events| - 1], rate))
  }

  lemma TameKeepsOrder<T>(c: Config, loudness: Loudness<T>, k: Track<T>, e: Event<T>, rate: nat)
    requires c.Valid() && GatedOk(c, k) && rate > 0 && Tame(k.remote, e, rate) && InOrder(k.remote, rate)
    ensures InOrder(Step(c, loudness, k, e).remote, rate)
  {
    MidwayIsGated(k);
    hide Midway, GateOk, InOrder, KeepsTime, FirstMs;
    if Injects(e) {
      if k.remote.live && e.at >= k.remote.lastActive + IDLE_THRESHOLD_MS {
        HeartbeatReordersExactly(c, k, e.effect.samples, e.at, rate);
      }
    } else {
      OnlyInjectionReorders(c, loudness, k, e, rate);
    }
  }

  /** Over any run, reconnects included: as long as no heartbeat turns the clock back when it is
      sent, transcript times are in order. */
  lemma {:induction false} TimesStayInOrder<T>(c: Config, loudness: Loudness<T>, live: bool, now: nat,
                                               events: seq<Event<T>>, rate: nat)
    requires c.Valid() && rate > 0 && AllTame(c, loudness, Start(live, true, now), events, rate)
    ensures InOrder(Run(c, loudness, Start(live, true, now), events).remote, rate)
  {
    if events == [] {
      assert Run(c, loudness, Start<T>(live, true, now), events).remote.mapper == Some([]);
      assert forall ms: nat :: Wallclock([], rate, ms) == ms;
    } else {
      hide Step, Tame, InOrder;
      var front := events[..|events| - 1];
      TimesStayInOrder(c, loudness, live, now, front, rate);
      RunKeeps(c, loudness, live, true, now, front);
      TameKeepsOrder(c, loudness, Run(c, loudness, Start(live, true, now), front), events[|events| - 1], rate);
    }
  }
}
