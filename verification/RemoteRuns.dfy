/**
  Two runs of the remote track, with the gate's defaults, in which timestamps go wrong: over an
  outage with audio in the pre-roll, and after audio was injected.
*/
module RemoteRuns {
  import opened Prelude
  import opened GateModel
  import opened MapperModel
  import opened RemoteModel
  import opened RemoteProofs

  const WINDOW: nat := 1600

  /** 100 ms of silence, and of speech. */
  const QUIET: seq<int> := seq(WINDOW, i => 0)
  const LOUD: seq<int> := seq(WINDOW, i => 1)

  function FullScale(w: seq<int>): real {
    if w != [] && w[0] == 1 then 1.0 else 0.0
  }

  lemma Defaults()
    ensures DEFAULTS == Config(WINDOW, 16000, 3200, 0.02, 0.01)
  {
  }

  // ---- One window -------------------------------------------------------------------

  lemma CoalesceOne<T>(v: Verdict<T>)
    ensures Coalesce([v]) == AppendVerdict([], v)
  {
    assert [v][..0] == [];
    assert Coalesce([v][..0]) == [];
  }

  lemma OneWindow<T>(c: Config, loudness: Loudness<T>, g: Gate<T>, w: seq<T>)
    requires c.Valid() && |w| == c.windowSamples
    ensures Walk(c, loudness, g, w).0 == WindowStep(c, loudness, g, w).0
    ensures Walk(c, loudness, g, w).1 == [WindowStep(c, loudness, g, w).1]
  {
    hide WindowStep;
    assert w[..|w|] == w && w[|w|..] == [];
    var (g', v) := WindowStep(c, loudness, g, w);
    assert Walk(c, loudness, g', []) == (g', []) && [v] + [] == [v];
  }

  lemma QuietWindow()
    ensures Process(DEFAULTS, FullScale, Gate(Silent, [], 0), QUIET).0 == Gate(Silent, QUIET, WINDOW)
    ensures Process(DEFAULTS, FullScale, Gate(Silent, [], 0), QUIET).1 == []
  {
    Defaults();
    var g: Gate<int> := Gate(Silent, [], 0);
    var hold: Verdict<int> := Hold(0);
    assert [] + QUIET == QUIET && QUIET[0..] == QUIET && FullScale(QUIET) == 0.0;
    assert WindowStep(DEFAULTS, FullScale, g, QUIET) == (Gate(Silent, QUIET, WINDOW), hold);
    OneWindow(DEFAULTS, FullScale, g, QUIET);
    CoalesceOne(hold);
  }

  lemma LoudWindow(preRoll: seq<int>, clock: nat)
    ensures Process(DEFAULTS, FullScale, Gate(Silent, preRoll, clock), LOUD).0 == Gate(Speaking, [], clock + WINDOW)
    ensures Process(DEFAULTS, FullScale, Gate(Silent, preRoll, clock), LOUD).1 == [SendStitched(preRoll + LOUD)]
  {
    Defaults();
    var g := Gate(Silent, preRoll, clock);
    var stitch: Verdict<int> := Stitch(preRoll + LOUD);
    assert FullScale(LOUD) == 1.0;
    assert WindowStep(DEFAULTS, FullScale, g, LOUD) == (Gate(Speaking, [], clock + WINDOW), stitch);
    OneWindow(DEFAULTS, FullScale, g, LOUD);
    CoalesceOne(stitch);
    assert AppendVerdict([], stitch) == [SendStitched(preRoll + LOUD)];
  }

  // ---- One chunk --------------------------------------------------------------------

  lemma OneAction<T>(k: Track<T>, a: Action<T>, failAt: nat, now: nat)
    ensures ActAllTrack(k, [a], failAt, now) == ActTrack(k, a, failAt == 0, now)
  {
    assert [a][..0] == [];
    assert ActAllTrack(k, [a][..0], failAt, now) == k;
  }

  lemma QuietChunk(k: Track<int>)
    requires k == Start(true, true, 0)
    ensures var k' := Step(DEFAULTS, FullScale, k, Chunk(QUIET, 9, 0));
            && k'.remote == k.remote.(gate := Some(Gate(Silent, QUIET, WINDOW)))
            && k'.trace == k.trace.(pending := QUIET, timeline := Cells(QUIET))
  {
    QuietWindow();
    hide Process;
    assert [] + QUIET == QUIET && [] + Cells(QUIET) == Cells(QUIET);
  }

  lemma LoudChunk(k: Track<int>, preRoll: seq<int>, clock: nat)
    requires k.remote.live && k.remote.gate == Some(Gate(Silent, preRoll, clock)) && k.trace.pending == preRoll
    ensures var k' := Step(DEFAULTS, FullScale, k, Chunk(LOUD, 9, 0));
            && k'.remote == SendGated(k.remote.(gate := Some(Gate(Speaking, [], clock + WINDOW))), preRoll + LOUD,
                                      false, 0)
            && k'.trace.accounted == k.trace.accounted + Cells(preRoll + LOUD)
            && k'.trace.pending == [] && k'.trace.timeline == k.trace.timeline + Cells(LOUD)
  {
    LoudWindow(preRoll, clock);
    hide Process, SendGated;
    var stitched: Action<int> := SendStitched(preRoll + LOUD);
    OneAction(Track(k.remote.(gate := Some(Gate(Speaking, [], clock + WINDOW))), Fed(k.trace, LOUD)), stitched, 9, 0);
  }

  lemma Outage(k: Track<int>, outage: nat)
    requires k.trace.accounted == []
    ensures var k' := Step(DEFAULTS, FullScale, Step(DEFAULTS, FullScale, k, Disconnected), Reconnected(outage, 0));
            && k'.remote.live && k'.remote.gate == k.remote.gate && k'.trace.pending == k.trace.pending
            && k'.trace.accounted == Silences(outage) && k'.trace.timeline == k.trace.timeline + Silences(outage)
  {
    assert [] + Silences<int>(outage) == Silences(outage);
  }

  // ---- Runs -------------------------------------------------------------------------

  lemma RunOfTwo<T>(c: Config, loudness: Loudness<T>, k: Track<T>, e0: Event<T>, e1: Event<T>)
    requires c.Valid()
    ensures Run(c, loudness, k, [e0, e1]) == Step(c, loudness, Step(c, loudness, k, e0), e1)
  {
    hide Step;
    assert [e0, e1][..1] == [e0] && [e0][..0] == [];
    assert Run(c, loudness, k, []) == k;
    assert Run(c, loudness, k, [e0]) == Step(c, loudness, k, e0);
  }

  lemma RunOfFour<T>(c: Config, loudness: Loudness<T>, k: Track<T>, e0: Event<T>, e1: Event<T>, e2: Event<T>,
                     e3: Event<T>)
    requires c.Valid()
    ensures Run(c, loudness, k, [e0, e1, e2, e3]) ==
              Step(c, loudness, Step(c, loudness, Step(c, loudness, Step(c, loudness, k, e0), e1), e2), e3)
  {
    hide Step;
    RunOfTwo(c, loudness, k, e0, e1);
    assert [e0, e1, e2, e3][..3] == [e0, e1, e2] && [e0, e1, e2][..2] == [e0, e1];
    assert Run(c, loudness, k, [e0, e1, e2]) == Step(c, loudness, Run(c, loudness, k, [e0, e1]), e2);
  }

  /** 100 quiet milliseconds are held, the session drops and comes back after five seconds, and
      speech follows. The mapper places the held audio after the outage; it came before it. */
  lemma PreRollMappedLate()
    ensures exists events: seq<Event<int>> ::
              var t := Run(DEFAULTS, FullScale, Start(true, true, 0), events).trace;
              && t.Mapped() == Silences(80000) + Cells(QUIET + LOUD)
              && t.timeline == Cells(QUIET) + Silences(80000) + Cells(LOUD)
  {
    hide Process, Run, Step, QUIET, LOUD;
    var e0, e1, e2, e3 := Chunk(QUIET, 9, 0), Disconnected, Reconnected(80000, 0), Chunk(LOUD, 9, 0);
    var k0 := Start<int>(true, true, 0);
    var k1 := Step(DEFAULTS, FullScale, k0, e0);
    var k2 := Step(DEFAULTS, FullScale, Step(DEFAULTS, FullScale, k1, e1), e2);
    var k3 := Step(DEFAULTS, FullScale, k2, e3);
    QuietChunk(k0);
    Outage(k1, 80000);
    LoudChunk(k2, QUIET, WINDOW);
    RunOfFour(DEFAULTS, FullScale, k0, e0, e1, e2, e3);
    assert k3.trace.Mapped() == Silences(80000) + Cells(QUIET + LOUD);
    assert k3.trace.timeline == Cells(QUIET) + Silences(80000) + Cells(LOUD);
  }

  /** 100 ms of speech are sent, and after five idle seconds a heartbeat of 100 ms is injected. The
      provider time 200 ms maps to 100 ms, the time before it to 199 ms. */
  lemma InjectionReordersTime()
    ensures exists events: seq<Event<int>> ::
              var r := Run(DEFAULTS, FullScale, Start(true, true, 0), events).remote;
              && r.mapper.Some?
              && Wallclock(r.mapper.value, 16000, 199) == 199 && Wallclock(r.mapper.value, 16000, 200) == 100
  {
    hide Process, Run, LOUD;
    var e0, e1 := Chunk(LOUD, 9, 0), KeepAlive(InjectedAudio(1600), 5000);
    var k0 := Start<int>(true, true, 0);
    LoudFirst(k0);
    var k1 := Step(DEFAULTS, FullScale, k0, e0);
    HeartbeatAfter(k1.remote);
    var k2 := Step(DEFAULTS, FullScale, k1, e1);
    RunOfTwo(DEFAULTS, FullScale, k0, e0, e1);
    LateMillisecond();
    assert Run(DEFAULTS, FullScale, k0, [e0, e1]).remote == k2.remote;
  }

  lemma LoudFirst(k: Track<int>)
    requires k == Start(true, true, 0)
    ensures var r := Step(DEFAULTS, FullScale, k, Chunk(LOUD, 9, 0)).remote;
            && r.live && r.gate.Some? && r.mapper == Some([Checkpoint(WINDOW, 0)])
            && r.samplesSent == WINDOW && r.totalInjected == 0 && r.netOffset == 0 && r.lastActive == 0
  {
    LoudChunk(k, [], 0);
    assert |[] + LOUD| == WINDOW;
    assert Record([], Checkpoint(WINDOW, 0)) == [Checkpoint(WINDOW, 0)];
  }

  lemma HeartbeatAfter(r: Remote<int>)
    requires r.live && r.gate.Some? && r.mapper == Some([Checkpoint(WINDOW, 0)])
    requires r.samplesSent == WINDOW && r.totalInjected == 0 && r.netOffset == 0 && r.lastActive == 0
    ensures KeepAliveIfIdle(r, InjectedAudio(1600), 5000).mapper == Some([Checkpoint(1600, 0), Checkpoint(3200, -1600)])
  {
    var a, b := Checkpoint(WINDOW, 0), Checkpoint(3200, -1600);
    assert Record([a], b) == [a, b];
  }

  lemma LateMillisecond()
    ensures var cps := [Checkpoint(1600, 0), Checkpoint(3200, -1600)];
            Wallclock(cps, 16000, 199) == 199 && Wallclock(cps, 16000, 200) == 100
  {
    var cps := [Checkpoint(1600, 0), Checkpoint(3200, -1600)];
    BoundaryScans(cps, 3184, 1);
    BoundaryScans(cps, 3200, 2);
    assert MsToSamples(199, 16000) == 3184 && MsToSamples(200, 16000) == 3200;
    assert SignedSamplesToMs(-1600, 16000) == -100 && SignedSamplesToMs(0, 16000) == 0;
  }
}
