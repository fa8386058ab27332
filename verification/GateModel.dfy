/**
  The silence gate (crates/app-service/src/silence_gate.rs).

  Audio is cut into windows; a hysteresis state machine decides for each window whether it is
  sent, stitched to the pre-roll buffer and sent, or held back. The loudness of a window is an
  uninterpreted function of its samples. Samples have an arbitrary type, so that instantiating
  it with positions turns every statement about samples into one about positions.
*/
module GateModel {
  import opened Prelude

  type Loudness<!T> = seq<T> -> real

  /** Tunables in samples, as the constructor derives them from milliseconds. */
  datatype Config = Config(
    windowSamples: nat, hangoverSamples: nat, preRollCapacity: nat, speakingLevel: real, silentLevel: real)
  {
    predicate Valid() {
      windowSamples > 0
    }
  }

  function FromMs(sampleRateHz: nat, vadWindowMs: nat, hangoverMs: nat, preRollMs: nat,
                  speakingLevel: real, silentLevel: real): (c: Config)
    ensures c.Valid()
  {
    var window := MsToSamples(vadWindowMs, sampleRateHz);
    Config(if window == 0 then 1 else window, MsToSamples(hangoverMs, sampleRateHz),
           MsToSamples(preRollMs, sampleRateHz), speakingLevel, silentLevel)
  }

  /** The defaults of the program: 16 kHz, windows of 100 ms, a hangover of one second, 200 ms of
      pre-roll. */
  const DEFAULTS: Config := FromMs(16000, 100, 1000, 200, 0.02, 0.01)

  datatype VadState = Speaking | Hangover(since: nat) | Silent

  datatype Gate<T> = Gate(state: VadState, preRoll: seq<T>, clock: nat)

  datatype Action<T> = Send(samples: seq<T>) | SendStitched(samples: seq<T>) | Drop(count: nat)

  /** What one window resolves to. `Hold` says how many samples fell out of the pre-roll. */
  datatype Verdict<T> = Pass(window: seq<T>) | Stitch(buffer: seq<T>) | Hold(evicted: nat)

  // ---- One window -------------------------------------------------------------------

  function NextState(state: VadState, level: real, clock: nat, c: Config): VadState {
    match state
    case Speaking => if level < c.silentLevel then Hangover(clock) else Speaking
    case Hangover(since) =>
      if level >= c.speakingLevel then Speaking
      else if (if clock >= since then clock - since else 0) >= c.hangoverSamples then Silent
      else Hangover(since)
    case Silent => if level >= c.speakingLevel then Speaking else Silent
  }

  function Evicted<T>(preRoll: seq<T>, window: seq<T>, capacity: nat): nat {
    if |preRoll| + |window| <= capacity then 0 else |preRoll| + |window| - capacity
  }

  function PushPreRoll<T>(preRoll: seq<T>, window: seq<T>, capacity: nat): seq<T> {
    var n := Evicted(preRoll, window, capacity);
    if capacity == 0 then preRoll else (preRoll + window)[n..]
  }

  function WindowStep<T>(c: Config, loudness: Loudness<T>, g: Gate<T>, window: seq<T>): (Gate<T>, Verdict<T>) {
    var clock := g.clock + |window|;
    var state := NextState(g.state, loudness(window), clock, c);
    if g.state.Silent? && state.Speaking? then
      (Gate(state, [], clock), Stitch(g.preRoll + window))
    else if state.Silent? then
      var n := if c.preRollCapacity == 0 then |window| else Evicted(g.preRoll, window, c.preRollCapacity);
      (Gate(state, PushPreRoll(g.preRoll, window, c.preRollCapacity), clock), Hold(n))
    else
      (Gate(state, g.preRoll, clock), Pass(window))
  }

  // ---- One push ---------------------------------------------------------------------

  function WindowEnd<T>(samples: seq<T>, c: Config): nat {
    if |samples| <= c.windowSamples then |samples| else c.windowSamples
  }

  function Walk<T>(c: Config, loudness: Loudness<T>, g: Gate<T>, samples: seq<T>): (Gate<T>, seq<Verdict<T>>)
    requires c.Valid()
    decreases |samples|
  {
    if samples == [] then (g, [])
    else
      var end := WindowEnd(samples, c);
      var (g1, verdict) := WindowStep(c, loudness, g, samples[..end]);
      var (g2, rest) := Walk(c, loudness, g1, samples[end..]);
      (g2, [verdict] + rest)
  }

  /** Adds one action, merging it into the last one when both send, or both drop. */
  function Append<T>(actions: seq<Action<T>>, a: Action<T>): seq<Action<T>> {
    if actions == [] then [a]
    else
      var n := |actions| - 1;
      match (actions[n], a)
      case (Send(x), Send(y)) => actions[..n] + [Send(x + y)]
      case (Drop(x), Drop(y)) => actions[..n] + [Drop(x + y)]
      case _ => actions + [a]
  }

  function AppendVerdict<T>(actions: seq<Action<T>>, v: Verdict<T>): seq<Action<T>> {
    match v
    case Pass(window) => Append(actions, Send(window))
    case Stitch(buffer) => actions + [SendStitched(buffer)]
    case Hold(n) => if n == 0 then actions else Append(actions, Drop(n))
  }

  /** The actions of a list of verdicts, adjacent sends and adjacent drops merged. */
  function Coalesce<T>(verdicts: seq<Verdict<T>>): seq<Action<T>> {
    if verdicts == [] then []
    else AppendVerdict(Coalesce(verdicts[..|verdicts| - 1]), verdicts[|verdicts| - 1])
  }

  function Process<T>(c: Config, loudness: Loudness<T>, g: Gate<T>, samples: seq<T>): (Gate<T>, seq<Action<T>>)
    requires c.Valid()
  {
    var (g', verdicts) := Walk(c, loudness, g, samples);
    (g', Coalesce(verdicts))
  }

  /** What holds between pushes. */
  ghost predicate GateOk<T>(c: Config, g: Gate<T>) {
    && |g.preRoll| <= c.preRollCapacity
    && (!g.state.Silent? ==> g.preRoll == [])
    && (g.state.Hangover? ==> g.state.since <= g.clock)
  }
}
