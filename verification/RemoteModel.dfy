/**
  The remote track of a live transcription (`RemoteGateState`,
  crates/app-service/src/live_transcription.rs:1066-1330): the silence gate, the provider-clock
  counters and the timestamp mapper together, as operations on a value.
*/
module RemoteModel {
  import opened Prelude
  import opened GateModel
  import opened MapperModel

  /** The keepalive is sent after this many idle milliseconds. */
  const IDLE_THRESHOLD_MS: nat := 5000

  datatype Remote<T> = Remote(
    live: bool, gate: Option<Gate<T>>, mapper: Option<seq<Checkpoint>>,
    samplesSent: nat, totalInjected: nat, netOffset: int, lastActive: nat)
  {
    /** The provider's own clock: it advances on real and on injected audio. */
    function Position(): nat {
      samplesSent + totalInjected
    }
  }

  datatype KeepAliveEffect = InjectedAudio(samples: nat) | ControlMessage | Noop | Failed

  function Fresh<T>(live: bool, gateEnabled: bool, now: nat): Remote<T> {
    Remote(live, if gateEnabled then Some(Gate(Silent, [], 0)) else None,
           if gateEnabled then Some([]) else None, 0, 0, 0, now)
  }

  /** A checkpoint at the current provider position, when there is a mapper. */
  function Checkpointed<T>(r: Remote<T>): Remote<T> {
    if r.mapper.None? then r
    else r.(mapper := Some(Record(r.mapper.value, Checkpoint(r.Position(), r.netOffset))))
  }

  /** A failing send still advances the counter, and ends the session. */
  function SendUnconditional<T>(r: Remote<T>, pcm: seq<T>, fails: bool): Remote<T> {
    if !r.live then r else r.(samplesSent := r.samplesSent + |pcm|, live := !fails)
  }

  function SendGated<T>(r: Remote<T>, pcm: seq<T>, fails: bool, now: nat): Remote<T> {
    Checkpointed(SendUnconditional(r, pcm, fails)).(lastActive := now)
  }

  function RecordDrop<T>(r: Remote<T>, count: nat): Remote<T> {
    Checkpointed(r.(netOffset := r.netOffset + count))
  }

  function Act<T>(r: Remote<T>, a: Action<T>, fails: bool, now: nat): Remote<T> {
    match a
    case Send(pcm) => SendGated(r, pcm, fails, now)
    case SendStitched(pcm) => SendGated(r, pcm, fails, now)
    case Drop(count) => RecordDrop(r, count)
  }

  /** All actions of one chunk; the send at index `failAt`, if there is one, fails. */
  function ActAll<T>(r: Remote<T>, actions: seq<Action<T>>, failAt: nat, now: nat): Remote<T> {
    if actions == [] then r
    else
      var n := |actions| - 1;
      Act(ActAll(r, actions[..n], failAt, now), actions[n], failAt == n, now)
  }

  function HandleChunk<T>(c: Config, loudness: Loudness<T>, r: Remote<T>, samples: seq<T>, failAt: nat,
                          now: nat): Remote<T>
    requires c.Valid()
  {
    if r.gate.None? then SendUnconditional(r, samples, failAt == 0)
    else
      var (g, actions) := Process(c, loudness, r.gate.value, samples);
      ActAll(r.(gate := Some(g)), actions, failAt, now)
  }

  function KeepAliveIfIdle<T>(r: Remote<T>, effect: KeepAliveEffect, now: nat): Remote<T> {
    if r.gate.None? || now < r.lastActive + IDLE_THRESHOLD_MS || !r.live then r
    else
      match effect
      case InjectedAudio(n) =>
        Checkpointed(r.(netOffset := r.netOffset - n, totalInjected := r.totalInjected + n)).(lastActive := now)
      case ControlMessage => r.(lastActive := now)
      case Noop => r.(lastActive := now)
      case Failed => r.(live := false)
  }

  function CarryOver<T>(r: Remote<T>, outage: nat): int {
    r.Position() + r.netOffset + outage
  }

  /** A new session is installed; `outage` is the length of the outage in samples. */
  function Reconnect<T>(r: Remote<T>, outage: nat, now: nat): Remote<T> {
    var carry := CarryOver(r, outage);
    r.(live := true, samplesSent := 0, totalInjected := 0, lastActive := now,
       mapper := if r.mapper.None? then None else Some(Record([], Checkpoint(0, carry))),
       netOffset := if r.mapper.None? then r.netOffset else carry)
  }
}
