/** The remote track as an object, holding a silence gate and a timestamp mapper of its own. */
module RemoteTracks {
  import opened Prelude
  import opened GateModel
  import opened MapperModel
  import opened RemoteModel
  import opened SilenceGates
  import opened TimestampMappers

  class RemoteGateState<T> {
    const config: Config
    const loudness: Loudness<T>
    const targetRateHz: nat
    var sessionLive: bool
    const gate: SilenceGate?<T>
    var mapper: TimestampMapper?
    var samplesSent: nat
    var totalInjected: nat
    var netOffset: int
    var lastActive: nat

    ghost function View(): Remote<T>
      reads this, gate, mapper
    {
      Remote(sessionLive, if gate == null then None else Some(gate.View()),
             if mapper == null then None else Some(mapper.checkpoints),
             samplesSent, totalInjected, netOffset, lastActive)
    }

    ghost predicate Valid()
      reads this, gate, mapper
    {
      && config.Valid()
      && (gate == null) == (mapper == null)
      && (gate != null ==> gate.Valid() && gate.config == config && gate.loudness == loudness)
      && MapperFits()
    }

    ghost predicate MapperFits()
      reads this, mapper
    {
      mapper != null ==>
        && mapper.sampleRateHz == targetRateHz
        && StrictlySorted(mapper.checkpoints)
        && (mapper.checkpoints != [] ==>
              mapper.checkpoints[|mapper.checkpoints| - 1].position <= samplesSent + totalInjected)
    }

    constructor (session: bool, silenceGateEnabled: bool, targetRateHz: nat, config: Config, loudness: Loudness<T>,
                 now: nat)
      requires config.Valid()
      ensures Valid() && View() == Fresh(session, silenceGateEnabled, now)
      ensures gate != null ==> fresh(gate)
      ensures mapper != null ==> fresh(mapper)
    {
      this.config, this.loudness, this.targetRateHz := config, loudness, targetRateHz;
      sessionLive := session;
      samplesSent, totalInjected, netOffset, lastActive := 0, 0, 0, now;
      if silenceGateEnabled {
        var g := new SilenceGate(config, loudness);
        var m := new TimestampMapper(targetRateHz);
        gate, mapper := g, m;
      } else {
        gate, mapper := null, null;
      }
    }

    method RecordCheckpoint()
      requires MapperFits()
      modifies mapper
      ensures MapperFits()
      ensures mapper != null ==>
                mapper.checkpoints == Record(old(mapper.checkpoints),
                                             Checkpoint(samplesSent + totalInjected, netOffset))
    {
      if mapper != null {
        mapper.RecordCheckpoint(samplesSent + totalInjected, netOffset);
        RecordKeepsSorted(old(mapper.checkpoints), Checkpoint(samplesSent + totalInjected, netOffset));
      }
    }

    method SendUnconditional(pcm: seq<T>, fails: bool)
      requires Valid()
      modifies this`samplesSent, this`sessionLive
      ensures Valid() && View() == RemoteModel.SendUnconditional(old(View()), pcm, fails)
    {
      if !sessionLive {
        return;
      }
      samplesSent := samplesSent + |pcm|;
      if fails {
        NoteDisconnect();
      }
    }

    method SendGated(pcm: seq<T>, fails: bool, now: nat)
      requires Valid()
      modifies this`samplesSent, this`sessionLive, this`lastActive, mapper
      ensures Valid() && View() == RemoteModel.SendGated(old(View()), pcm, fails, now)
    {
      SendUnconditional(pcm, fails);
      RecordCheckpoint();
      lastActive := now;
    }

    method RecordDrop(count: nat)
      requires Valid()
      modifies this`netOffset, mapper
      ensures Valid() && View() == RemoteModel.RecordDrop(old(View()), count)
    {
      netOffset := netOffset + count;
      RecordCheckpoint();
    }

    /** Routes one chunk; `failAt` is the index of the action whose send the provider refuses. */
    method HandleChunk(resampled: seq<T>, failAt: nat, now: nat)
      requires Valid()
      modifies this, gate, mapper
      ensures Valid() && mapper == old(mapper)
      ensures View() == RemoteModel.HandleChunk(config, loudness, old(View()), resampled, failAt, now)
    {
      hide GateModel.Process, RemoteModel.Act;
      if gate == null {
        SendUnconditional(resampled, failAt == 0);
        return;
      }
      ghost var before := View();
      var actions := gate.Process(resampled);
      ghost var fed := before.(gate := Some(gate.View()));
      assert View() == fed;
      for i := 0 to |actions|
        invariant Valid() && mapper == old(mapper)
        invariant View() == ActAll(fed, actions[..i], failAt, now)
      {
        ghost var r := View();
        assert actions[..i + 1][..i] == actions[..i];
        match actions[i] {
          case Send(pcm) => SendGated(pcm, failAt == i, now);
          case SendStitched(pcm) => SendGated(pcm, failAt == i, now);
          case Drop(count) => RecordDrop(count);
        }
        ActOf(r, actions[i], failAt == i, now);
      }
      assert actions[..|actions|] == actions;
    }

    method KeepAliveIfIdle(effect: KeepAliveEffect, now: nat)
      requires Valid()
      modifies this, mapper
      ensures Valid() && mapper == old(mapper)
      ensures View() == RemoteModel.KeepAliveIfIdle(old(View()), effect, now)
    {
      if gate == null || now < lastActive + IDLE_THRESHOLD_MS {
        return;
      }
      if !sessionLive {
        return;
      }
      match effect {
        case InjectedAudio(samples) =>
          netOffset := netOffset - samples;
          totalInjected := totalInjected + samples;
          RecordCheckpoint();
        case ControlMessage =>
        case Noop =>
        case Failed =>
          NoteDisconnect();
          return;
      }
      lastActive := now;
    }

    method NoteDisconnect()
      modifies this`sessionLive
      ensures !sessionLive
    {
      sessionLive := false;
    }

    /** A fresh mapper with one checkpoint that carries the old session and the outage over. */
    method ApplyReconnectOffset(outageSamples: nat, now: nat)
      requires Valid()
      modifies this
      ensures Valid() && View() == Reconnect(old(View()), outageSamples, now)
      ensures mapper != null ==> fresh(mapper)
    {
      sessionLive := true;
      if mapper != null {
        var carryOver := samplesSent + totalInjected + netOffset + outageSamples;
        var freshMapper := new TimestampMapper(targetRateHz);
        freshMapper.RecordCheckpoint(0, carryOver);
        mapper := freshMapper;
        netOffset := carryOver;
      }
      samplesSent := 0;
      totalInjected := 0;
      lastActive := now;
    }
  }

  lemma ActOf<T>(r: Remote<T>, a: Action<T>, fails: bool, now: nat)
    ensures Act(r, a, fails, now) ==
              match a
              case Send(pcm) => SendGated(r, pcm, fails, now)
              case SendStitched(pcm) => SendGated(r, pcm, fails, now)
              case Drop(count) => RecordDrop(r, count)
  {
  }
}
