/** The loop of a live transcription as objects: reconnect states, the table and the arms. */
module GapLedger {
  import opened Prelude
  import opened GapModel

  class ReconnectState {
    var attempt: nat
    var retryAt: Option<nat>
    var disconnectedAt: Option<nat>
    var inFlight: bool
    var openGapId: Option<nat>
    var openGapStartMs: Option<nat>

    ghost function View(): Reconnect
      reads this
    {
      Reconnect(attempt, retryAt, disconnectedAt, inFlight, openGapId, openGapStartMs)
    }

    constructor ()
      ensures View() == HEALTHY
    {
      attempt, retryAt, disconnectedAt, inFlight := 0, None, None, false;
      openGapId, openGapStartMs := None, None;
    }

    method NoteDisconnect(now: nat)
      modifies this
      ensures View() == GapModel.NoteDisconnect(old(View()), now)
    {
      if disconnectedAt.None? {
        disconnectedAt := Some(now);
      }
      retryAt := Some(now + ReconnectBackoff(attempt));
      attempt := attempt + 1;
    }

    method Reset()
      modifies this
      ensures View() == GapModel.Reset(old(View()))
    {
      var gapId, startMs := openGapId, openGapStartMs;
      attempt, retryAt, disconnectedAt, inFlight := 0, None, None, false;
      openGapId, openGapStartMs := gapId, startMs;
    }

    method AbortInFlight()
      modifies this`inFlight
      ensures View() == old(View()).(inFlight := false)
    {
      inFlight := false;
    }
  }

  /** The `transcription_gaps` table. */
  class SessionStore {
    var rows: map<nat, Gap>
    var nextRow: nat

    constructor ()
      ensures rows == map[] && nextRow == 0
    {
      rows, nextRow := map[], 0;
    }

    method RecordGapStart(track: TrackKind, startMs: nat) returns (id: nat)
      modifies this
      ensures id == old(nextRow) && nextRow == id + 1 && rows == old(rows)[id := Gap(track, startMs, None)]
    {
      id := nextRow;
      rows, nextRow := rows[id := Gap(track, startMs, None)], nextRow + 1;
    }

    method RecordGapEnd(id: nat, endMs: nat)
      modifies this`rows
      ensures rows == if id in old(rows) then old(rows)[id := old(rows)[id].(endMs := Some(endMs))] else old(rows)
    {
      if id in rows {
        rows := rows[id := rows[id].(endMs := Some(endMs))];
      }
    }

    method DiscardGap(id: nat)
      modifies this`rows
      ensures rows == old(rows) - {id}
    {
      rows := rows - {id};
    }
  }

  class LiveTranscription {
    var audioOpen: bool
    var now: nat
    var selfSession: Option<nat>
    var selfEvents: bool
    const selfReconnect: ReconnectState
    var remoteSession: Option<nat>
    var remoteEvents: bool
    const remoteReconnect: ReconnectState
    const gateEnabled: bool
    const store: SessionStore
    var nextSession: nat
    var finalized: seq<nat>

    ghost function Repr(): set<object>
    {
      {this, selfReconnect, remoteReconnect, store}
    }

    ghost predicate Valid()
    {
      selfReconnect != remoteReconnect
    }

    ghost function View(): Live
      reads Repr()
    {
      Live(audioOpen, now, Slot(selfSession, selfEvents, selfReconnect.View()),
           Slot(remoteSession, remoteEvents, remoteReconnect.View()), gateEnabled,
           store.rows, store.nextRow, nextSession, finalized)
    }

    constructor (selfUp: bool, remoteUp: bool, gateEnabled: bool)
      ensures Valid() && View() == Start(selfUp, remoteUp, gateEnabled)
      ensures fresh(Repr())
    {
      audioOpen, now := true, 0;
      selfSession, selfEvents := if selfUp then Some(0) else None, selfUp;
      remoteSession, remoteEvents := if remoteUp then Some(1) else None, remoteUp;
      nextSession, finalized := 2, [];
      this.gateEnabled := gateEnabled;
      selfReconnect := new ReconnectState();
      remoteReconnect := new ReconnectState();
      store := new SessionStore();
    }

    function ReconnectOf(k: TrackKind): ReconnectState
    {
      if k.SelfMic? then selfReconnect else remoteReconnect
    }

    method OpenGap(k: TrackKind)
      requires Valid()
      modifies ReconnectOf(k), store
      ensures View() == GapModel.OpenGap(old(View()), k)
    {
      var startMs := now;
      var id := store.RecordGapStart(k, startMs);
      var reconnect := ReconnectOf(k);
      reconnect.openGapId, reconnect.openGapStartMs := Some(id), Some(startMs);
    }

    method CloseOpenGap(k: TrackKind)
      requires Valid()
      modifies ReconnectOf(k), store
      ensures View() == GapModel.CloseOpenGap(old(View()), k)
    {
      var reconnect := ReconnectOf(k);
      var gapId, startMs := reconnect.openGapId, reconnect.openGapStartMs;
      reconnect.openGapId, reconnect.openGapStartMs := None, None;
      if gapId.None? || startMs.None? {
        return;
      }
      var endMs := now;
      if (if endMs >= startMs.value then endMs - startMs.value else 0) < MIN_RECORDED_GAP_MS {
        store.DiscardGap(gapId.value);
      } else {
        store.RecordGapEnd(gapId.value, endMs);
      }
    }

    method SetSession(k: TrackKind, session: Option<nat>)
      modifies this`selfSession, this`remoteSession
      ensures View() == old(View()).With(k, old(View()).At(k).(session := session))
    {
      if k.SelfMic? {
        selfSession := session;
      } else {
        remoteSession := session;
      }
    }

    /** Clears the session, then opens a gap and arms a retry or gives up, once an outage. */
    method NoteTrackDisconnect(k: TrackKind, retryable: bool)
      requires Valid()
      modifies this`selfSession, this`remoteSession, ReconnectOf(k), store
      ensures View() == Disconnect(old(View()), k, retryable)
    {
      SetSession(k, None);
      var reconnect := ReconnectOf(k);
      if reconnect.retryAt.Some? || reconnect.inFlight {
        return;
      }
      OpenGap(k);
      if retryable {
        reconnect.NoteDisconnect(now);
      } else {
        reconnect.Reset();
      }
    }

    method NoteFailure(k: TrackKind, failure: Option<bool>)
      requires Valid()
      modifies this`selfSession, this`remoteSession, ReconnectOf(k), store
      ensures View() == Fails(old(View()), k, failure)
    {
      var session := if k.SelfMic? then selfSession else remoteSession;
      if session.Some? && failure.Some? {
        NoteTrackDisconnect(k, failure.value);
      }
    }

    method FinalizeSession(k: TrackKind)
      modifies this`selfSession, this`remoteSession, this`finalized
      ensures View() == Finalize(old(View()), k)
    {
      var session := if k.SelfMic? then selfSession else remoteSession;
      if session.Some? {
        SetSession(k, None);
        finalized := finalized + [session.value];
      }
    }

    method CloseAudio()
      requires Valid()
      modifies Repr()
      ensures View() == GapModel.CloseAudio(old(View()))
    {
      hide GapModel.CloseOpenGap, Finalize;
      audioOpen := false;
      selfReconnect.AbortInFlight();
      remoteReconnect.AbortInFlight();
      CloseOpenGap(SelfMic);
      CloseOpenGap(RemoteAudio);
      FinalizeSession(SelfMic);
      FinalizeSession(RemoteAudio);
    }

    method ApplyReconnectResult(k: TrackKind, connected: bool)
      requires Valid()
      modifies Repr()
      ensures View() == ReconnectResult(old(View()), k, connected)
    {
      hide Connected, GapModel.NoteDisconnect;
      var reconnect := ReconnectOf(k);
      reconnect.AbortInFlight();
      if connected {
        InstallSession(k);
      } else {
        reconnect.NoteDisconnect(now);
      }
    }

    /** The success branch of a finished attempt. */
    method InstallSession(k: TrackKind)
      requires Valid()
      modifies Repr()
      ensures View() == Connected(old(View()), k)
    {
      hide GapModel.CloseOpenGap;
      SetSession(k, Some(nextSession));
      if k.SelfMic? {
        selfEvents := true;
      } else {
        remoteEvents := true;
      }
      nextSession := nextSession + 1;
      CloseOpenGap(k);
      ReconnectOf(k).Reset();
    }

    /** One arm of the loop. */
    method TakeTurn(e: Event, at: nat)
      requires Valid()
      modifies Repr()
      ensures View() == Turn(old(View()), e, at)
    {
      hide Fails, GapModel.CloseAudio, ReconnectResult;
      now := at;
      match e {
        case Audio(k, failure) => NoteFailure(k, failure);
        case AudioClosed => CloseAudio();
        case KeepAlive(failure) => NoteFailure(RemoteAudio, failure);
        case RetryTimer(k) =>
          var reconnect := ReconnectOf(k);
          reconnect.retryAt, reconnect.inFlight := None, true;
        case ReconnectDone(k, connected) => ApplyReconnectResult(k, connected);
        case TrackEvent(k, failure) => NoteFailure(k, failure);
        case EventsClosed(k) =>
          if k.SelfMic? {
            selfEvents := false;
          } else {
            remoteEvents := false;
          }
          NoteFailure(k, Some(true));
      }
    }

    /** Which arms are polled, and whether a retry timer is due. */
    method CanTake(e: Event, at: nat) returns (yes: bool)
      requires Valid()
      ensures yes == Enabled(View(), e, at)
    {
      if at < now {
        return false;
      }
      match e {
        case Audio(_, _) => yes := audioOpen;
        case AudioClosed => yes := audioOpen;
        case KeepAlive(_) => yes := remoteSession.Some? && gateEnabled;
        case RetryTimer(k) =>
          var r := ReconnectOf(k);
          yes := audioOpen && r.retryAt.Some? && !r.inFlight && r.retryAt.value <= at;
        case ReconnectDone(k, _) => yes := ReconnectOf(k).inFlight;
        case TrackEvent(k, _) => yes := if k.SelfMic? then selfEvents else remoteEvents;
        case EventsClosed(k) => yes := if k.SelfMic? then selfEvents else remoteEvents;
      }
    }

    /** The loop itself, over whatever happens: it takes the turns its arms are polled for, until
        the audio is closed and both event channels are gone. What it takes is a possible run. */
    method RunLoop(script: seq<Entry>)
      requires Valid()
      modifies Repr()
      ensures View() == Run(old(View()), Taken(old(View()), script))
      ensures Possible(old(View()), Taken(old(View()), script))
    {
      hide Turn, Enabled;
      ghost var before := View();
      var i := 0;
      while (audioOpen || selfEvents || remoteEvents) && i < |script|
        invariant i <= |script| && View() == Run(before, Taken(before, script[..i]))
      {
        var entry := script[i];
        ghost var log := Taken(before, script[..i]);
        assert script[..i + 1][..i] == script[..i] && (log + [entry])[..|log|] == log;
        var polled := CanTake(entry.event, entry.at);
        if polled {
          TakeTurn(entry.event, entry.at);
        }
        i := i + 1;
      }
      assert script[..|script|] == script;
      if i < |script| {
        NothingTaken(before, script, i);
      }
      TakenIsPossible(before, script);
    }
  }
}
