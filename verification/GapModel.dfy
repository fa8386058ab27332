/**
  Faults of a live transcription (crates/app-service/src/live_transcription.rs): per track a
  session that can drop, a backoff that reconnects it, and a table of outages. One `Turn` is one
  arm of the `select!` loop (lines 832-1055). The clock is in milliseconds since the recording
  began; store calls succeed.
*/
module GapModel {
  import opened Prelude

  const MIN_RECORDED_GAP_MS: nat := 1000

  datatype TrackKind = SelfMic | RemoteAudio

  datatype Reconnect = Reconnect(
    attempt: nat, retryAt: Option<nat>, disconnectedAt: Option<nat>, inFlight: bool,
    openGapId: Option<nat>, openGapStartMs: Option<nat>)

  const HEALTHY := Reconnect(0, None, None, false, None, None)

  /** `session`: the live session, by number. `events`: whether an event channel is attached, if
      only that of a dead session. */
  datatype Slot = Slot(session: Option<nat>, events: bool, reconnect: Reconnect)

  datatype Gap = Gap(track: TrackKind, startMs: nat, endMs: Option<nat>)

  datatype Live = Live(
    audioOpen: bool, now: nat, self: Slot, remote: Slot, gateEnabled: bool,
    rows: map<nat, Gap>, nextRow: nat, nextSession: nat, finalized: seq<nat>)
  {
    function At(k: TrackKind): Slot {
      if k.SelfMic? then self else remote
    }

    function With(k: TrackKind, slot: Slot): Live {
      if k.SelfMic? then this.(self := slot) else this.(remote := slot)
    }
  }

  /** `failure`: None when the call succeeds, otherwise whether its error is retryable. */
  datatype Event =
    | Audio(track: TrackKind, failure: Option<bool>)
    | AudioClosed
    | KeepAlive(failure: Option<bool>)
    | RetryTimer(track: TrackKind)
    | ReconnectDone(track: TrackKind, connected: bool)
    | TrackEvent(track: TrackKind, failure: Option<bool>)
    | EventsClosed(track: TrackKind)

  // ---- Backoff ----------------------------------------------------------------------

  function Doubled(base: nat, times: nat): nat {
    if times == 0 then base else 2 * Doubled(base, times - 1)
  }

  function ReconnectBackoff(attempt: nat): nat {
    var ms := Doubled(500, if attempt <= 6 then attempt else 6);
    if ms <= 30000 then ms else 30000
  }

  function NoteDisconnect(r: Reconnect, now: nat): Reconnect {
    r.(disconnectedAt := if r.disconnectedAt.Some? then r.disconnectedAt else Some(now),
       retryAt := Some(now + ReconnectBackoff(r.attempt)),
       attempt := r.attempt + 1)
  }

  /** Back to healthy, or given up; an open gap stays open. */
  function Reset(r: Reconnect): Reconnect {
    HEALTHY.(openGapId := r.openGapId, openGapStartMs := r.openGapStartMs)
  }

  // ---- The table of outages ---------------------------------------------------------

  function OpenGap(l: Live, k: TrackKind): Live {
    var slot := l.At(k);
    l.With(k, slot.(reconnect := slot.reconnect.(openGapId := Some(l.nextRow), openGapStartMs := Some(l.now))))
     .(rows := l.rows[l.nextRow := Gap(k, l.now, None)], nextRow := l.nextRow + 1)
  }

  function ClosedRows(rows: map<nat, Gap>, id: nat, startMs: nat, now: nat): map<nat, Gap> {
    if (if now >= startMs then now - startMs else 0) < MIN_RECORDED_GAP_MS then rows - {id}
    else if id in rows then rows[id := rows[id].(endMs := Some(now))]
    else rows
  }

  function CloseOpenGap(l: Live, k: TrackKind): Live {
    var slot := l.At(k);
    var r := slot.reconnect;
    var l' := l.With(k, slot.(reconnect := r.(openGapId := None, openGapStartMs := None)));
    if r.openGapId.Some? && r.openGapStartMs.Some? then
      l'.(rows := ClosedRows(l.rows, r.openGapId.value, r.openGapStartMs.value, l.now))
    else l'
  }

  // ---- Turns ------------------------------------------------------------------------

  /** The session is dropped; a new outage opens a gap and arms a retry, or gives up. */
  function Disconnect(l: Live, k: TrackKind, retryable: bool): Live {
    var l1 := l.With(k, l.At(k).(session := None));
    var r := l1.At(k).reconnect;
    if r.retryAt.Some? || r.inFlight then l1
    else
      var l2 := OpenGap(l1, k);
      var slot := l2.At(k);
      l2.With(k, slot.(reconnect := if retryable then NoteDisconnect(slot.reconnect, l.now) else Reset(slot.reconnect)))
  }

  function Fails(l: Live, k: TrackKind, failure: Option<bool>): Live {
    if l.At(k).session.Some? && failure.Some? then Disconnect(l, k, failure.value) else l
  }

  function AbortInFlight(l: Live, k: TrackKind): Live {
    l.With(k, l.At(k).(reconnect := l.At(k).reconnect.(inFlight := false)))
  }

  function Finalize(l: Live, k: TrackKind): Live {
    match l.At(k).session
    case None => l
    case Some(id) => l.With(k, l.At(k).(session := None)).(finalized := l.finalized + [id])
  }

  function CloseAudio(l: Live): Live {
    var l1 := AbortInFlight(AbortInFlight(l.(audioOpen := false), SelfMic), RemoteAudio);
    var l2 := CloseOpenGap(CloseOpenGap(l1, SelfMic), RemoteAudio);
    Finalize(Finalize(l2, SelfMic), RemoteAudio)
  }

  function Connected(l: Live, k: TrackKind): Live {
    var l1 := l.With(k, l.At(k).(session := Some(l.nextSession), events := true)).(nextSession := l.nextSession + 1);
    var l2 := CloseOpenGap(l1, k);
    l2.With(k, l2.At(k).(reconnect := Reset(l2.At(k).reconnect)))
  }

  function ReconnectResult(l: Live, k: TrackKind, connected: bool): Live {
    var l1 := AbortInFlight(l, k);
    if connected then Connected(l1, k)
    else l1.With(k, l1.At(k).(reconnect := NoteDisconnect(l1.At(k).reconnect, l.now)))
  }

  /** Which arms are polled, and when a retry timer may fire. */
  predicate Enabled(l: Live, e: Event, at: nat) {
    && l.now <= at
    && match e
       case Audio(_, _) => l.audioOpen
       case AudioClosed => l.audioOpen
       case KeepAlive(_) => l.remote.session.Some? && l.gateEnabled
       case RetryTimer(k) =>
         var r := l.At(k).reconnect;
         l.audioOpen && r.retryAt.Some? && !r.inFlight && r.retryAt.value <= at
       case ReconnectDone(k, _) => l.At(k).reconnect.inFlight
       case TrackEvent(k, _) => l.At(k).events
       case EventsClosed(k) => l.At(k).events
  }

  function Turn(before: Live, e: Event, at: nat): Live {
    var l := before.(now := at);
    match e
    case Audio(k, failure) => Fails(l, k, failure)
    case AudioClosed => CloseAudio(l)
    case KeepAlive(failure) => Fails(l, RemoteAudio, failure)
    case RetryTimer(k) =>
      l.With(k, l.At(k).(reconnect := l.At(k).reconnect.(retryAt := None, inFlight := true)))
    case ReconnectDone(k, connected) => ReconnectResult(l, k, connected)
    case TrackEvent(k, failure) => Fails(l, k, failure)
    case EventsClosed(k) =>
      var l1 := l.With(k, l.At(k).(events := false));
      Fails(l1, k, Some(true))
  }

  // ---- Runs -------------------------------------------------------------------------

  datatype Entry = Entry(event: Event, at: nat)

  function Run(l: Live, log: seq<Entry>): Live {
    if log == [] then l else Turn(Run(l, log[..|log| - 1]), log[|log| - 1].event, log[|log| - 1].at)
  }

  ghost predicate Possible(l: Live, log: seq<Entry>) {
    log == []
    || (Possible(l, log[..|log| - 1]) && Enabled(Run(l, log[..|log| - 1]), log[|log| - 1].event, log[|log| - 1].at))
  }

  /** The loop goes on while there is audio or an event channel. */
  predicate GoesOn(l: Live) {
    l.audioOpen || l.self.events || l.remote.events
  }

  /** What the loop takes of everything that happens: an arm that is not polled takes nothing. */
  function Taken(l: Live, script: seq<Entry>): seq<Entry> {
    if script == [] then []
    else
      var log, next := Taken(l, script[..|script| - 1]), script[|script| - 1];
      var m := Run(l, log);
      if GoesOn(m) && Enabled(m, next.event, next.at) then log + [next] else log
  }

  lemma {:induction false} TakenIsPossible(l: Live, script: seq<Entry>)
    ensures Possible(l, Taken(l, script))
  {
    hide Enabled, Run;
    if script != [] {
      var log := Taken(l, script[..|script| - 1]);
      TakenIsPossible(l, script[..|script| - 1]);
      assert (log + [script[|script| - 1]])[..|log|] == log;
    }
  }

  /** Once the loop has ended nothing more is taken. */
  lemma {:induction false} NothingTaken(l: Live, script: seq<Entry>, i: nat)
    requires i <= |script| && !GoesOn(Run(l, Taken(l, script[..i])))
    ensures Taken(l, script) == Taken(l, script[..i])
  {
    if i < |script| {
      var front := script[..|script| - 1];
      assert front[..i] == script[..i];
      NothingTaken(l, front, i);
    } else {
      assert script[..i] == script;
    }
  }

  /** Which tracks connected at the start. */
  function Start(selfUp: bool, remoteUp: bool, gateEnabled: bool): Live {
    Live(true, 0, Slot(if selfUp then Some(0) else None, selfUp, HEALTHY),
         Slot(if remoteUp then Some(1) else None, remoteUp, HEALTHY), gateEnabled, map[], 0, 2, [])
  }
}
