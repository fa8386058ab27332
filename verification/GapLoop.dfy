/**
  When the loop of a live transcription ends, and when it tries again, from the log alone.

  The loop goes on while there is audio or an attached event channel, so whether it ends is a
  matter of which channels were closed and which came up. The retry deadline is accounted for
  from the failures of the present outage.
*/
module GapLoop {
  import opened Prelude
  import opened GapModel
  import opened GapProofs

  // ---- Channels ---------------------------------------------------------------------

  /** The event channel of `k` came up at `i`, or was up at the start, and was not closed since. */
  ghost predicate OpenSince(up: bool, k: TrackKind, log: seq<Entry>, i: nat) {
    && i <= |log|
    && (if i == 0 then up else log[i - 1].event == ReconnectDone(k, true))
    && forall j :: i <= j < |log| ==> log[j].event != EventsClosed(k)
  }

  ghost predicate AudioClosedIn(log: seq<Entry>) {
    exists i :: 0 <= i < |log| && log[i].event.AudioClosed?
  }

  lemma TurnChannels(l: Live, e: Event, at: nat, k: TrackKind)
    ensures Turn(l, e, at).At(k).events
            == if e == ReconnectDone(k, true) then true
               else if e == EventsClosed(k) then false
               else l.At(k).events
    ensures Turn(l, e, at).audioOpen == (l.audioOpen && !e.AudioClosed?)
  {
    hide Fails, ReconnectResult, CloseAudio;
    var m := l.(now := at);
    match e
    case Audio(j, failure) => FailsChannels(m, j, failure, k);
    case AudioClosed => CloseAudioAtOnce(m);
    case KeepAlive(failure) => FailsChannels(m, RemoteAudio, failure, k);
    case RetryTimer(_) =>
    case ReconnectDone(j, connected) => ResultChannels(m, j, connected, k);
    case TrackEvent(j, failure) => FailsChannels(m, j, failure, k);
    case EventsClosed(j) => FailsChannels(m.With(j, m.At(j).(events := false)), j, Some(true), k);
  }

  lemma FailsChannels(l: Live, j: TrackKind, failure: Option<bool>, k: TrackKind)
    ensures Fails(l, j, failure).At(k).events == l.At(k).events
    ensures Fails(l, j, failure).audioOpen == l.audioOpen
  {
    hide NoteDisconnect, Reset;
  }

  lemma ResultChannels(l: Live, j: TrackKind, connected: bool, k: TrackKind)
    ensures ReconnectResult(l, j, connected).At(k).events == (l.At(k).events || (j == k && connected))
    ensures ReconnectResult(l, j, connected).audioOpen == l.audioOpen
  {
    hide NoteDisconnect, Reset, ClosedRows;
  }

  /** A track's event channel is attached if and only if it was up at the start or connected since,
      and was not closed after the last time it came up. */
  lemma {:induction false} ChannelExactly(selfUp: bool, remoteUp: bool, gated: bool, log: seq<Entry>, k: TrackKind)
    ensures var up := if k.SelfMic? then selfUp else remoteUp;
            Run(Start(selfUp, remoteUp, gated), log).At(k).events <==> exists i: nat :: OpenSince(up, k, log, i)
  {
    var up := if k.SelfMic? then selfUp else remoteUp;
    if log == [] {
      assert OpenSince(up, k, log, 0) <==> up;
    } else {
      hide Turn, OpenSince;
      var n := |log| - 1;
      ChannelExactly(selfUp, remoteUp, gated, log[..n], k);
      TurnChannels(Run(Start(selfUp, remoteUp, gated), log[..n]), log[n].event, log[n].at, k);
      if i: nat :| OpenSince(up, k, log[..n], i) {
        OpenSinceLater(up, k, log, i);
      }
      if i: nat :| OpenSince(up, k, log, i) {
        OpenSinceLater(up, k, log, i);
      }
      OpenSinceLater(up, k, log, n + 1);
    }
  }

  lemma OpenSinceLater(up: bool, k: TrackKind, log: seq<Entry>, i: nat)
    requires log != []
    ensures var n := |log| - 1;
            OpenSince(up, k, log, i) <==>
              || (i == n + 1 && log[n].event == ReconnectDone(k, true))
              || (OpenSince(up, k, log[..n], i) && log[n].event != EventsClosed(k))
  {
    var n := |log| - 1;
    assert forall j :: 0 <= j < n ==> log[..n][j] == log[j];
    if OpenSince(up, k, log[..n], i) && log[n].event != EventsClosed(k) {
      forall j | i <= j < |log| ensures log[j].event != EventsClosed(k) {
        assert j == n || log[..n][j] == log[j];
      }
    }
  }

  lemma {:induction false} AudioExactly(selfUp: bool, remoteUp: bool, gated: bool, log: seq<Entry>)
    ensures Run(Start(selfUp, remoteUp, gated), log).audioOpen <==> !AudioClosedIn(log)
  {
    hide Turn, AudioClosedIn;
    ClosedLater(log);
    if log != [] {
      var n := |log| - 1;
      AudioExactly(selfUp, remoteUp, gated, log[..n]);
      TurnChannels(Run(Start(selfUp, remoteUp, gated), log[..n]), log[n].event, log[n].at, SelfMic);
    }
  }

  lemma ClosedLater(log: seq<Entry>)
    ensures AudioClosedIn([]) == false
    ensures log != [] ==>
              (AudioClosedIn(log) <==> AudioClosedIn(log[..|log| - 1]) || log[|log| - 1].event.AudioClosed?)
  {
  }

  /** The loop has ended if and only if the audio was closed and each track's event channel is
      closed or was never opened. */
  lemma LoopEndsExactly(selfUp: bool, remoteUp: bool, gated: bool, log: seq<Entry>)
    ensures !GoesOn(Run(Start(selfUp, remoteUp, gated), log)) <==>
              && AudioClosedIn(log)
              && (forall i: nat :: !OpenSince(selfUp, SelfMic, log, i))
              && (forall i: nat :: !OpenSince(remoteUp, RemoteAudio, log, i))
  {
    hide Run, OpenSince, AudioClosedIn;
    AudioExactly(selfUp, remoteUp, gated, log);
    ChannelExactly(selfUp, remoteUp, gated, log, SelfMic);
    ChannelExactly(selfUp, remoteUp, gated, log, RemoteAudio);
  }

  // ---- Deadlines --------------------------------------------------------------------

  /** How long to wait after so many failures of one outage: half a second, doubled with each
      further failure, but never more than half a minute. */
  ghost function WaitAfter(failures: nat): nat {
    if failures <= 1 then 500
    else if 2 * WaitAfter(failures - 1) <= 30000 then 2 * WaitAfter(failures - 1)
    else 30000
  }

  lemma BackoffDoubles(attempt: nat)
    ensures ReconnectBackoff(0) == 500
    ensures ReconnectBackoff(attempt + 1)
            == if 2 * ReconnectBackoff(attempt) <= 30000 then 2 * ReconnectBackoff(attempt) else 30000
  {
    if attempt >= 6 {
      assert Doubled(500, 6) == 32000;
    } else {
      assert attempt == 0 || attempt == 1 || attempt == 2 || attempt == 3 || attempt == 4 || attempt == 5;
    }
  }

  lemma {:induction false} BackoffIsWait(failures: nat)
    requires failures >= 1
    ensures ReconnectBackoff(failures - 1) == WaitAfter(failures)
  {
    BackoffDoubles(0);
    if failures > 1 {
      BackoffIsWait(failures - 1);
      BackoffDoubles(failures - 2);
    }
  }

  /** The failures of the present outage, and when the last of them came, unless an attempt has been
      made since. */
  datatype Outage = Outage(failures: nat, failedAt: Option<nat>)

  ghost function NextOutage(o: Outage, s: Status, e: Event, k: TrackKind, at: nat): Outage {
    if s.Up? && FailureOf(e, k) == Some(true) then Outage(1, Some(at))
    else if s.Retrying? && e == RetryTimer(k) then o.(failedAt := None)
    else if s.Retrying? && e == ReconnectDone(k, false) then Outage(o.failures + 1, Some(at))
    else o
  }

  ghost function OutageOf(selfUp: bool, remoteUp: bool, log: seq<Entry>, k: TrackKind): Outage {
    if log == [] then Outage(0, None)
    else
      var n := |log| - 1;
      var s := Watch(StartSeen(selfUp, remoteUp), log[..n]).At(k);
      NextOutage(OutageOf(selfUp, remoteUp, log[..n], k), s, log[n].event, k, log[n].at)
  }

  ghost predicate Armed(l: Live, s: Status, o: Outage, k: TrackKind) {
    s.Retrying? ==>
      var r := l.At(k).reconnect;
      && o.failures >= 1 && r.attempt == o.failures
      && r.retryAt == if o.failedAt.Some? then Some(o.failedAt.value + ReconnectBackoff(o.failures - 1)) else None
  }

  /** What a turn does to the deadline of a track. */
  ghost predicate Moved(s: Status, e: Event, k: TrackKind, at: nat, r: Reconnect, r': Reconnect) {
    && (s.Up? && FailureOf(e, k) == Some(true) ==> r'.attempt == 1 && r'.retryAt == Some(at + ReconnectBackoff(0)))
    && (s.Retrying? && e == RetryTimer(k) ==> r'.attempt == r.attempt && r'.retryAt == None)
    && (s.Retrying? && e == ReconnectDone(k, false) ==>
          r'.attempt == r.attempt + 1 && r'.retryAt == Some(at + ReconnectBackoff(r.attempt)))
    && (s.Retrying? && e != RetryTimer(k) && !e.AudioClosed? && !(e.ReconnectDone? && e.track == k) ==>
          r'.attempt == r.attempt && r'.retryAt == r.retryAt)
  }

  lemma TurnMoves(w: World, e: Event, at: nat, k: TrackKind)
    requires Inv(w)
    ensures Moved(w.seen.At(k), e, k, at, w.live.At(k).reconnect, Turn(w.live, e, at).At(k).reconnect)
  {
    SlotFacts(w, k);
    hide Inv, Fails, ReconnectResult, CloseAudio, Moved, FailureOf;
    var m, s := w.live.(now := at), w.seen.At(k);
    match e
    case Audio(j, failure) => FailsMoves(m, j, failure, s, e, k);
    case AudioClosed => ClosingMoves(s, k, at, w.live.At(k).reconnect, Turn(w.live, e, at).At(k).reconnect);
    case KeepAlive(failure) => FailsMoves(m, RemoteAudio, failure, s, e, k);
    case RetryTimer(j) => TimerMoves(w.live, j, at, s, k);
    case ReconnectDone(j, connected) => ResultMoves(m, j, connected, s, k);
    case TrackEvent(j, failure) => FailsMoves(m, j, failure, s, e, k);
    case EventsClosed(j) => FailsMoves(m.With(j, m.At(j).(events := false)), j, Some(true), s, e, k);
  }

  /** The track that an event may fail, and how. */
  ghost predicate IsFailureOf(e: Event, j: TrackKind, failure: Option<bool>) {
    match e
    case Audio(t, f) => t == j && f == failure
    case KeepAlive(f) => j.RemoteAudio? && f == failure
    case TrackEvent(t, f) => t == j && f == failure
    case EventsClosed(t) => t == j && failure == Some(true)
    case _ => false
  }

  lemma FailsMoves(l: Live, j: TrackKind, failure: Option<bool>, s: Status, e: Event, k: TrackKind)
    requires IsFailureOf(e, j, failure)
    requires (s.Up? <==> l.At(k).session.Some?) && (s.Up? ==> l.At(k).reconnect == HEALTHY)
    ensures Moved(s, e, k, l.now, l.At(k).reconnect, Fails(l, j, failure).At(k).reconnect)
  {
    FailsArms(l, j, failure, s, k);
    hide Fails, ReconnectBackoff;
  }

  lemma ClosingMoves(s: Status, k: TrackKind, at: nat, r: Reconnect, r': Reconnect)
    ensures Moved(s, AudioClosed, k, at, r, r')
  {
  }

  lemma TimerMoves(l: Live, j: TrackKind, at: nat, s: Status, k: TrackKind)
    ensures Moved(s, RetryTimer(j), k, at, l.At(k).reconnect, Turn(l, RetryTimer(j), at).At(k).reconnect)
  {
    hide ReconnectBackoff;
  }

  lemma ResultMoves(l: Live, j: TrackKind, connected: bool, s: Status, k: TrackKind)
    ensures Moved(s, ReconnectDone(j, connected), k, l.now, l.At(k).reconnect,
                  ReconnectResult(l, j, connected).At(k).reconnect)
  {
    ResultArms(l, j, connected, k);
    hide ReconnectResult, ReconnectBackoff;
  }

  lemma TurnArms(w: World, e: Event, at: nat, k: TrackKind, o: Outage)
    requires Inv(w) && Armed(w.live, w.seen.At(k), o, k)
    ensures Armed(Turn(w.live, e, at), NextStatus(w.seen.At(k), e, k, at), NextOutage(o, w.seen.At(k), e, k, at), k)
  {
    hide Inv, Turn, ReconnectBackoff, FailureOf;
    TurnMoves(w, e, at, k);
  }

  lemma SlotFacts(w: World, k: TrackKind)
    requires Inv(w)
    ensures w.seen.At(k).Up? <==> w.live.At(k).session.Some?
    ensures w.seen.At(k).Up? ==> w.live.At(k).reconnect == HEALTHY
  {
    hide TableOk, SessionsOk;
  }

  lemma FailsArms(l: Live, j: TrackKind, failure: Option<bool>, s: Status, k: TrackKind)
    requires (s.Up? <==> l.At(k).session.Some?) && (s.Up? ==> l.At(k).reconnect == HEALTHY)
    ensures var r, r' := l.At(k).reconnect, Fails(l, j, failure).At(k).reconnect;
            && (s.Up? && j == k && failure == Some(true) ==>
                  r'.attempt == 1 && r'.retryAt == Some(l.now + ReconnectBackoff(0)))
            && (!s.Up? || j != k ==> r'.attempt == r.attempt && r'.retryAt == r.retryAt)
  {
    hide ReconnectBackoff;
  }

  lemma ResultArms(l: Live, j: TrackKind, connected: bool, k: TrackKind)
    ensures var r, r' := l.At(k).reconnect, ReconnectResult(l, j, connected).At(k).reconnect;
            && (j != k ==> r' == r)
            && (j == k && !connected ==>
                  r'.attempt == r.attempt + 1 && r'.retryAt == Some(l.now + ReconnectBackoff(r.attempt)))
  {
    hide ReconnectBackoff, ClosedRows;
  }

  /** While a track is being reconnected, its next attempt is due exactly when the wait for the
      failures so far is over, or is under way. */
  lemma RetryIsDue(selfUp: bool, remoteUp: bool, gated: bool, log: seq<Entry>, k: TrackKind)
    requires Possible(Start(selfUp, remoteUp, gated), log)
    ensures var w, o := After(selfUp, remoteUp, gated, log), OutageOf(selfUp, remoteUp, log, k);
            var r := w.live.At(k).reconnect;
            w.seen.At(k).Retrying? ==>
              && o.failures >= 1 && r.attempt == o.failures
              && r.retryAt == if o.failedAt.Some? then Some(o.failedAt.value + WaitAfter(o.failures)) else None
  {
    hide Inv, Turn, Enabled, NextOutage, Look, NextStatus;
    RunArms(selfUp, remoteUp, gated, log, k);
    var o := OutageOf(selfUp, remoteUp, log, k);
    if o.failures >= 1 {
      BackoffIsWait(o.failures);
    }
  }

  /** No attempt is made before the wait for the failures so far is over. */
  lemma AttemptsWait(selfUp: bool, remoteUp: bool, gated: bool, log: seq<Entry>, k: TrackKind)
    requires Possible(Start(selfUp, remoteUp, gated), log) && log != []
    requires log[|log| - 1].event == RetryTimer(k)
    ensures var o := OutageOf(selfUp, remoteUp, log[..|log| - 1], k);
            && o.failures >= 1 && o.failedAt.Some?
            && log[|log| - 1].at >= o.failedAt.value + WaitAfter(o.failures)
  {
    var front := log[..|log| - 1];
    RetryIsDue(selfUp, remoteUp, gated, front, k);
    RetryingNeverStalls(selfUp, remoteUp, gated, front, k);
    hide Run, OutageOf, Watch, Possible;
  }

  lemma {:induction false} RunArms(selfUp: bool, remoteUp: bool, gated: bool, log: seq<Entry>, k: TrackKind)
    requires Possible(Start(selfUp, remoteUp, gated), log)
    ensures Armed(Run(Start(selfUp, remoteUp, gated), log), Watch(StartSeen(selfUp, remoteUp), log).At(k),
                  OutageOf(selfUp, remoteUp, log, k), k)
  {
    if log != [] {
      hide Inv, Turn, Enabled, NextOutage, Armed, NextStatus;
      var n := |log| - 1;
      RunArms(selfUp, remoteUp, gated, log[..n], k);
      RunKeeps(selfUp, remoteUp, gated, log[..n]);
      TurnArms(After(selfUp, remoteUp, gated, log[..n]), log[n].event, log[n].at, k,
               OutageOf(selfUp, remoteUp, log[..n], k));
    }
  }
}
