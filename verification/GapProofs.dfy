/**
  What the outage table and the reconnect state are worth. Beside the loop runs an independent
  account of each track, kept only from the events; table, sessions and timers are proved to
  agree with it over every run.
*/
module GapProofs {
  import opened Prelude
  import opened GapModel

  datatype Status = NeverUp | Up | Retrying(since: nat) | GaveUp(since: nat) | Ended

  /** What an onlooker notes down: the state of both tracks, and every outage that is over. */
  datatype Seen = Seen(self: Status, remote: Status, outages: seq<Gap>)
  {
    function At(k: TrackKind): Status {
      if k.SelfMic? then self else remote
    }

    function With(k: TrackKind, s: Status): Seen {
      if k.SelfMic? then this.(self := s) else this.(remote := s)
    }
  }

  datatype World = World(live: Live, seen: Seen)

  // ---- The onlooker -----------------------------------------------------------------

  function FailureOf(e: Event, k: TrackKind): Option<bool> {
    match e
    case Audio(t, failure) => if t == k then failure else None
    case KeepAlive(failure) => if k.RemoteAudio? then failure else None
    case TrackEvent(t, failure) => if t == k then failure else None
    case EventsClosed(t) => if t == k then Some(true) else None
    case _ => None
  }

  function NextStatus(s: Status, e: Event, k: TrackKind, at: nat): Status {
    if e.AudioClosed? then Ended
    else if s.Up? && FailureOf(e, k).Some? then (if FailureOf(e, k).value then Retrying(at) else GaveUp(at))
    else if e == ReconnectDone(k, true) then Up
    else s
  }

  function Over(s: Status, s': Status, k: TrackKind, at: nat): seq<Gap> {
    match s
    case Retrying(since) => if s' == Up || s' == Ended then [Gap(k, since, Some(at))] else []
    case GaveUp(since) => if s' == Up || s' == Ended then [Gap(k, since, Some(at))] else []
    case _ => []
  }

  function Look(seen: Seen, e: Event, at: nat): Seen {
    var self, remote := NextStatus(seen.self, e, SelfMic, at), NextStatus(seen.remote, e, RemoteAudio, at);
    Seen(self, remote,
         seen.outages + Over(seen.self, self, SelfMic, at) + Over(seen.remote, remote, RemoteAudio, at))
  }

  function StartSeen(selfUp: bool, remoteUp: bool): Seen {
    Seen(if selfUp then Up else NeverUp, if remoteUp then Up else NeverUp, [])
  }

  function Watch(seen: Seen, log: seq<Entry>): Seen {
    if log == [] then seen else Look(Watch(seen, log[..|log| - 1]), log[|log| - 1].event, log[|log| - 1].at)
  }

  // ---- The invariant ----------------------------------------------------------------

  ghost predicate Holds(slot: Slot, rows: map<nat, Gap>, k: TrackKind, since: nat) {
    var r := slot.reconnect;
    && slot.session == None
    && r.openGapId.Some? && r.openGapStartMs == Some(since)
    && r.openGapId.value in rows && rows[r.openGapId.value] == Gap(k, since, None)
  }

  ghost predicate SlotOk(slot: Slot, rows: map<nat, Gap>, k: TrackKind, status: Status, now: nat) {
    var r := slot.reconnect;
    match status
    case NeverUp => slot.session == None && r == HEALTHY
    case Up => slot.session.Some? && r == HEALTHY && slot.events
    case Retrying(since) =>
      && Holds(slot, rows, k, since) && since <= now && r.disconnectedAt == Some(since) && r.attempt > 0
      && r.retryAt.Some? == !r.inFlight
      && (r.retryAt.Some? ==> r.retryAt.value <= now + 30000)
    case GaveUp(since) =>
      && Holds(slot, rows, k, since) && since <= now
      && r == HEALTHY.(openGapId := r.openGapId, openGapStartMs := Some(since))
    case Ended => slot.session == None && !r.inFlight && r.openGapId == None && r.openGapStartMs == None
  }

  ghost predicate RowOk(id: nat, g: Gap, nextRow: nat, now: nat, openId: Option<nat>) {
    && id < nextRow && g.startMs <= now
    && (g.endMs.Some? ==> g.startMs + MIN_RECORDED_GAP_MS <= g.endMs.value <= now)
    && (g.endMs.None? ==> openId == Some(id))
  }

  /** The open row of a track, given both. */
  function OpenFor(k: TrackKind, self: Option<nat>, remote: Option<nat>): Option<nat> {
    if k.SelfMic? then self else remote
  }

  ghost predicate RowsOk(rows: map<nat, Gap>, nextRow: nat, now: nat, self: Option<nat>, remote: Option<nat>) {
    forall id :: id in rows ==> RowOk(id, rows[id], nextRow, now, OpenFor(rows[id].track, self, remote))
  }

  /** The rows of a track follow one another without overlap, and only the last may be open. */
  ghost predicate RowsOrdered(rows: map<nat, Gap>) {
    forall i, j :: i in rows && j in rows && i < j && rows[i].track == rows[j].track ==>
      rows[i].endMs.Some? && rows[i].endMs.value <= rows[j].startMs
  }

  predicate Long(g: Gap) {
    g.endMs.Some? && g.startMs + MIN_RECORDED_GAP_MS <= g.endMs.value
  }

  ghost predicate Recorded(rows: map<nat, Gap>, g: Gap) {
    exists id :: id in rows && rows[id] == g
  }

  /** The closed rows are exactly the outages that lasted. */
  ghost predicate TableExact(rows: map<nat, Gap>, outages: seq<Gap>) {
    forall g: Gap :: g.endMs.Some? ==> (Recorded(rows, g) <==> g in outages && Long(g))
  }

  ghost predicate SessionsOk(l: Live) {
    && (l.self.session.Some? ==> l.self.session.value < l.nextSession)
    && (l.remote.session.Some? ==> l.remote.session.value < l.nextSession)
    && (l.self.session.Some? ==> l.self.session != l.remote.session)
    && (l.audioOpen ==> l.finalized == [])
    && Distinct(l.finalized)
  }

  ghost predicate TableOk(w: World) {
    var l := w.live;
    && RowsOk(l.rows, l.nextRow, l.now, l.self.reconnect.openGapId, l.remote.reconnect.openGapId)
    && RowsOrdered(l.rows) && TableExact(l.rows, w.seen.outages)
  }

  lemma RowIsOk(w: World, id: nat)
    requires TableOk(w) && id in w.live.rows
    ensures var l := w.live;
            RowOk(id, l.rows[id], l.nextRow, l.now, l.At(l.rows[id].track).reconnect.openGapId)
  {
    var l := w.live;
    assert RowOk(id, l.rows[id], l.nextRow, l.now,
                 OpenFor(l.rows[id].track, l.self.reconnect.openGapId, l.remote.reconnect.openGapId));
  }

  ghost predicate Inv(w: World) {
    var l := w.live;
    && SlotOk(l.self, l.rows, SelfMic, w.seen.self, l.now)
    && SlotOk(l.remote, l.rows, RemoteAudio, w.seen.remote, l.now)
    && TableOk(w) && SessionsOk(l)
    && l.audioOpen == !w.seen.self.Ended? && l.audioOpen == !w.seen.remote.Ended?
  }

  // ---- The table --------------------------------------------------------------------

  lemma BackoffBounds(attempt: nat)
    ensures 500 <= ReconnectBackoff(attempt) <= 30000
  {
    DoubledGrows(500, if attempt <= 6 then attempt else 6);
  }

  lemma {:induction false} DoubledGrows(base: nat, times: nat)
    ensures Doubled(base, times) >= base
  {
    if times > 0 { DoubledGrows(base, times - 1); }
  }

  lemma OpenRow(rows: map<nat, Gap>, nextRow: nat, now: nat, self: Option<nat>, remote: Option<nat>, outages: seq<Gap>,
                k: TrackKind)
    requires RowsOk(rows, nextRow, now, self, remote) && RowsOrdered(rows) && TableExact(rows, outages)
    requires if k.SelfMic? then self.None? else remote.None?
    ensures var rows' := rows[nextRow := Gap(k, now, None)];
            && RowsOk(rows', nextRow + 1, now, if k.SelfMic? then Some(nextRow) else self,
                      if k.RemoteAudio? then Some(nextRow) else remote)
            && RowsOrdered(rows') && TableExact(rows', outages)
  {
    var rows' := rows[nextRow := Gap(k, now, None)];
    forall id | id in rows ensures id < nextRow && id in rows' && rows'[id] == rows[id] {
      assert RowOk(id, rows[id], nextRow, now, OpenFor(rows[id].track, self, remote));
    }
    OpenRowExact(rows, nextRow, now, outages, k);
    OpenRowOrdered(rows, nextRow, now, self, remote, k);
    hide TableExact, RowsOrdered;
  }

  lemma OpenRowOrdered(rows: map<nat, Gap>, nextRow: nat, now: nat, self: Option<nat>, remote: Option<nat>,
                       k: TrackKind)
    requires RowsOk(rows, nextRow, now, self, remote) && RowsOrdered(rows)
    requires if k.SelfMic? then self.None? else remote.None?
    ensures RowsOrdered(rows[nextRow := Gap(k, now, None)])
  {
    var rows' := rows[nextRow := Gap(k, now, None)];
    forall i, j | i in rows' && j in rows' && i < j && rows'[i].track == rows'[j].track
      ensures rows'[i].endMs.Some? && rows'[i].endMs.value <= rows'[j].startMs
    {
      assert RowOk(i, rows[i], nextRow, now, OpenFor(rows[i].track, self, remote));
    }
  }

  lemma OpenRowExact(rows: map<nat, Gap>, nextRow: nat, now: nat, outages: seq<Gap>, k: TrackKind)
    requires TableExact(rows, outages) && nextRow !in rows
    ensures TableExact(rows[nextRow := Gap(k, now, None)], outages)
  {
    var rows' := rows[nextRow := Gap(k, now, None)];
    forall g: Gap | g.endMs.Some? ensures Recorded(rows', g) <==> Recorded(rows, g) {
      if Recorded(rows, g) {
        var id :| id in rows && rows[id] == g;
        assert id in rows' && rows'[id] == g;
      }
    }
  }

  lemma CloseRow(rows: map<nat, Gap>, nextRow: nat, now: nat, self: Option<nat>, remote: Option<nat>, outages: seq<Gap>,
                 k: TrackKind, id: nat, since: nat)
    requires RowsOk(rows, nextRow, now, self, remote) && RowsOrdered(rows)
    requires (if k.SelfMic? then self else remote) == Some(id) && id in rows && rows[id] == Gap(k, since, None)
             && since <= now
    ensures var rows' := ClosedRows(rows, id, since, now);
            && RowsOk(rows', nextRow, now, if k.SelfMic? then None else self, if k.RemoteAudio? then None else remote)
            && RowsOrdered(rows')
  {
    var rows' := ClosedRows(rows, id, since, now);
    CloseRowOrdered(rows, id, since, now);
    hide RowsOrdered;
    forall i | i in rows'
      ensures RowOk(i, rows'[i], nextRow, now,
                    if rows'[i].track.SelfMic? then (if k.SelfMic? then None else self)
                      else if k.RemoteAudio? then None else remote)
    {
      assert RowOk(i, rows[i], nextRow, now, OpenFor(rows[i].track, self, remote));
    }
  }

  lemma CloseRowOrdered(rows: map<nat, Gap>, id: nat, since: nat, now: nat)
    requires RowsOrdered(rows) && id in rows && rows[id].endMs.None?
    ensures RowsOrdered(ClosedRows(rows, id, since, now))
  {
  }

  lemma CloseRowExact(rows: map<nat, Gap>, now: nat, outages: seq<Gap>, k: TrackKind, id: nat, since: nat)
    requires TableExact(rows, outages) && id in rows && rows[id] == Gap(k, since, None) && since <= now
    ensures TableExact(ClosedRows(rows, id, since, now), outages + [Gap(k, since, Some(now))])
  {
    var rows' := ClosedRows(rows, id, since, now);
    var closed := Gap(k, since, Some(now));
    forall g: Gap | g.endMs.Some? ensures Recorded(rows', g) <==> g in outages + [closed] && Long(g) {
      if Recorded(rows, g) {
        var i :| i in rows && rows[i] == g;
        assert i in rows' && rows'[i] == g;
      }
      if Recorded(rows', g) && g != closed {
        var i :| i in rows' && rows'[i] == g;
        assert i in rows && rows[i] == g;
      }
      if Long(closed) {
        assert id in rows' && rows'[id] == closed;
      }
    }
  }

  lemma OthersUntouched(rows: map<nat, Gap>, id: nat, since: nat, now: nat, slot: Slot, k: TrackKind, status: Status)
    requires SlotOk(slot, rows, k, status, now) && slot.reconnect.openGapId != Some(id)
    ensures SlotOk(slot, ClosedRows(rows, id, since, now), k, status, now)
  {
  }

  // ---- Turns ------------------------------------------------------------------------

  lemma TimePasses(w: World, at: nat)
    requires Inv(w) && w.live.now <= at
    ensures Inv(World(w.live.(now := at), w.seen))
  {
    hide TableExact, RowsOrdered;
    var l := w.live;
    forall id | id in l.rows
      ensures RowOk(id, l.rows[id], l.nextRow, at, l.At(l.rows[id].track).reconnect.openGapId)
    {
      RowIsOk(w, id);
    }
  }

  /** A live session drops: one row opens, and a retry is armed or the track gives up. */
  lemma DisconnectKeeps(w: World, k: TrackKind, retryable: bool, events: bool)
    requires Inv(w) && w.live.At(k).session.Some?
    ensures var l := w.live.With(k, w.live.At(k).(events := events));
            Inv(World(Disconnect(l, k, retryable),
                      w.seen.With(k, if retryable then Retrying(l.now) else GaveUp(l.now))))
  {
    hide TableExact, RowsOrdered, RowsOk;
    var l := w.live;
    BackoffBounds(0);
    OpenRow(l.rows, l.nextRow, l.now, l.self.reconnect.openGapId, l.remote.reconnect.openGapId, w.seen.outages, k);
    RowsBelow(l.rows, l.nextRow, l.now, l.self.reconnect.openGapId, l.remote.reconnect.openGapId);
  }

  lemma RowsBelow(rows: map<nat, Gap>, nextRow: nat, now: nat, self: Option<nat>, remote: Option<nat>)
    requires RowsOk(rows, nextRow, now, self, remote)
    ensures nextRow !in rows
  {
    forall id | id in rows ensures id < nextRow {
      assert RowOk(id, rows[id], nextRow, now, OpenFor(rows[id].track, self, remote));
    }
  }

  lemma FailsKeeps(w: World, k: TrackKind, failure: Option<bool>, events: bool)
    requires Inv(w)
    requires events == w.live.At(k).events || failure.Some?
    ensures var l := w.live.With(k, w.live.At(k).(events := events));
            Inv(World(Fails(l, k, failure),
                      if w.seen.At(k).Up? && failure.Some?
                      then w.seen.With(k, if failure.value then Retrying(l.now) else GaveUp(l.now)) else w.seen))
  {
    hide TableOk, SessionsOk, Disconnect;
    if w.live.At(k).session.Some? && failure.Some? {
      DisconnectKeeps(w, k, failure.value, events);
    } else {
      EventsMove(w, k, events);
      assert w.seen.At(k).Up? ==> w.live.At(k).session.Some?;
    }
  }

  lemma EventsMove(w: World, k: TrackKind, events: bool)
    requires Inv(w) && (events == w.live.At(k).events || w.live.At(k).session.None?)
    ensures Inv(World(w.live.With(k, w.live.At(k).(events := events)), w.seen))
  {
    hide TableExact, RowsOrdered, RowsOk;
  }

  lemma RetryKeeps(w: World, k: TrackKind)
    requires Inv(w) && w.live.audioOpen && w.live.At(k).reconnect.retryAt.Some?
    ensures var l := w.live;
            Inv(World(l.With(k, l.At(k).(reconnect := l.At(k).reconnect.(retryAt := None, inFlight := true))), w.seen))
  {
    hide TableExact, RowsOrdered, RowsOk;
  }

  lemma FailedAttemptKeeps(w: World, k: TrackKind)
    requires Inv(w) && w.live.At(k).reconnect.inFlight
    ensures Inv(World(ReconnectResult(w.live, k, false), w.seen))
  {
    hide TableExact, RowsOrdered, RowsOk;
    BackoffBounds(w.live.At(k).reconnect.attempt);
  }

  /** A reconnect succeeds: the row closes, or goes if the outage was short, and all is reset. */
  lemma ConnectedKeeps(w: World, k: TrackKind)
    requires Inv(w) && w.live.At(k).reconnect.inFlight
    ensures Inv(World(ReconnectResult(w.live, k, true),
                      w.seen.With(k, Up).(outages := w.seen.outages + Over(w.seen.At(k), Up, k, w.live.now))))
  {
    hide TableExact, RowsOrdered, RowsOk, ClosedRows;
    var l := w.live;
    var since := w.seen.At(k).since;
    var id := l.At(k).reconnect.openGapId.value;
    CloseRow(l.rows, l.nextRow, l.now, l.self.reconnect.openGapId, l.remote.reconnect.openGapId, w.seen.outages, k, id,
             since);
    CloseRowExact(l.rows, l.now, w.seen.outages, k, id, since);
    var other := if k.SelfMic? then RemoteAudio else SelfMic;
    OthersUntouched(l.rows, id, since, l.now, l.At(other), other, w.seen.At(other));
    ConnectedAtOnce(l, k, id, since);
    hide ReconnectResult;
  }

  /** A successful reconnect in one piece. */
  lemma ConnectedAtOnce(l: Live, k: TrackKind, id: nat, since: nat)
    requires l.At(k).reconnect.openGapId == Some(id) && l.At(k).reconnect.openGapStartMs == Some(since)
    ensures ReconnectResult(l, k, true)
            == l.With(k, Slot(Some(l.nextSession), true, HEALTHY)).(nextSession := l.nextSession + 1,
                                                                    rows := ClosedRows(l.rows, id, since, l.now))
  {
    hide ClosedRows;
  }

  function LiveSessions(l: Live): seq<nat> {
    (if l.self.session.Some? then [l.self.session.value] else [])
    + (if l.remote.session.Some? then [l.remote.session.value] else [])
  }

  function Closing(rows: map<nat, Gap>, r: Reconnect, now: nat): map<nat, Gap> {
    if r.openGapId.Some? && r.openGapStartMs.Some?
    then ClosedRows(rows, r.openGapId.value, r.openGapStartMs.value, now)
    else rows
  }

  function ClosedSlot(slot: Slot): Slot {
    slot.(session := None, reconnect := slot.reconnect.(inFlight := false, openGapId := None, openGapStartMs := None))
  }

  /** The end of the audio in one piece. */
  lemma CloseAudioAtOnce(l: Live)
    ensures CloseAudio(l) == l.(audioOpen := false, self := ClosedSlot(l.self), remote := ClosedSlot(l.remote),
                                rows := Closing(Closing(l.rows, l.self.reconnect, l.now), l.remote.reconnect, l.now),
                                finalized := l.finalized + LiveSessions(l))
  {
    hide ClosedRows;
    var l1 := AbortInFlight(AbortInFlight(l.(audioOpen := false), SelfMic), RemoteAudio);
    var self1 := l.self.(reconnect := l.self.reconnect.(inFlight := false));
    var remote1 := l.remote.(reconnect := l.remote.reconnect.(inFlight := false));
    assert l1 == l.(audioOpen := false, self := self1, remote := remote1);
    var l2 := CloseOpenGap(CloseOpenGap(l1, SelfMic), RemoteAudio);
    CloseBoth(l1);
    FinalizeBoth(l2);
  }

  lemma CloseBoth(l: Live)
    ensures CloseOpenGap(CloseOpenGap(l, SelfMic), RemoteAudio)
         == l.(self := l.self.(reconnect := l.self.reconnect.(openGapId := None, openGapStartMs := None)),
               remote := l.remote.(reconnect := l.remote.reconnect.(openGapId := None, openGapStartMs := None)),
               rows := Closing(Closing(l.rows, l.self.reconnect, l.now), l.remote.reconnect, l.now))
  {
    hide ClosedRows;
    var l1 := CloseOpenGap(l, SelfMic);
    assert l1 == l.(self := l.self.(reconnect := l.self.reconnect.(openGapId := None, openGapStartMs := None)),
                    rows := Closing(l.rows, l.self.reconnect, l.now));
  }

  lemma FinalizeBoth(l: Live)
    ensures Finalize(Finalize(l, SelfMic), RemoteAudio)
         == l.(self := l.self.(session := None), remote := l.remote.(session := None),
               finalized := l.finalized + LiveSessions(l))
  {
    var l1 := Finalize(l, SelfMic);
    var first := if l.self.session.Some? then [l.self.session.value] else [];
    assert l.finalized + [] == l.finalized && (l.finalized + first) + [] == l.finalized + first;
    assert l1 == l.(self := l.self.(session := None), finalized := l.finalized + first);
    if l.remote.session.Some? {
      assert (l.finalized + first) + [l.remote.session.value] == l.finalized + (first + [l.remote.session.value]);
    } else {
      assert l.finalized + first == l.finalized + (first + []);
    }
  }

  /** What closing a track's gap does to the table. */
  lemma ClosingKeeps(rows: map<nat, Gap>, nextRow: nat, now: nat, self: Option<nat>, remote: Option<nat>,
                     outages: seq<Gap>,
                     k: TrackKind, slot: Slot, status: Status)
    requires RowsOk(rows, nextRow, now, self, remote) && RowsOrdered(rows) && TableExact(rows, outages)
    requires SlotOk(slot, rows, k, status, now) && (if k.SelfMic? then self else remote) == slot.reconnect.openGapId
    ensures var rows' := Closing(rows, slot.reconnect, now);
            && RowsOk(rows', nextRow, now, if k.SelfMic? then None else self, if k.RemoteAudio? then None else remote)
            && RowsOrdered(rows') && TableExact(rows', outages + Over(status, Ended, k, now))
  {
    hide TableExact, RowsOrdered, RowsOk;
    var r := slot.reconnect;
    if r.openGapId.Some? {
      CloseRow(rows, nextRow, now, self, remote, outages, k, r.openGapId.value, status.since);
      CloseRowExact(rows, now, outages, k, r.openGapId.value, status.since);
    } else {
      assert outages + [] == outages;
    }
  }

  lemma ClosingLeaves(rows: map<nat, Gap>, r: Reconnect, now: nat, slot: Slot, k: TrackKind, status: Status)
    requires SlotOk(slot, rows, k, status, now)
    requires r.openGapId.Some? ==> slot.reconnect.openGapId != r.openGapId
    ensures SlotOk(slot, Closing(rows, r, now), k, status, now)
  {
  }

  lemma CloseAudioKeeps(w: World)
    requires Inv(w) && w.live.audioOpen
    ensures Inv(World(CloseAudio(w.live), Look(w.seen, AudioClosed, w.live.now)))
  {
    hide TableExact, RowsOrdered, RowsOk, CloseAudio, Closing, Over;
    var l := w.live;
    var r, q := l.self.reconnect, l.remote.reconnect;
    CloseAudioAtOnce(l);
    ClosingKeeps(l.rows, l.nextRow, l.now, r.openGapId, q.openGapId, w.seen.outages, SelfMic, l.self, w.seen.self);
    ClosingLeaves(l.rows, r, l.now, l.remote, RemoteAudio, w.seen.remote);
    ClosingKeeps(Closing(l.rows, r, l.now), l.nextRow, l.now, None, q.openGapId,
                 w.seen.outages + Over(w.seen.self, Ended, SelfMic, l.now), RemoteAudio, l.remote, w.seen.remote);
    assert [] + LiveSessions(l) == LiveSessions(l);
  }

  function WorldTurn(w: World, e: Event, at: nat): World {
    World(Turn(w.live, e, at), Look(w.seen, e, at))
  }

  /** Every arm keeps the invariant. */
  lemma TurnKeeps(w: World, e: Event, at: nat)
    requires Inv(w) && Enabled(w.live, e, at)
    ensures Inv(WorldTurn(w, e, at))
  {
    hide Inv, WorldTurn;
    match e
    case Audio(k, failure) => FailsTurn(w, e, at, k, failure, w.live.At(k).events);
    case AudioClosed => CloseAudioTurn(w, at);
    case KeepAlive(failure) => FailsTurn(w, e, at, RemoteAudio, failure, w.live.remote.events);
    case RetryTimer(k) => RetryTurn(w, k, at);
    case ReconnectDone(k, connected) => if connected { ConnectedTurn(w, k, at); } else { FailedAttemptTurn(w, k, at); }
    case TrackEvent(k, failure) => FailsTurn(w, e, at, k, failure, w.live.At(k).events);
    case EventsClosed(k) => FailsTurn(w, e, at, k, Some(true), false);
  }

  lemma NothingOver(seen: Seen, e: Event, at: nat)
    requires !e.AudioClosed?
    ensures NextStatus(seen.self, e, SelfMic, at) == seen.self ==>
              Over(seen.self, NextStatus(seen.self, e, SelfMic, at), SelfMic, at) == []
    ensures NextStatus(seen.remote, e, RemoteAudio, at) == seen.remote ==>
              Over(seen.remote, NextStatus(seen.remote, e, RemoteAudio, at), RemoteAudio, at) == []
    ensures (NextStatus(seen.self, e, SelfMic, at) == seen.self
             && NextStatus(seen.remote, e, RemoteAudio, at) == seen.remote) ==> Look(seen, e, at) == seen
  {
    assert seen.outages + [] + [] == seen.outages;
  }

  lemma FailureSeen(seen: Seen, e: Event, at: nat, k: TrackKind, failure: Option<bool>)
    requires FailureOf(e, k) == failure && !e.AudioClosed? && !e.ReconnectDone?
    requires FailureOf(e, if k.SelfMic? then RemoteAudio else SelfMic) == None
    ensures Look(seen, e, at) ==
              if seen.At(k).Up? && failure.Some?
              then seen.With(k, if failure.value then Retrying(at) else GaveUp(at))
              else seen
  {
    assert seen.outages + [] + [] == seen.outages;
  }

  lemma FailsTurn(w: World, e: Event, at: nat, k: TrackKind, failure: Option<bool>, events: bool)
    requires Inv(w) && w.live.now <= at && !e.AudioClosed? && !e.ReconnectDone?
    requires FailureOf(e, k) == failure && FailureOf(e, if k.SelfMic? then RemoteAudio else SelfMic) == None
    requires events == w.live.At(k).events || failure.Some?
    requires var l := w.live.(now := at);
             Turn(w.live, e, at) == Fails(l.With(k, l.At(k).(events := events)), k, failure)
    ensures Inv(WorldTurn(w, e, at))
  {
    hide Inv, Turn, Fails, Look, NextStatus, Over;
    TimePasses(w, at);
    FailureSeen(w.seen, e, at, k, failure);
    FailsKeeps(World(w.live.(now := at), w.seen), k, failure, events);
  }

  lemma RetryTurn(w: World, k: TrackKind, at: nat)
    requires Inv(w) && Enabled(w.live, RetryTimer(k), at)
    ensures Inv(WorldTurn(w, RetryTimer(k), at))
  {
    hide Inv;
    TimePasses(w, at);
    RetryKeeps(World(w.live.(now := at), w.seen), k);
    FailureSeen(w.seen, RetryTimer(k), at, k, None);
  }

  lemma FailedAttemptTurn(w: World, k: TrackKind, at: nat)
    requires Inv(w) && Enabled(w.live, ReconnectDone(k, false), at)
    ensures Inv(WorldTurn(w, ReconnectDone(k, false), at))
  {
    hide Inv, ReconnectResult;
    TimePasses(w, at);
    FailedAttemptKeeps(World(w.live.(now := at), w.seen), k);
    assert w.seen.outages + [] + [] == w.seen.outages;
    NothingOver(w.seen, ReconnectDone(k, false), at);
  }

  lemma CloseAudioTurn(w: World, at: nat)
    requires Inv(w) && Enabled(w.live, AudioClosed, at)
    ensures Inv(WorldTurn(w, AudioClosed, at))
  {
    hide Inv, CloseAudio;
    TimePasses(w, at);
    CloseAudioKeeps(World(w.live.(now := at), w.seen));
  }

  lemma ConnectedTurn(w: World, k: TrackKind, at: nat)
    requires Inv(w) && Enabled(w.live, ReconnectDone(k, true), at)
    ensures Inv(WorldTurn(w, ReconnectDone(k, true), at))
  {
    hide Inv, ReconnectResult;
    TimePasses(w, at);
    ConnectedKeeps(World(w.live.(now := at), w.seen), k);
    assert w.seen.outages + [] == w.seen.outages;
    assert forall xs: seq<Gap> :: xs + [] == xs;
  }

  // ---- Main results -----------------------------------------------------------------

  function After(selfUp: bool, remoteUp: bool, gated: bool, log: seq<Entry>): World {
    World(Run(Start(selfUp, remoteUp, gated), log), Watch(StartSeen(selfUp, remoteUp), log))
  }

  lemma {:induction false} RunKeeps(selfUp: bool, remoteUp: bool, gated: bool, log: seq<Entry>)
    requires Possible(Start(selfUp, remoteUp, gated), log)
    ensures Inv(After(selfUp, remoteUp, gated, log))
  {
    if log != [] {
      hide Inv, Turn, Look, Enabled;
      var front, last := log[..|log| - 1], log[|log| - 1];
      RunKeeps(selfUp, remoteUp, gated, front);
      TurnKeeps(After(selfUp, remoteUp, gated, front), last.event, last.at);
    } else {
      var w := After(selfUp, remoteUp, gated, log);
      assert w.live == Start(selfUp, remoteUp, gated) && w.seen == StartSeen(selfUp, remoteUp);
    }
  }

  /** The table is the list of outages: its closed rows are exactly the outages that are over and
      lasted a second, each under one id; rows of a track are disjoint and in order of time. */
  lemma LedgerIsExact(selfUp: bool, remoteUp: bool, gated: bool, log: seq<Entry>, g: Gap)
    requires Possible(Start(selfUp, remoteUp, gated), log) && g.endMs.Some?
    ensures var w := After(selfUp, remoteUp, gated, log);
            && (Recorded(w.live.rows, g) <==> g in w.seen.outages && g.startMs + 1000 <= g.endMs.value)
            && (forall i, j :: i in w.live.rows && j in w.live.rows && w.live.rows[i] == g && w.live.rows[j] == g ==>
                 i == j)
            && RowsOrdered(w.live.rows)
  {
    RunKeeps(selfUp, remoteUp, gated, log);
    var rows := After(selfUp, remoteUp, gated, log).live.rows;
    forall i, j | i in rows && j in rows && rows[i] == g && rows[j] == g ensures i == j {
      OneId(After(selfUp, remoteUp, gated, log), i, j, g);
    }
  }

  lemma OneId(w: World, i: nat, j: nat, g: Gap)
    requires TableOk(w) && i in w.live.rows && j in w.live.rows && w.live.rows[i] == g && w.live.rows[j] == g
             && g.endMs.Some?
    ensures i == j
  {
    var l := w.live;
    RowIsOk(w, i);
    assert l.rows[i].track == l.rows[j].track;
  }

  ghost predicate IsOpen(l: Live, k: TrackKind, id: nat) {
    id in l.rows && l.rows[id].track == k && l.rows[id].endMs.None?
  }

  ghost predicate Down(s: Status) {
    s.Retrying? || s.GaveUp?
  }

  /** At most one open row a track, and one exactly while the track is down: it starts when the
      outage did, however many attempts have failed since. */
  lemma OpenRowsAreOutages(selfUp: bool, remoteUp: bool, gated: bool, log: seq<Entry>, k: TrackKind)
    requires Possible(Start(selfUp, remoteUp, gated), log)
    ensures var w := After(selfUp, remoteUp, gated, log);
            && (forall i, j :: IsOpen(w.live, k, i) && IsOpen(w.live, k, j) ==> i == j)
            && ((exists i :: IsOpen(w.live, k, i)) <==> Down(w.seen.At(k)))
            && (forall i :: IsOpen(w.live, k, i) ==> w.live.rows[i].startMs == w.seen.At(k).since)
  {
    RunKeeps(selfUp, remoteUp, gated, log);
    var w := After(selfUp, remoteUp, gated, log);
    var l := w.live;
    forall i: nat | IsOpen(l, k, i) ensures l.At(k).reconnect.openGapId == Some(i) {
      RowIsOk(w, i);
    }
    if Down(w.seen.At(k)) {
      assert IsOpen(l, k, l.At(k).reconnect.openGapId.value);
    }
  }

  /** A live session has nothing to recover from; and a session is live exactly when it is up. */
  lemma LiveIsHealthy(selfUp: bool, remoteUp: bool, gated: bool, log: seq<Entry>, k: TrackKind)
    requires Possible(Start(selfUp, remoteUp, gated), log)
    ensures var w := After(selfUp, remoteUp, gated, log);
            && (w.live.At(k).session.Some? <==> w.seen.At(k).Up?)
            && (w.live.At(k).session.Some? ==> w.live.At(k).reconnect == HEALTHY && w.live.audioOpen)
  {
    RunKeeps(selfUp, remoteUp, gated, log);
  }

  /** Reconnecting never stalls: a track that dropped with a retryable error has an armed deadline
      or an attempt under way, never both, until the audio closes, and one of them can move it. */
  lemma RetryingNeverStalls(selfUp: bool, remoteUp: bool, gated: bool, log: seq<Entry>, k: TrackKind)
    requires Possible(Start(selfUp, remoteUp, gated), log)
    ensures var w := After(selfUp, remoteUp, gated, log);
            var r := w.live.At(k).reconnect;
            && (w.seen.At(k).Retrying? ==>
                  && w.live.audioOpen && r.retryAt.Some? == !r.inFlight
                  && r.disconnectedAt == Some(w.seen.At(k).since) == r.openGapStartMs
                  && exists at: nat :: at <= w.live.now + 30000
                       && (Enabled(w.live, RetryTimer(k), at) || Enabled(w.live, ReconnectDone(k, true), at)))
            && (w.live.audioOpen && !w.seen.At(k).Retrying? ==> r.retryAt.None? && !r.inFlight)
            && (w.live.audioOpen <==> !w.seen.At(k).Ended?)
  {
    RunKeeps(selfUp, remoteUp, gated, log);
    var w := After(selfUp, remoteUp, gated, log);
    var r := w.live.At(k).reconnect;
    if w.seen.At(k).Retrying? {
      if r.inFlight {
        assert Enabled(w.live, ReconnectDone(k, true), w.live.now);
      } else {
        var at := if r.retryAt.value >= w.live.now then r.retryAt.value else w.live.now;
        assert Enabled(w.live, RetryTimer(k), at);
      }
    }
  }

  /** Once the audio is closed: no session, no attempt, no open row; and no later turn installs a
      session, touches the table or finalizes anything. */
  lemma ClosedIsFinal(selfUp: bool, remoteUp: bool, gated: bool, log: seq<Entry>, e: Event, at: nat)
    requires Possible(Start(selfUp, remoteUp, gated), log)
    ensures var l := After(selfUp, remoteUp, gated, log).live;
            !l.audioOpen ==>
              && (forall id :: id in l.rows ==> l.rows[id].endMs.Some?)
              && LiveSessions(l) == [] && !l.self.reconnect.inFlight && !l.remote.reconnect.inFlight
              && (Enabled(l, e, at) ==>
                    var l' := Turn(l, e, at);
                    l'.rows == l.rows && l'.finalized == l.finalized && LiveSessions(l') == [] && !l'.audioOpen)
  {
    RunKeeps(selfUp, remoteUp, gated, log);
    var l := After(selfUp, remoteUp, gated, log).live;
    if !l.audioOpen {
      forall id | id in l.rows ensures l.rows[id].endMs.Some? {
        RowIsOk(After(selfUp, remoteUp, gated, log), id);
      }
      hide TableOk, SessionsOk, Turn, After;
      if Enabled(l, e, at) {
        ClosedTurn(l, e, at);
      }
    }
  }

  lemma ClosedTurn(l: Live, e: Event, at: nat)
    requires !l.audioOpen && l.self.session.None? && l.remote.session.None? && Enabled(l, e, at)
    requires !l.self.reconnect.inFlight && !l.remote.reconnect.inFlight
    ensures var l' := Turn(l, e, at);
            l'.rows == l.rows && l'.finalized == l.finalized && LiveSessions(l') == [] && !l'.audioOpen
  {
  }

  /** Every session that is live when the audio closes is finalized then, exactly once, and no
      other session ever is. */
  lemma FinalizedOnce(selfUp: bool, remoteUp: bool, gated: bool, log: seq<Entry>, at: nat)
    requires Possible(Start(selfUp, remoteUp, gated), log)
    ensures var l := After(selfUp, remoteUp, gated, log).live;
            && (l.audioOpen ==> l.finalized == [])
            && (Enabled(l, AudioClosed, at) ==> Turn(l, AudioClosed, at).finalized == LiveSessions(l))
            && Distinct(l.finalized)
  {
    RunKeeps(selfUp, remoteUp, gated, log);
    var l := After(selfUp, remoteUp, gated, log).live;
    CloseAudioAtOnce(l.(now := at));
    assert [] + LiveSessions(l) == LiveSessions(l);
  }
}
