/**
  When the session of a remote track is live, from the events alone.

  `OnAir` is kept beside the track without any of its operations: a session comes up with a
  reconnect and goes down with a send that fails, a keepalive that was due and fails, or a
  disconnect. A keepalive is due when nothing was sent, answered or reconnected for the idle time.
*/
module RemoteLiveness {
  import opened Prelude
  import opened GateModel
  import opened MapperModel
  import opened RemoteModel
  import opened RemoteProofs

  /** `lastActive`: the time of the last gated send, answered keepalive or reconnect. `taken`: what
      was captured while the present session was live. `injected`: the samples its keepalives put
      in. */
  datatype OnAir<T> = OnAir(live: bool, lastActive: nat, gate: Option<Gate<T>>, taken: seq<T>, injected: nat)

  /** What the gate makes of a chunk; without a gate the chunk is one send. */
  ghost function Outgoing<T>(c: Config, loudness: Loudness<T>, gate: Option<Gate<T>>, samples: seq<T>): seq<Action<T>>
    requires c.Valid()
  {
    if gate.None? then [Send(samples)] else Process(c, loudness, gate.value, samples).1
  }

  ghost predicate KeepAliveDue<T>(a: OnAir<T>, at: nat) {
    a.live && a.gate.Some? && at >= a.lastActive + 5000
  }

  /** The events that end a live session. */
  ghost predicate Ends<T>(c: Config, loudness: Loudness<T>, a: OnAir<T>, e: Event<T>)
    requires c.Valid()
  {
    match e
    case Chunk(samples, failAt, _) => IsSend(Outgoing(c, loudness, a.gate, samples), failAt)
    case KeepAlive(effect, at) => effect.Failed? && KeepAliveDue(a, at)
    case Disconnected => true
    case Reconnected(_, _) => false
  }

  ghost function Next<T>(c: Config, loudness: Loudness<T>, a: OnAir<T>, e: Event<T>): OnAir<T>
    requires c.Valid()
  {
    var live := if e.Reconnected? then true else a.live && !Ends(c, loudness, a, e);
    match e
    case Chunk(samples, _, at) =>
      if !a.live then a
      else
        var sends := exists i: nat :: IsSend(Outgoing(c, loudness, a.gate, samples), i);
        OnAir(live,
              if a.gate.Some? && sends then at else a.lastActive,
              if a.gate.Some? then Some(Process(c, loudness, a.gate.value, samples).0) else None,
              a.taken + samples,
              a.injected)
    case KeepAlive(effect, at) =>
      a.(live := live,
         lastActive := if KeepAliveDue(a, at) && !effect.Failed? then at else a.lastActive,
         injected := a.injected + if KeepAliveDue(a, at) && effect.InjectedAudio? then effect.samples else 0)
    case Disconnected => a.(live := live)
    case Reconnected(_, at) => a.(live := live, lastActive := at, taken := [], injected := 0)
  }

  ghost function Account<T>(c: Config, loudness: Loudness<T>, live: bool, gated: bool, now: nat,
                            events: seq<Event<T>>): OnAir<T>
    requires c.Valid()
  {
    if events == [] then OnAir(live, now, if gated then Some(Gate(Silent, [], 0)) else None, [], 0)
    else
      var n := |events| - 1;
      Next(c, loudness, Account(c, loudness, live, gated, now, events[..n]), events[n])
  }

  // ---- The track keeps this account -------------------------------------------------

  ghost predicate Agrees<T>(k: Track<T>, a: OnAir<T>) {
    && k.remote.live == a.live && k.remote.lastActive == a.lastActive && k.remote.gate == a.gate
    && k.remote.totalInjected == a.injected
  }

  lemma MoreSends<T>(actions: seq<Action<T>>, failAt: nat)
    requires actions != []
    ensures var n := |actions| - 1;
            && (IsSend(actions, failAt) <==>
                  IsSend(actions[..n], failAt) || (failAt == n && !actions[n].Drop?))
            && ((exists i: nat :: IsSend(actions, i)) <==>
                  (exists i: nat :: IsSend(actions[..n], i)) || !actions[n].Drop?)
  {
    var n := |actions| - 1;
    if i: nat :| IsSend(actions, i) {
      assert i == n || IsSend(actions[..n], i);
    }
    if i: nat :| IsSend(actions[..n], i) {
      assert IsSend(actions, i);
    }
    if !actions[n].Drop? {
      assert IsSend(actions, n);
    }
  }

  /** The actions of one chunk: the session goes with the send that fails, and any send is activity. */
  lemma {:induction false} ActionsOnAir<T>(k: Track<T>, actions: seq<Action<T>>, failAt: nat, now: nat)
    ensures var k' := ActAllTrack(k, actions, failAt, now);
            && k'.remote.gate == k.remote.gate && k'.remote.totalInjected == k.remote.totalInjected
            && k'.remote.live == (k.remote.live && !IsSend(actions, failAt))
            && k'.remote.lastActive == if exists i: nat :: IsSend(actions, i) then now else k.remote.lastActive
  {
    hide ActTrack, IsSend;
    if actions == [] {
      NoSends<T>(failAt);
    } else {
      var n := |actions| - 1;
      ActionsOnAir(k, actions[..n], failAt, now);
      ActOnAir(ActAllTrack(k, actions[..n], failAt, now), actions[n], failAt == n, now);
      MoreSends(actions, failAt);
    }
  }

  lemma NoSends<T>(failAt: nat)
    ensures !IsSend<T>([], failAt) && forall i: nat :: !IsSend<T>([], i)
  {
  }

  lemma ActOnAir<T>(k: Track<T>, a: Action<T>, fails: bool, now: nat)
    ensures var k' := ActTrack(k, a, fails, now);
            && k'.remote.gate == k.remote.gate && k'.remote.totalInjected == k.remote.totalInjected
            && k'.remote.live == (k.remote.live && !(fails && !a.Drop?))
            && k'.remote.lastActive == if a.Drop? then k.remote.lastActive else now
  {
    hide Traced, Record;
  }

  lemma StepOnAir<T>(c: Config, loudness: Loudness<T>, k: Track<T>, a: OnAir<T>, e: Event<T>)
    requires c.Valid() && Agrees(k, a)
    ensures Agrees(Step(c, loudness, k, e), Next(c, loudness, a, e))
  {
    hide Process, IsSend;
    match e
    case Chunk(samples, failAt, at) =>
      if k.remote.live && k.remote.gate.Some? {
        var (g, actions) := Process(c, loudness, k.remote.gate.value, samples);
        ActionsOnAir(Track(k.remote.(gate := Some(g)), Fed(k.trace, samples)), actions, failAt, at);
      } else if k.remote.live {
        OneSend(samples, failAt);
      }
    case _ =>
  }

  lemma OneSend<T>(samples: seq<T>, failAt: nat)
    ensures IsSend([Send(samples)], failAt) <==> failAt == 0
  {
  }

  lemma {:induction false} RunOnAir<T>(c: Config, loudness: Loudness<T>, live: bool, gated: bool, now: nat,
                                       events: seq<Event<T>>)
    requires c.Valid()
    ensures Agrees(Run(c, loudness, Start(live, gated, now), events),
                   Account(c, loudness, live, gated, now, events))
  {
    hide Step, Next;
    if events != [] {
      var n := |events| - 1;
      RunOnAir(c, loudness, live, gated, now, events[..n]);
      StepOnAir(c, loudness, Run(c, loudness, Start(live, gated, now), events[..n]),
                Account(c, loudness, live, gated, now, events[..n]), events[n]);
    }
  }

  // ---- Liveness, without recursion --------------------------------------------------

  ghost predicate EndsAt<T>(c: Config, loudness: Loudness<T>, live: bool, gated: bool, now: nat,
                            events: seq<Event<T>>, j: nat)
    requires c.Valid() && j < |events|
  {
    Ends(c, loudness, Account(c, loudness, live, gated, now, events[..j]), events[j])
  }

  /** A session came up at `i`, or was up at the start, and nothing has ended it since. */
  ghost predicate UpSince<T>(c: Config, loudness: Loudness<T>, live: bool, gated: bool, now: nat,
                             events: seq<Event<T>>, i: nat)
    requires c.Valid()
  {
    && i <= |events|
    && (if i == 0 then live else events[i - 1].Reconnected?)
    && forall j :: i <= j < |events| ==> !EndsAt(c, loudness, live, gated, now, events, j)
  }

  lemma UpSinceEarlier<T>(c: Config, loudness: Loudness<T>, live: bool, gated: bool, now: nat,
                          events: seq<Event<T>>, i: nat)
    requires c.Valid() && events != []
    ensures var n := |events| - 1;
            UpSince(c, loudness, live, gated, now, events, i) <==>
              || (i == n + 1 && events[n].Reconnected?)
              || (UpSince(c, loudness, live, gated, now, events[..n], i)
                  && !EndsAt(c, loudness, live, gated, now, events, n))
  {
    hide Ends, Account;
    var front := events[..|events| - 1];
    forall j: nat | j < |front|
      ensures EndsAt(c, loudness, live, gated, now, front, j) == EndsAt(c, loudness, live, gated, now, events, j)
    {
      assert front[..j] == events[..j];
    }
  }

  lemma {:induction false} AccountLive<T>(c: Config, loudness: Loudness<T>, live: bool, gated: bool, now: nat,
                                          events: seq<Event<T>>)
    requires c.Valid()
    ensures Account(c, loudness, live, gated, now, events).live <==>
              exists i: nat :: UpSince(c, loudness, live, gated, now, events, i)
  {
    if events == [] {
      assert UpSince(c, loudness, live, gated, now, events, 0) <==> live;
    } else {
      hide Ends, UpSince;
      var n := |events| - 1;
      var front := events[..n];
      AccountLive(c, loudness, live, gated, now, front);
      LastEvent(c, loudness, live, gated, now, events);
      UpNow(c, loudness, live, gated, now, events);
      if Account(c, loudness, live, gated, now, events).live && !events[n].Reconnected? {
        var i: nat :| UpSince(c, loudness, live, gated, now, front, i);
        UpSinceEarlier(c, loudness, live, gated, now, events, i);
      }
      if i: nat :| UpSince(c, loudness, live, gated, now, events, i) {
        UpSinceEarlier(c, loudness, live, gated, now, events, i);
      }
    }
  }

  lemma UpNow<T>(c: Config, loudness: Loudness<T>, live: bool, gated: bool, now: nat, events: seq<Event<T>>)
    requires c.Valid() && events != []
    ensures UpSince(c, loudness, live, gated, now, events, |events|) <==> events[|events| - 1].Reconnected?
  {
    hide EndsAt;
  }

  lemma LastEvent<T>(c: Config, loudness: Loudness<T>, live: bool, gated: bool, now: nat, events: seq<Event<T>>)
    requires c.Valid() && events != []
    ensures var n := |events| - 1;
            Account(c, loudness, live, gated, now, events).live <==>
              || events[n].Reconnected?
              || (Account(c, loudness, live, gated, now, events[..n]).live
                  && !EndsAt(c, loudness, live, gated, now, events, n))
  {
    hide Process, IsSend;
  }

  /** The session is live if and only if it was up at the start or has been reconnected, and since
      then no send failed, no keepalive that was due failed, and no disconnect came. */
  lemma LiveExactly<T>(c: Config, loudness: Loudness<T>, live: bool, gated: bool, now: nat, events: seq<Event<T>>)
    requires c.Valid()
    ensures Run(c, loudness, Start(live, gated, now), events).remote.live <==>
              exists i: nat :: UpSince(c, loudness, live, gated, now, events, i)
  {
    hide Run, Account, UpSince;
    RunOnAir(c, loudness, live, gated, now, events);
    AccountLive(c, loudness, live, gated, now, events);
  }

  /** The provider's clock counts exactly the samples that due keepalives put in, and a keepalive is
      due by the account of what was sent. */
  lemma InjectedExactly<T>(c: Config, loudness: Loudness<T>, live: bool, gated: bool, now: nat,
                           events: seq<Event<T>>)
    requires c.Valid()
    ensures var r, a := Run(c, loudness, Start(live, gated, now), events).remote,
                        Account(c, loudness, live, gated, now, events);
            r.totalInjected == a.injected && r.lastActive == a.lastActive
  {
    RunOnAir(c, loudness, live, gated, now, events);
  }

  // ---- A track without a gate -------------------------------------------------------

  lemma UngatedStep<T>(c: Config, loudness: Loudness<T>, k: Track<T>, a: OnAir<T>, e: Event<T>)
    requires c.Valid() && UngatedOk(k) && Agrees(k, a) && k.trace.wire == Cells(a.taken)
    ensures Step(c, loudness, k, e).trace.wire == Cells(Next(c, loudness, a, e).taken)
  {
    hide Process, IsSend;
    match e
    case Chunk(samples, failAt, at) =>
      if k.remote.live {
        UngatedSent(k.trace, samples);
        CellsConcat(a.taken, samples);
      }
    case KeepAlive(effect, at) => UngatedKeepAlive(c, loudness, k, effect, at);
    case Disconnected =>
    case Reconnected(outage, at) => assert Cells<T>([]) == [];
  }

  /** Without a gate, the provider is sent exactly what was captured while its session was live, and
      its clock counts exactly that. */
  lemma {:induction false} UngatedSendsAll<T>(c: Config, loudness: Loudness<T>, live: bool, now: nat,
                                              events: seq<Event<T>>)
    requires c.Valid()
    ensures var k, a := Run(c, loudness, Start(live, false, now), events),
                        Account(c, loudness, live, false, now, events);
            && k.trace.wire == Cells(a.taken)
            && k.remote.samplesSent == |a.taken| && k.remote.totalInjected == 0 && k.remote.netOffset == 0
  {
    hide Step, Next, UngatedOk;
    RunKeeps(c, loudness, live, false, now, events);
    UngatedCounts(c, Run(c, loudness, Start(live, false, now), events));
    if events == [] {
      assert Cells<T>([]) == [];
    } else {
      var n := |events| - 1;
      var k := Run(c, loudness, Start(live, false, now), events[..n]);
      UngatedSendsAll(c, loudness, live, now, events[..n]);
      RunOnAir(c, loudness, live, false, now, events[..n]);
      RunKeeps(c, loudness, live, false, now, events[..n]);
      UngatedStep(c, loudness, k, Account(c, loudness, live, false, now, events[..n]), events[n]);
    }
  }

  lemma UngatedCounts<T>(c: Config, k: Track<T>)
    requires TrackOk(c, k) && k.remote.gate.None?
    ensures UngatedOk(k) && k.remote.samplesSent == |k.trace.wire|
    ensures k.remote.totalInjected == 0 && k.remote.netOffset == 0
  {
  }
}
