/** What viewers and hosts may rely on, over every run of the screen relay. */
module ScreenAudience {
  import opened Wrappers
  import opened ScreenDemand

  const INIT := Relay(map[], map[], map[], map[], map[], {}, 0)

  datatype Timed = Timed(step: Step, now: int)

  ghost predicate Run(r: Relay, steps: seq<Timed>)
    decreases |steps|
  {
    steps == []
    || (Enabled(r, steps[0].step) && r.clock <= steps[0].now && Run(Next(r, steps[0].step, steps[0].now), steps[1..]))
  }

  ghost function Final(r: Relay, steps: seq<Timed>): Relay
    requires Run(r, steps)
    decreases |steps|
  {
    if steps == [] then r else Final(Next(r, steps[0].step, steps[0].now), steps[1..])
  }

  lemma NextKeeps(r: Relay, s: Step, now: int)
    requires Inv(r) && Enabled(r, s) && r.clock <= now
    ensures Inv(Next(r, s, now))
  {
    AfterKeeps(r, s, now);
    ClockKeeps(After(r, s, now), now);
  }

  lemma {:induction false} RunKeeps(r: Relay, steps: seq<Timed>)
    requires Inv(r) && Run(r, steps)
    ensures Inv(Final(r, steps)) && r.clock <= Final(r, steps).clock
    decreases |steps|
  {
    if steps != [] {
      NextKeeps(r, steps[0].step, steps[0].now);
      RunKeeps(Next(r, steps[0].step, steps[0].now), steps[1..]);
    }
  }

  lemma Always(steps: seq<Timed>)
    requires Run(INIT, steps)
    ensures Inv(Final(INIT, steps))
  {
    assert Inv(INIT);
    RunKeeps(INIT, steps);
  }

  // ---- Frames ---------------------------------------------------------------------------------

  /** An on-demand host has a stored frame only while its lease map is non-empty, and the frame was
      uploaded in the epoch of those leases. */
  lemma FramesAreWatched(steps: seq<Timed>, d: string)
    requires Run(INIT, steps)
    ensures var r := Final(INIT, steps);
            OnDemand(r, d) && d in r.frames ==>
              DemandOf(r, d).viewers != map[] && r.frames[d].under == EpochOf(r, d)
  {
    Always(steps);
    assert FrameOk(Final(INIT, steps), d);
  }

  /** A frame read for an HTTP viewer, whenever that happens, was uploaded in the epoch current then,
      and that epoch has an audience. */
  lemma ReadFramesAreCurrent(steps: seq<Timed>, d: string, now: int)
    requires Run(INIT, steps)
    ensures var r := Final(INIT, steps); var f := ReadFrame(r, d, now);
            f.Ok? && OnDemand(r, d) ==> f.value.under == EpochOf(r, d) && DemandOf(r, d).viewers != map[]
  {
    Always(steps);
    assert FrameOk(Final(INIT, steps), d);
  }

  /** A fetch that is not refused holds a live lease when it has renewed it. */
  lemma RenewalHoldsALease(r: Relay, d: string, token: string, now: int)
    ensures var n := RenewUrl(r, d, token, now);
            (n.1 <==> ValidViewer(r, d, token, now)) && (n.1 ==> LeaseAlive(n.0, d, Url(token), now))
  {
    if ValidViewer(r, d, token, now) {
      TouchShape(r, d, token, now);
      RenewShape(Touch(r, token, now), d, token, Url(token), now);
    }
  }

  /** A WebSocket viewer is only ever sent frames of the epoch it joined, which is still the
      current one; its joining epoch is fixed. */
  lemma SocketsSeeOneEpoch(steps: seq<Timed>, id: nat, now: int)
    requires Run(INIT, steps) && id in Final(INIT, steps).sockets && Final(INIT, steps).sockets[id].queue != []
    ensures var r := Final(INIT, steps); var v := r.sockets[id]; var sent := Deliver(r, id, now);
            sent.1.Some? ==> sent.1.value.under == v.joined == EpochOf(r, v.device)
  {
    Always(steps);
    var r := Final(INIT, steps);
    assert SocketOk(r, id);
    assert r.sockets[id].queue[0] in r.sockets[id].queue;
  }

  lemma ReleaseFrame(r: Relay, d: string, key: Key, now: int)
    ensures var s := Release(r, d, key, now);
            s.sockets == r.sockets && s.sessions == r.sessions && s.issued == r.issued
  {
  }

  /** A viewer's socket goes on under the same device and joining epoch. */
  ghost predicate SameViewer(r: Relay, s: Relay, id: nat)
    requires id in r.sockets
  {
    id in s.sockets ==>
      s.sockets[id].joined == r.sockets[id].joined && s.sockets[id].device == r.sockets[id].device
  }

  lemma ClosingSameViewer(r: Relay, other: nat, now: int, id: nat)
    requires id in r.sockets && other in r.sockets
    ensures SameViewer(r, CloseSocket(r, other, now), id)
  {
    ReleaseFrame(r, r.sockets[other].device, Socket(other), now);
  }

  lemma PongSameViewer(r: Relay, other: nat, now: int, id: nat)
    requires id in r.sockets && other in r.sockets
    ensures SameViewer(r, Pong(r, other, now), id)
  {
    ClosingSameViewer(r, other, now, id);
    RenewShape(r, r.sockets[other].device, r.sockets[other].token, Socket(other), now);
    ClosingSameViewer(Renew(r, r.sockets[other].device, r.sockets[other].token, Socket(other), now).0, other, now, id);
  }

  lemma UploadSameViewer(r: Relay, d: string, token: string, epoch: Option<nat>, image: seq<bv8>, now: int, id: nat)
    requires id in r.sockets
    ensures SameViewer(r, Upload(r, d, token, epoch, image, now).0, id)
  {
    PruneShape(r, d, now);
  }

  lemma SocketKeepsItsEpoch(r: Relay, s: Step, now: int, id: nat)
    requires Enabled(r, s) && id in r.sockets
    ensures SameViewer(r, After(r, s, now), id)
  {
    match s
    case Get(d, token) => RenewShape(Touch(r, token, now), d, token, Url(token), now);
    case Put(d, token, epoch, image) => UploadSameViewer(r, d, token, epoch, image, now, id);
    case Enter(d, token, other) => RenewShape(r, d, token, Socket(other), now);
    case Send(other) => ClosingSameViewer(r, other, now, id);
    case Renewed(other) => PongSameViewer(r, other, now, id);
    case Leave(other) => ClosingSameViewer(r, other, now, id);
    case _ =>
  }

  // ---- Epochs -----------------------------------------------------------------------------------

  /** A step by which a valid viewer of d asks for a lease. */
  predicate Joins(r: Relay, s: Step, d: string, now: int) {
    (s.Get? || s.Enter?) && s.d == d && ValidViewer(r, d, s.token, now)
  }

  lemma TouchShape(r: Relay, d: string, token: string, now: int)
    ensures LiveViewers(Touch(r, token, now), d, now) == LiveViewers(r, d, now)
    ensures ValidViewer(r, d, token, now) ==> ValidViewer(Touch(r, token, now), d, token, now)
  {
  }

  ghost predicate NoNewLease(r: Relay, s: Relay, d: string) {
    EpochOf(s, d) == EpochOf(r, d)
    && forall k :: k in DemandOf(s, d).viewers ==>
         k in DemandOf(r, d).viewers && DemandOf(s, d).viewers[k] == DemandOf(r, d).viewers[k]
  }

  lemma FewerAddsNone(r: Relay, d: string, viewers: map<Key, Lease>, clear: bool, e: string)
    requires forall k :: k in viewers ==> k in DemandOf(r, d).viewers && viewers[k] == DemandOf(r, d).viewers[k]
    ensures NoNewLease(r, WithViewers(r, d, viewers, clear), e)
  {
  }

  lemma ReleaseAddsNone(r: Relay, d: string, key: Key, now: int, e: string)
    ensures NoNewLease(r, Release(r, d, key, now), e)
  {
    if d in r.demands {
      ReleaseShape(r, d, key, now);
      FewerAddsNone(r, d, Without(r, d, key, now), Without(r, d, key, now) == map[], e);
    }
  }

  lemma CloseSocketAddsNone(r: Relay, id: nat, now: int, e: string)
    requires id in r.sockets
    ensures NoNewLease(r, CloseSocket(r, id, now), e)
  {
    ReleaseAddsNone(r, r.sockets[id].device, Socket(id), now, e);
  }

  lemma PongAddsNone(r: Relay, id: nat, now: int, e: string)
    requires id in r.sockets
    ensures EpochOf(Pong(r, id, now), e) == EpochOf(r, e)
    ensures LiveViewers(r, e, now) == map[] ==> NoNewLease(r, Pong(r, id, now), e)
  {
    var v := r.sockets[id];
    if SocketAlive(r, id, now) {
      assert Socket(id) in LiveViewers(r, v.device, now);
      RenewShape(r, v.device, v.token, Socket(id), now);
      var n := Renew(r, v.device, v.token, Socket(id), now);
      if !n.1 {
        CloseSocketAddsNone(n.0, id, now, e);
      }
    } else {
      CloseSocketAddsNone(r, id, now, e);
    }
  }

  lemma UploadAddsNone(r: Relay, d: string, token: string, epoch: Option<nat>, image: seq<bv8>, now: int, e: string)
    ensures NoNewLease(r, Upload(r, d, token, epoch, image, now).0, e)
  {
    PruneShape(r, d, now);
  }

  lemma CloseAddsNone(r: Relay, d: string, token: string, now: int, e: string)
    ensures NoNewLease(r, CloseSession(r, d, token, now).0, e)
  {
    var q := r.(demands := r.demands[d := DemandOf(r, d)]);
    PruneShape(q.(sessions := q.sessions - {token}), d, now);
  }

  lemma StopAddsNone(r: Relay, d: string, token: string, now: int, e: string)
    ensures NoNewLease(r, StopScreen(r, d, token, now).0, e)
  {
  }

  lemma RenewalShape(r: Relay, d: string, token: string, key: Key, now: int, e: string)
    ensures var joins := d == e && ValidViewer(r, d, token, now); var s := Renew(r, d, token, key, now).0;
            EpochOf(s, e) == EpochOf(r, e) + (if joins && LiveViewers(r, e, now) == map[] then 1 else 0)
            && (!joins ==> NoNewLease(r, s, e))
  {
    RenewShape(r, d, token, key, now);
  }

  lemma GetShape(r: Relay, d: string, token: string, now: int, e: string)
    ensures var joins := d == e && ValidViewer(r, d, token, now); var s := RenewUrl(r, d, token, now).0;
            EpochOf(s, e) == EpochOf(r, e) + (if joins && LiveViewers(r, e, now) == map[] then 1 else 0)
            && (!joins ==> NoNewLease(r, s, e))
  {
    if ValidViewer(r, d, token, now) {
      TouchShape(r, d, token, now);
      RenewalShape(Touch(r, token, now), d, token, Url(token), now, e);
    }
  }

  lemma EnterShape(r: Relay, d: string, token: string, id: nat, now: int, e: string)
    ensures var joins := d == e && ValidViewer(r, d, token, now); var s := Join(r, d, token, id, now);
            EpochOf(s, e) == EpochOf(r, e) + (if joins && LiveViewers(r, e, now) == map[] then 1 else 0)
            && (!joins ==> NoNewLease(r, s, e))
  {
    RenewalShape(r, d, token, Socket(id), now, e);
  }

  lemma JoinShape(r: Relay, s: Step, now: int, e: string)
    requires Enabled(r, s) && (s.Get? || s.Enter?)
    ensures EpochOf(After(r, s, now), e)
            == EpochOf(r, e) + (if Joins(r, s, e, now) && LiveViewers(r, e, now) == map[] then 1 else 0)
    ensures !Joins(r, s, e, now) ==> NoNewLease(r, After(r, s, now), e)
  {
    if s.Get? {
      GetShape(r, s.d, s.token, now, e);
    } else {
      EnterShape(r, s.d, s.token, s.id, now, e);
    }
  }

  lemma OthersAddNone(r: Relay, s: Step, now: int, e: string)
    requires Enabled(r, s) && !s.Get? && !s.Enter? && !s.Renewed?
    ensures NoNewLease(r, After(r, s, now), e)
  {
    match s
    case PruneAll(d) => PruneShape(r, d, now);
    case Put(d, token, epoch, image) => UploadAddsNone(r, d, token, epoch, image, now, e);
    case Stop(d, token) => StopAddsNone(r, d, token, now, e);
    case Close(d, token) => CloseAddsNone(r, d, token, now, e);
    case Send(id) =>
      if !SocketAlive(r, id, now) {
        CloseSocketAddsNone(r, id, now, e);
      }
    case Leave(id) => CloseSocketAddsNone(r, id, now, e);
    case _ =>
  }

  /** The epoch grows, by one, exactly when a valid viewer arrives while no lease is alive. */
  lemma EpochGrowsExactly(r: Relay, s: Step, now: int, d: string)
    requires Enabled(r, s)
    ensures EpochOf(After(r, s, now), d)
            == EpochOf(r, d) + (if Joins(r, s, d, now) && LiveViewers(r, d, now) == map[] then 1 else 0)
  {
    if s.Get? || s.Enter? {
      JoinShape(r, s, now, d);
    } else if s.Renewed? {
      PongAddsNone(r, s.id, now, d);
    } else {
      OthersAddNone(r, s, now, d);
    }
  }

  // ---- An ended audience ---------------------------------------------------------------------------

  /** The audience of epoch e is over: a later one began, or nobody is left in it. */
  ghost predicate Ended(r: Relay, d: string, e: nat, now: int) {
    EpochOf(r, d) > e || (EpochOf(r, d) == e && LiveViewers(r, d, now) == map[])
  }

  ghost predicate NoRevival(r: Relay, s: Relay) {
    s.issued == r.issued && s.sessions.Keys <= r.sessions.Keys
  }

  lemma ClosingRevivesNone(r: Relay, id: nat, now: int)
    requires id in r.sockets
    ensures NoRevival(r, CloseSocket(r, id, now))
  {
    ReleaseFrame(r, r.sockets[id].device, Socket(id), now);
  }

  lemma PongRevivesNone(r: Relay, id: nat, now: int)
    requires id in r.sockets
    ensures NoRevival(r, Pong(r, id, now))
  {
    ClosingRevivesNone(r, id, now);
    RenewShape(r, r.sockets[id].device, r.sockets[id].token, Socket(id), now);
    ClosingRevivesNone(Renew(r, r.sockets[id].device, r.sockets[id].token, Socket(id), now).0, id, now);
  }

  lemma HandlersReviveNone(r: Relay, d: string, token: string, epoch: Option<nat>, image: seq<bv8>, now: int)
    ensures NoRevival(r, Upload(r, d, token, epoch, image, now).0)
    ensures NoRevival(r, CloseSession(r, d, token, now).0)
  {
    PruneShape(r, d, now);
    var q := r.(demands := r.demands[d := DemandOf(r, d)]);
    PruneShape(q.(sessions := q.sessions - {token}), d, now);
  }

  lemma SessionsNeverRevive(r: Relay, s: Step, now: int, token: string)
    requires Enabled(r, s) && token in r.issued && token !in r.sessions
    ensures token in After(r, s, now).issued && token !in After(r, s, now).sessions
  {
    match s
    case Get(d, t) => RenewShape(Touch(r, t, now), d, t, Url(t), now);
    case Put(d, t, epoch, image) => HandlersReviveNone(r, d, t, epoch, image, now);
    case Close(d, t) => HandlersReviveNone(r, d, t, None, [], now);
    case Enter(d, t, id) => RenewShape(r, d, t, Socket(id), now);
    case Send(id) => ClosingRevivesNone(r, id, now);
    case Renewed(id) => PongRevivesNone(r, id, now);
    case Leave(id) => ClosingRevivesNone(r, id, now);
    case _ =>
  }

  lemma StaysEmpty(r: Relay, s: Step, t: int, d: string, now: int)
    requires Inv(r) && Enabled(r, s) && t <= now && LiveViewers(r, d, t) == map[]
    requires NoNewLease(r, After(r, s, now), d)
    ensures LiveViewers(After(r, s, now), d, now) == map[]
  {
    var a := After(r, s, now);
    forall k | k in DemandOf(a, d).viewers
      ensures !Alive(a, DemandOf(a, d).viewers[k], now)
    {
      var l := DemandOf(a, d).viewers[k];
      assert TokensOk(r, d);
      assert k !in LiveViewers(r, d, t);
      if l.until > now {
        SessionsNeverRevive(r, s, now, l.token);
      }
    }
  }

  lemma EmptyLater(r: Relay, d: string, t: int, now: int)
    requires t <= now && LiveViewers(r, d, t) == map[]
    ensures LiveViewers(r, d, now) == map[]
  {
    forall k | k in DemandOf(r, d).viewers
      ensures !Alive(r, DemandOf(r, d).viewers[k], now)
    {
      assert k !in LiveViewers(r, d, t);
    }
  }

  lemma EndedStep(r: Relay, s: Step, t: int, now: int, d: string, e: nat)
    requires Inv(r) && Enabled(r, s) && t <= now && Ended(r, d, e, t)
    ensures Ended(After(r, s, now), d, e, now)
  {
    EpochGrowsExactly(r, s, now, d);
    if EpochOf(After(r, s, now), d) == e {
      EmptyLater(r, d, t, now);
      if s.Get? || s.Enter? {
        JoinShape(r, s, now, d);
      } else if s.Renewed? {
        PongAddsNone(r, s.id, now, d);
      } else {
        OthersAddNone(r, s, now, d);
      }
      StaysEmpty(r, s, t, d, now);
    }
  }

  lemma {:induction false} EndedForever(r: Relay, steps: seq<Timed>, d: string, e: nat)
    requires Inv(r) && Run(r, steps) && Ended(r, d, e, r.clock)
    ensures Ended(Final(r, steps), d, e, Final(r, steps).clock)
    decreases |steps|
  {
    if steps != [] {
      EndedStep(r, steps[0].step, r.clock, steps[0].now, d, e);
      var n := Next(r, steps[0].step, steps[0].now);
      assert LiveViewers(n, d, n.clock) == LiveViewers(After(r, steps[0].step, steps[0].now), d, steps[0].now);
      NextKeeps(r, steps[0].step, steps[0].now);
      EndedForever(n, steps[1..], d, e);
    }
  }

  ghost predicate StoresNothing(r: Relay, s: Relay) {
    forall d :: d in s.frames ==> d in r.frames && s.frames[d] == r.frames[d]
  }

  /** Once an audience has ended, an upload carrying its epoch is refused for ever. */
  lemma EndedEpochIsRefused(r: Relay, steps: seq<Timed>, d: string, e: nat, token: string, image: seq<bv8>, now: int)
    requires Inv(r) && Run(r, steps) && Ended(r, d, e, r.clock) && Final(r, steps).clock <= now
    ensures var s := Final(r, steps);
            OnDemand(s, d) ==> Upload(s, d, token, Some(e), image, now).1.Some?
                               && Upload(s, d, token, Some(e), image, now).0.sockets == s.sockets
                               && StoresNothing(s, Upload(s, d, token, Some(e), image, now).0)
  {
    EndedForever(r, steps, d, e);
    var s := Final(r, steps);
    PruneShape(s, d, now);
    if EpochOf(s, d) == e {
      EmptyLater(s, d, s.clock, now);
    }
  }

  // ---- A fetch in its two halves ------------------------------------------------------------------

  /** How many audiences of d begin along a run. */
  ghost function Beginnings(r: Relay, steps: seq<Timed>, d: string): nat
    requires Run(r, steps)
    decreases |steps|
  {
    if steps == [] then 0
    else
      (if Joins(r, steps[0].step, d, steps[0].now) && LiveViewers(r, d, steps[0].now) == map[] then 1 else 0)
      + Beginnings(Next(r, steps[0].step, steps[0].now), steps[1..], d)
  }

  lemma {:induction false} EpochCounts(r: Relay, steps: seq<Timed>, d: string)
    requires Run(r, steps)
    ensures EpochOf(Final(r, steps), d) == EpochOf(r, d) + Beginnings(r, steps, d)
    decreases |steps|
  {
    if steps != [] {
      EpochGrowsExactly(r, steps[0].step, steps[0].now, d);
      EpochCounts(Next(r, steps[0].step, steps[0].now), steps[1..], d);
    }
  }

  /** Between the renewal and the read of one fetch anything may happen. The frame read is of the
      audience the viewer renewed its lease in exactly when no audience began in between. */
  lemma FetchedFrameIsOfItsAudience(before: seq<Timed>, d: string, token: string, at: int, between: seq<Timed>,
                                    now: int)
    requires Run(INIT, before)
    ensures var r := Final(INIT, before);
            r.clock <= at && Run(Next(r, Get(d, token), at), between) && RenewUrl(r, d, token, at).1 ==>
              var n := Next(r, Get(d, token), at);
              var s := Final(n, between);
              var f := ReadFrame(s, d, now);
              f.Ok? && OnDemand(s, d) ==> (f.value.under == EpochOf(n, d) <==> Beginnings(n, between, d) == 0)
  {
    Always(before);
    var r := Final(INIT, before);
    if r.clock <= at && Run(Next(r, Get(d, token), at), between) {
      var n := Next(r, Get(d, token), at);
      NextKeeps(r, Get(d, token), at);
      RunKeeps(n, between);
      EpochCounts(n, between, d);
      assert FrameOk(Final(n, between), d);
    }
  }

  // A run in which one does: the first viewer stops between the halves of its fetch, the second starts
  // watching and the host uploads for it.

  const HOST := Host("host", true, 0)
  const SHOWN := Frame([7], 0, 2)

  function Watched(demands: map<string, Demand>, frames: map<string, Frame>): Relay {
    Relay(map["d" := HOST], map["v" := Session("d", 0), "w" := Session("d", 0)], demands, frames, map[], {"v", "w"}, 0)
  }

  function By(token: string): map<Key, Lease> { map[Url(token) := Lease(token, SCREEN_LEASE_MS)] }

  lemma RunStarts(r: Relay, s: Timed, rest: seq<Timed>)
    requires Enabled(r, s.step) && r.clock <= s.now && Run(Next(r, s.step, s.now), rest)
    ensures Run(r, [s] + rest) && Final(r, [s] + rest) == Final(Next(r, s.step, s.now), rest)
  {
    assert ([s] + rest)[1..] == rest;
  }

  lemma TwoViewersOpen()
    ensures var opening := [Timed(Register("d", HOST), 0)] + ([Timed(Open("d", "v"), 0)] + [Timed(Open("d", "w"), 0)]);
            Run(INIT, opening) && Final(INIT, opening) == Watched(map[], map[])
  {
    var one := Next(INIT, Register("d", HOST), 0);
    var two := Next(one, Open("d", "v"), 0);
    RunStarts(two, Timed(Open("d", "w"), 0), []);
    RunStarts(one, Timed(Open("d", "v"), 0), [Timed(Open("d", "w"), 0)]);
    RunStarts(INIT, Timed(Register("d", HOST), 0), [Timed(Open("d", "v"), 0)] + [Timed(Open("d", "w"), 0)]);
    assert Next(two, Open("d", "w"), 0).issued == {"v", "w"};
    assert Next(two, Open("d", "w"), 0).sessions == Watched(map[], map[]).sessions;
  }

  /** Nobody watches; the viewer fetches and starts the next epoch. */
  lemma FirstFetch(demands: map<string, Demand>, e: nat, token: string)
    requires token in {"v", "w"} && DemandOf(Watched(demands, map[]), "d") == Demand(e, map[])
    ensures Next(Watched(demands, map[]), Get("d", token), 0)
            == Watched(demands["d" := Demand(e + 1, By(token))], map[])
    ensures RenewUrl(Watched(demands, map[]), "d", token, 0).1
  {
    var r := Watched(demands, map[]);
    assert Touch(r, token, 0) == r;
    assert LiveViewers(r, "d", 0) == map[];
    var p := Prune(r, "d", 0);
    assert p == Watched(demands["d" := Demand(e, map[])], map[]);
    assert Touch(p, token, 0) == p;
    assert demands["d" := Demand(e, map[])]["d" := Demand(e + 1, By(token))]
        == demands["d" := Demand(e + 1, By(token))];
  }

  lemma ViewerStops()
    ensures Next(Watched(map["d" := Demand(1, By("v"))], map[]), Stop("d", "v"), 0)
            == Watched(map["d" := Demand(1, map[])], map[])
  {
    var r := Watched(map["d" := Demand(1, By("v"))], map[]);
    assert r.(demands := r.demands["d" := DemandOf(r, "d")]) == r && Touch(r, "v", 0) == r;
    assert DemandOf(StopScreen(r, "d", "v", 0).0, "d").viewers == map[];
  }

  lemma HostUploads()
    ensures Next(Watched(map["d" := Demand(2, By("w"))], map[]), Put("d", "host", Some(2), [7]), 0)
            == Watched(map["d" := Demand(2, By("w"))], map["d" := SHOWN])
  {
    var r := Watched(map["d" := Demand(2, By("w"))], map[]);
    assert LiveViewers(r, "d", 0) == By("w") && Url("w") in By("w");
    assert Prune(r, "d", 0) == r;
    assert Push(r, "d", SHOWN) == map[];
  }

  lemma AudienceChanges(between: seq<Timed>)
    requires between == [Timed(Stop("d", "v"), 0)]
                        + ([Timed(Get("d", "w"), 0)] + [Timed(Put("d", "host", Some(2), [7]), 0)])
    ensures var watching := Watched(map["d" := Demand(1, By("v"))], map[]);
            Run(watching, between)
            && Final(watching, between) == Watched(map["d" := Demand(2, By("w"))], map["d" := SHOWN])
  {
    var next := Watched(map["d" := Demand(2, By("w"))], map[]);
    var stopped := Watched(map["d" := Demand(1, map[])], map[]);
    ViewerStops();
    FirstFetch(map["d" := Demand(1, map[])], 1, "w");
    assert map["d" := Demand(1, map[])]["d" := Demand(2, By("w"))] == map["d" := Demand(2, By("w"))];
    HostUploads();
    RunStarts(next, Timed(Put("d", "host", Some(2), [7]), 0), []);
    RunStarts(stopped, Timed(Get("d", "w"), 0), [Timed(Put("d", "host", Some(2), [7]), 0)]);
    RunStarts(Watched(map["d" := Demand(1, By("v"))], map[]), between[0], between[1..]);
  }

  /** The first viewer reads the picture taken for the second. */
  lemma AnotherAudiencesFrame() returns (opening: seq<Timed>, between: seq<Timed>)
    ensures Run(INIT, opening) && Final(INIT, opening).clock <= 0
    ensures var r := Final(INIT, opening); var n := Next(r, Get("d", "v"), 0);
            RenewUrl(r, "d", "v", 0).1 && EpochOf(n, "d") == 1 && Run(n, between)
            && OnDemand(Final(n, between), "d") && ReadFrame(Final(n, between), "d", 0) == Ok(SHOWN) && SHOWN.under == 2
  {
    opening := [Timed(Register("d", HOST), 0)] + ([Timed(Open("d", "v"), 0)] + [Timed(Open("d", "w"), 0)]);
    TwoViewersOpen();
    FirstFetch(map[], 0, "v");
    between := [Timed(Stop("d", "v"), 0)] + ([Timed(Get("d", "w"), 0)] + [Timed(Put("d", "host", Some(2), [7]), 0)]);
    AudienceChanges(between);
    assert map[]["d" := Demand(1, By("v"))] == map["d" := Demand(1, By("v"))];
  }

  // ---- A pong in its two halves -------------------------------------------------------------------

  // A run in which the viewer stops between the check after a pong and the renewal: the socket goes on
  // in the next epoch and is sent frames of both.

  const FIRST := Frame([7], 0, 1)
  const SECOND := Frame([8], 0, 2)

  function OnSocket(e: nat, leased: bool, frames: map<string, Frame>, subscribed: bool, queue: seq<Frame>): Relay {
    Relay(map["d" := HOST], map["v" := Session("d", 0)],
          map["d" := Demand(e, if leased then map[Socket(0) := Lease("v", SCREEN_LEASE_MS)] else map[])],
          frames, map[0 := Viewer("d", "v", 1, subscribed, queue)], {"v"}, 0)
  }

  function Signed(): Relay { Relay(map["d" := HOST], map["v" := Session("d", 0)], map[], map[], map[], {"v"}, 0) }

  lemma SocketEnters()
    ensures Enabled(Signed(), Enter("d", "v", 0))
            && Next(Signed(), Enter("d", "v", 0), 0) == OnSocket(1, true, map[], false, [])
  {
    var r := Signed();
    assert LiveViewers(r, "d", 0) == map[];
    var p := Prune(r, "d", 0);
    assert p.demands == map["d" := Demand(0, map[])];
    assert Touch(p, "v", 0) == p;
    assert Renew(r, "d", "v", Socket(0), 0).0.demands == OnSocket(1, true, map[], false, []).demands;
  }

  lemma SocketSubscribes()
    ensures Next(OnSocket(1, true, map[], false, []), Subscribe(0), 0) == OnSocket(1, true, map[], true, [])
  {
  }

  lemma HostPuts(e: nat, image: seq<bv8>)
    ensures var f := Frame(image, 0, e);
            Next(OnSocket(e, true, map[], true, []), Put("d", "host", Some(e), image), 0)
            == OnSocket(e, true, map["d" := f], true, [f])
  {
    var r := OnSocket(e, true, map[], true, []);
    var viewers := DemandOf(r, "d").viewers;
    assert Socket(0) in viewers && LiveViewers(r, "d", 0) == viewers;
    assert Prune(r, "d", 0) == r;
    var f := Frame(image, 0, e);
    assert [] + [f] == [f];
    assert Push(r, "d", f) == map[0 := Viewer("d", "v", 1, true, [f])];
  }

  lemma SocketIsSent(e: nat, f: Frame, frames: map<string, Frame>)
    ensures Deliver(OnSocket(e, true, frames, true, [f]), 0, 0) == (OnSocket(e, true, frames, true, []), Some(f))
    ensures SocketAlive(OnSocket(e, true, frames, true, []), 0, 0)
  {
    assert Socket(0) in DemandOf(OnSocket(e, true, frames, true, []), "d").viewers;
    assert Socket(0) in DemandOf(OnSocket(e, true, frames, true, [f]), "d").viewers;
    assert [f][1..] == [];
    assert map[0 := Viewer("d", "v", 1, true, [f])][0 := Viewer("d", "v", 1, true, [])]
        == map[0 := Viewer("d", "v", 1, true, [])];
  }

  lemma SocketStops()
    ensures Next(OnSocket(1, true, map["d" := FIRST], true, []), Stop("d", "v"), 0)
            == OnSocket(1, false, map[], true, [])
  {
    var r := OnSocket(1, true, map["d" := FIRST], true, []);
    assert r.(demands := r.demands["d" := DemandOf(r, "d")]) == r && Touch(r, "v", 0) == r;
    assert DemandOf(StopScreen(r, "d", "v", 0).0, "d").viewers == map[];
    assert r.frames - {"d"} == map[];
  }

  lemma SocketRenewsLate()
    ensures Renew(OnSocket(1, false, map[], true, []), "d", "v", Socket(0), 0)
            == (OnSocket(2, true, map[], true, []), true)
  {
    var r := OnSocket(1, false, map[], true, []);
    assert LiveViewers(r, "d", 0) == map[];
    assert Prune(r, "d", 0) == r && Touch(r, "v", 0) == r;
    assert Renew(r, "d", "v", Socket(0), 0).0.demands == OnSocket(2, true, map[], true, []).demands;
  }

  lemma SocketWatches(rest: seq<Timed>)
    requires rest == [Timed(Subscribe(0), 0)] + [Timed(Put("d", "host", Some(1), [7]), 0)]
    ensures var r := OnSocket(1, true, map[], false, []);
            Run(r, rest) && Final(r, rest) == OnSocket(1, true, map["d" := FIRST], true, [FIRST])
  {
    SocketSubscribes();
    HostPuts(1, [7]);
    RunStarts(OnSocket(1, true, map[], true, []), Timed(Put("d", "host", Some(1), [7]), 0), []);
    RunStarts(OnSocket(1, true, map[], false, []), rest[0], [Timed(Put("d", "host", Some(1), [7]), 0)]);
  }

  lemma ViewerSigns()
    ensures Enabled(INIT, Register("d", HOST)) && Enabled(Next(INIT, Register("d", HOST), 0), Open("d", "v"))
    ensures Next(Next(INIT, Register("d", HOST), 0), Open("d", "v"), 0) == Signed()
  {
  }

  lemma SocketOpens() returns (opening: seq<Timed>)
    ensures Run(INIT, opening) && Final(INIT, opening) == OnSocket(1, true, map["d" := FIRST], true, [FIRST])
  {
    var rest := [Timed(Subscribe(0), 0)] + [Timed(Put("d", "host", Some(1), [7]), 0)];
    SocketWatches(rest);
    SocketEnters();
    RunStarts(Signed(), Timed(Enter("d", "v", 0), 0), rest);
    ViewerSigns();
    var entering := [Timed(Enter("d", "v", 0), 0)] + rest;
    RunStarts(Next(INIT, Register("d", HOST), 0), Timed(Open("d", "v"), 0), entering);
    opening := [Timed(Open("d", "v"), 0)] + entering;
    RunStarts(INIT, Timed(Register("d", HOST), 0), opening);
    opening := [Timed(Register("d", HOST), 0)] + opening;
  }

  /** The socket is sent a frame of the epoch it joined, its pong is checked, its viewer stops, the lease is
      renewed all the same, and the next frame it is sent is of the next epoch. */
  lemma LateRenewalMixesEpochs() returns (opening: seq<Timed>)
    ensures Run(INIT, opening) && 0 in Final(INIT, opening).sockets && Final(INIT, opening).sockets[0].queue != []
    ensures var sent := Deliver(Final(INIT, opening), 0, 0);
            sent.1 == Some(FIRST) && 0 in sent.0.sockets && SocketAlive(sent.0, 0, 0) && sent.0.clock <= 0
            && var late := Renew(Next(sent.0, Stop("d", "v"), 0), "d", "v", Socket(0), 0);
               late.1 && late.0.clock <= 0
               && var put := Next(late.0, Put("d", "host", Some(2), [8]), 0);
                  0 in put.sockets && put.sockets[0].queue != [] && Deliver(put, 0, 0).1 == Some(SECOND)
    ensures FIRST.under == 1 && SECOND.under == 2
  {
    opening := SocketOpens();
    SocketIsSent(1, FIRST, map["d" := FIRST]);
    SocketStops();
    SocketRenewsLate();
    HostPuts(2, [8]);
    SocketIsSent(2, SECOND, map["d" := SECOND]);
  }

  // ---- Leases ------------------------------------------------------------------------------------

  /** Closing a session ends every lease of its token, over either transport and for good. */
  lemma {:induction false} ClosedStaysClosed(r: Relay, steps: seq<Timed>, token: string)
    requires Run(r, steps) && token in r.issued && token !in r.sessions
    ensures var s := Final(r, steps);
            token in s.issued && token !in s.sessions
            && forall d: string, k, now :: LeaseAlive(s, d, k, now) ==> DemandOf(s, d).viewers[k].token != token
    decreases |steps|
  {
    if steps != [] {
      SessionsNeverRevive(r, steps[0].step, steps[0].now, token);
      ClosedStaysClosed(Next(r, steps[0].step, steps[0].now), steps[1..], token);
    }
  }

  lemma CloseEndsTheToken(r: Relay, d: string, token: string, now: int)
    requires Inv(r) && ValidViewer(r, d, token, now)
    ensures var c := CloseSession(r, d, token, now);
            c.1.None? && token in c.0.issued && token !in c.0.sessions
            && forall k :: k in DemandOf(c.0, d).viewers ==> DemandOf(c.0, d).viewers[k].token != token
  {
    var q := r.(demands := r.demands[d := DemandOf(r, d)]);
    PruneShape(q.(sessions := q.sessions - {token}), d, now);
  }

  /** Releasing one transport, or stopping one token, leaves every other live lease as it was. */
  lemma OthersKeepTheirLeases(r: Relay, d: string, key: Key, now: int, e: string, other: Key)
    requires LeaseAlive(r, e, other, now) && (e != d || other != key)
    ensures LeaseAlive(Release(r, d, key, now), e, other, now)
            && DemandOf(Release(r, d, key, now), e).viewers[other] == DemandOf(r, e).viewers[other]
  {
    if d in r.demands {
      ReleaseShape(r, d, key, now);
    }
  }

  lemma StopSparesOtherTokens(r: Relay, d: string, token: string, now: int, e: string, other: Key)
    requires LeaseAlive(r, e, other, now)
    requires ValidViewer(r, d, token, now)
    ensures LeaseAlive(StopScreen(r, d, token, now).0, e, other, now) <==>
              e != d || DemandOf(r, e).viewers[other].token != token
  {
  }

  // ---- The condition on registrations ---------------------------------------------------------------

  /** Why registrations must keep the capture mode: a host that uploaded freely, then registers as
      on-demand, leaves its old frame stored with nobody watching. */
  lemma ModeChangeLeavesAFrame()
    ensures var host := Host("h", false, 0);
            var steps := [Timed(Register("d", host), 0), Timed(Put("d", "h", None, [7]), 0)];
            Run(INIT, steps)
            && !HarmlessChange(Final(INIT, steps), "d", host.(onDemand := true))
            && !FrameOk(Final(INIT, steps).(hosts := map["d" := host.(onDemand := true)]), "d")
  {
    var host := Host("h", false, 0);
    var steps := [Timed(Register("d", host), 0), Timed(Put("d", "h", None, [7]), 0)];
    var one := Next(INIT, steps[0].step, 0);
    var two := Next(one, steps[1].step, 0);
    assert ValidHost(one, "d", "h", 0);
    assert steps[1..][0] == steps[1] && steps[1..][1..] == [];
    assert Final(two, []) == two;
    assert Final(one, steps[1..]) == two;
  }
}
