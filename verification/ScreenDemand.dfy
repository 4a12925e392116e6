/** Screen-demand leases and capture epochs (crates/rdesk_server/src/main.rs): the shared maps as
    one value, and each handler's locked section as a function of it. */
module ScreenDemand {
  import opened Wrappers

  const SCREEN_LEASE_MS: int := 10_000
  const PREVIEW_TTL_MS: int := 30_000
  const VIEWER_SESSION_TTL_MS: int := 30 * 60 * 1_000

  datatype Host = Host(token: string, onDemand: bool, updated: int)

  datatype Session = Session(device: string, seen: int)

  /** A lease belongs to the frame URL of a token, or to one WebSocket. */
  datatype Key = Url(token: string) | Socket(id: nat)

  datatype Lease = Lease(token: string, until: int)

  datatype Demand = Demand(epoch: nat, viewers: map<Key, Lease>)

  /** A stored picture; under is the epoch it was received in, which the server does not keep. */
  datatype Frame = Frame(image: seq<bv8>, at: int, under: nat)

  /** A WebSocket viewer: the epoch it joined, and the pictures waiting for it once subscribed. */
  datatype Viewer = Viewer(device: string, token: string, joined: nat, subscribed: bool, queue: seq<Frame>)

  datatype Relay = Relay(
    hosts: map<string, Host>,
    sessions: map<string, Session>,
    demands: map<string, Demand>,
    frames: map<string, Frame>,
    sockets: map<nat, Viewer>,
    issued: set<string>,
    clock: int)

  datatype Code = Unauthorized | Conflict | Unavailable

  predicate Fresh(now: int, at: int, ttl: int) { now - at <= ttl }

  predicate OnDemand(r: Relay, d: string) { d in r.hosts && r.hosts[d].onDemand }

  function DemandOf(r: Relay, d: string): Demand {
    if d in r.demands then r.demands[d] else Demand(0, map[])
  }

  function EpochOf(r: Relay, d: string): nat { DemandOf(r, d).epoch }

  predicate Alive(r: Relay, l: Lease, now: int) { l.until > now && l.token in r.sessions }

  predicate LeaseAlive(r: Relay, d: string, key: Key, now: int) {
    key in DemandOf(r, d).viewers && Alive(r, DemandOf(r, d).viewers[key], now)
  }

  function LiveViewers(r: Relay, d: string, now: int): map<Key, Lease> {
    var v := DemandOf(r, d).viewers;
    map k | k in v && Alive(r, v[k], now) :: v[k]
  }

  // ---- Pieces of the handlers -------------------------------------------------------------

  function ClearFrames(r: Relay, d: string): Relay {
    if OnDemand(r, d) then r.(frames := r.frames - {d}) else r
  }

  /** New leases for a device; frames go when the audience has just ended. */
  function WithViewers(r: Relay, d: string, viewers: map<Key, Lease>, clear: bool): Relay {
    var s := r.(demands := r.demands[d := Demand(EpochOf(r, d), viewers)]);
    if clear then ClearFrames(s, d) else s
  }

  function Prune(r: Relay, d: string, now: int): Relay {
    var live := LiveViewers(r, d, now);
    WithViewers(r, d, live, DemandOf(r, d).viewers != map[] && live == map[])
  }

  predicate ValidHost(r: Relay, d: string, token: string, now: int) {
    d in r.hosts && r.hosts[d].token == token && Fresh(now, r.hosts[d].updated, PREVIEW_TTL_MS)
  }

  predicate ValidViewer(r: Relay, d: string, token: string, now: int) {
    token in r.sessions && r.sessions[token].device == d && Fresh(now, r.sessions[token].seen, VIEWER_SESSION_TTL_MS)
  }

  function Touch(r: Relay, token: string, now: int): Relay {
    if token in r.sessions then r.(sessions := r.sessions[token := r.sessions[token].(seen := now)]) else r
  }

  /** A new audience starts a new epoch without any frame of the old one. */
  function Admit(r: Relay, d: string): Relay {
    if DemandOf(r, d).viewers == map[] then
      ClearFrames(r.(demands := r.demands[d := Demand(EpochOf(r, d) + 1, map[])]), d)
    else r
  }

  function AddLease(r: Relay, d: string, key: Key, lease: Lease): Relay {
    r.(demands := r.demands[d := Demand(EpochOf(r, d), DemandOf(r, d).viewers[key := lease])])
  }

  function Renew(r: Relay, d: string, token: string, key: Key, now: int): (Relay, bool) {
    var p := Prune(r, d, now);
    if !ValidViewer(p, d, token, now) then (p, false)
    else (AddLease(Admit(Touch(p, token, now), d), d, key, Lease(token, now + SCREEN_LEASE_MS)), true)
  }

  function Release(r: Relay, d: string, key: Key, now: int): Relay {
    if d !in r.demands then r
    else
      var p := Prune(r.(demands := r.demands[d := Demand(EpochOf(r, d), DemandOf(r, d).viewers - {key})]), d, now);
      if DemandOf(p, d).viewers == map[] then ClearFrames(p, d) else p
  }

  // ---- Handlers -----------------------------------------------------------------------------

  function Push(r: Relay, d: string, f: Frame): map<nat, Viewer> {
    map k | k in r.sockets ::
      if r.sockets[k].device == d && r.sockets[k].subscribed then r.sockets[k].(queue := r.sockets[k].queue + [f])
      else r.sockets[k]
  }

  /** Broadcast a picture and store it. */
  function Store(r: Relay, d: string, image: seq<bv8>, now: int): Relay {
    var f := Frame(image, now, EpochOf(r, d));
    r.(sockets := Push(r, d, f), frames := r.frames[d := f])
  }

  function Upload(r: Relay, d: string, token: string, epoch: Option<nat>, image: seq<bv8>, now: int)
    : (Relay, Option<Code>)
  {
    if !ValidHost(r, d, token, now) then (r, Some(Unauthorized))
    else
      var p := Prune(r, d, now);
      if OnDemand(p, d) && (DemandOf(p, d).viewers == map[] || epoch != Some(EpochOf(p, d))) then (p, Some(Conflict))
      else (Store(p, d, image, now), None)
  }

  /** The first half of a fetch: the token is checked, then its lease renewed under the demand lock. */
  function RenewUrl(r: Relay, d: string, token: string, now: int): (Relay, bool) {
    if !ValidViewer(r, d, token, now) then (r, false)
    else Renew(Touch(r, token, now), d, token, Url(token), now)
  }

  /** The second half, after the lock is released: whatever frame is stored by then, if it is fresh. */
  function ReadFrame(r: Relay, d: string, now: int): Result<Frame, Code> {
    if d in r.frames && Fresh(now, r.frames[d].at, PREVIEW_TTL_MS) then Ok(r.frames[d]) else Err(Unavailable)
  }

  function StopScreen(r: Relay, d: string, token: string, now: int): (Relay, Option<Code>) {
    var r := r.(demands := r.demands[d := DemandOf(r, d)]);
    if !ValidViewer(r, d, token, now) then (r, Some(Unauthorized))
    else
      var v := DemandOf(r, d).viewers;
      var rest := map k | k in v && v[k].token != token :: v[k];
      (WithViewers(Touch(r, token, now), d, rest, rest == map[]), None)
  }

  function CloseSession(r: Relay, d: string, token: string, now: int): (Relay, Option<Code>) {
    var r := r.(demands := r.demands[d := DemandOf(r, d)]);
    if !ValidViewer(r, d, token, now) then (r, Some(Unauthorized))
    else (Prune(r.(sessions := r.sessions - {token}), d, now), None)
  }

  function DisconnectViewers(r: Relay, d: string): Relay {
    r.(sessions := map t | t in r.sessions && r.sessions[t].device != d :: r.sessions[t],
       demands := r.demands[d := Demand(EpochOf(r, d), map[])],
       frames := r.frames - {d})
  }

  function RemovePreview(r: Relay, d: string): Relay {
    var s := DisconnectViewers(r, d);
    s.(hosts := s.hosts - {d}, frames := s.frames - {d})
  }

  // ---- WebSocket viewers --------------------------------------------------------------------

  function CloseSocket(r: Relay, id: nat, now: int): Relay
    requires id in r.sockets
  {
    var s := Release(r, r.sockets[id].device, Socket(id), now);
    s.(sockets := s.sockets - {id})
  }

  function Join(r: Relay, d: string, token: string, id: nat, now: int): Relay {
    var renewed := Renew(r, d, token, Socket(id), now);
    if !renewed.1 then renewed.0
    else renewed.0.(sockets := renewed.0.sockets[id := Viewer(d, token, EpochOf(renewed.0, d), false, [])])
  }

  predicate SocketAlive(r: Relay, id: nat, now: int)
    requires id in r.sockets
  {
    LeaseAlive(r, r.sockets[id].device, Socket(id), now)
  }

  /** The next queued picture goes to the viewer, if its lease is still alive. */
  function Deliver(r: Relay, id: nat, now: int): (Relay, Option<Frame>)
    requires id in r.sockets && r.sockets[id].queue != []
  {
    if !SocketAlive(r, id, now) then (CloseSocket(r, id, now), None)
    else
      var v := r.sockets[id];
      (r.(sockets := r.sockets[id := v.(queue := v.queue[1..])]), Some(v.queue[0]))
  }

  function Pong(r: Relay, id: nat, now: int): Relay
    requires id in r.sockets
  {
    if !SocketAlive(r, id, now) then CloseSocket(r, id, now)
    else
      var renewed := Renew(r, r.sockets[id].device, r.sockets[id].token, Socket(id), now);
      if renewed.1 then renewed.0 else CloseSocket(renewed.0, id, now)
  }

  // ---- Every step of the relay ----------------------------------------------------------------

  datatype Step =
    | Register(d: string, host: Host)
    | Remove(d: string)
    | Open(d: string, token: string)
    | Expire(token: string)
    | PruneAll(d: string)
    | Put(d: string, hostToken: string, epoch: Option<nat>, image: seq<bv8>)
    | Legacy(d: string, image: seq<bv8>)
    | Get(d: string, token: string)
    | Stop(d: string, token: string)
    | Close(d: string, token: string)
    | Disconnect(d: string)
    | Enter(d: string, token: string, id: nat)
    | Subscribe(id: nat)
    | Lag(id: nat, n: nat)
    | Send(id: nat)
    | Renewed(id: nat)
    | Leave(id: nat)

  /** New tokens and socket keys are unused; a registration changes the capture mode of a host
      only where HarmlessChange says so; the WebSocket upload path refuses on-demand hosts. */
  predicate Enabled(r: Relay, s: Step) {
    match s
    case Register(d, host) => HarmlessChange(r, d, host)
    case Open(d, token) => d in r.hosts && token !in r.issued
    case Legacy(d, _) => !OnDemand(r, d)
    case Enter(_, _, id) => id !in r.sockets && (forall d :: d in r.demands ==> Socket(id) !in r.demands[d].viewers)
    case Subscribe(id) => id in r.sockets
    case Lag(id, n) => id in r.sockets && n <= |r.sockets[id].queue|
    case Send(id) => id in r.sockets && r.sockets[id].queue != []
    case Renewed(id) => id in r.sockets
    case Leave(id) => id in r.sockets
    case _ => true
  }

  /** A host may start capturing on demand only when no frame is stored for it, or the stored one
      belongs to the audience now watching. */
  predicate HarmlessChange(r: Relay, d: string, host: Host) {
    host.onDemand && !OnDemand(r, d) && d in r.frames ==>
      DemandOf(r, d).viewers != map[] && r.frames[d].under == EpochOf(r, d)
  }

  function After(r: Relay, s: Step, now: int): Relay
    requires Enabled(r, s)
  {
    match s
    case Register(d, host) => r.(hosts := r.hosts[d := host])
    case Remove(d) => RemovePreview(r, d)
    case Open(d, token) => r.(sessions := r.sessions[token := Session(d, now)], issued := r.issued + {token})
    case Expire(token) => r.(sessions := r.sessions - {token})
    case PruneAll(d) => Prune(r, d, now)
    case Put(d, token, epoch, image) => Upload(r, d, token, epoch, image, now).0
    case Legacy(d, image) => Store(r, d, image, now)
    case Get(d, token) => RenewUrl(r, d, token, now).0
    case Stop(d, token) => StopScreen(r, d, token, now).0
    case Close(d, token) => CloseSession(r, d, token, now).0
    case Disconnect(d) => DisconnectViewers(r, d)
    case Enter(d, token, id) => Join(r, d, token, id, now)
    case Subscribe(id) => r.(sockets := r.sockets[id := r.sockets[id].(subscribed := true)])
    case Lag(id, n) => r.(sockets := r.sockets[id := r.sockets[id].(queue := r.sockets[id].queue[n..])])
    case Send(id) => Deliver(r, id, now).0
    case Renewed(id) => Pong(r, id, now)
    case Leave(id) => CloseSocket(r, id, now)
  }

  /** One step at a time no earlier than the one before. */
  function Next(r: Relay, s: Step, now: int): Relay
    requires Enabled(r, s) && r.clock <= now
  {
    After(r, s, now).(clock := now)
  }

  // ---- What every step keeps ------------------------------------------------------------------

  /** An on-demand host has a stored frame only while someone watches, and of this audience. */
  ghost predicate FrameOk(r: Relay, d: string) {
    d in r.frames ==>
      r.frames[d].under <= EpochOf(r, d)
      && (OnDemand(r, d) ==> DemandOf(r, d).viewers != map[] && r.frames[d].under == EpochOf(r, d))
  }

  /** A WebSocket whose lease is still listed is in the epoch it joined. */
  ghost predicate SocketOk(r: Relay, id: nat)
    requires id in r.sockets
  {
    var v := r.sockets[id];
    v.joined <= EpochOf(r, v.device)
    && (Socket(id) in DemandOf(r, v.device).viewers ==> v.joined == EpochOf(r, v.device))
    && (forall f :: f in v.queue ==> v.joined <= f.under <= EpochOf(r, v.device))
  }

  ghost predicate TokensOk(r: Relay, d: string) {
    var v := DemandOf(r, d).viewers;
    forall k :: k in v ==> v[k].token in r.issued && (v[k].token in r.sessions ==> r.sessions[v[k].token].device == d)
  }

  ghost predicate Inv(r: Relay) {
    && (forall d :: FrameOk(r, d))
    && (forall id :: id in r.sockets ==> SocketOk(r, id))
    && (forall d :: TokensOk(r, d))
    && r.sessions.Keys <= r.issued
  }

  /** Leases of one device replaced by some of them; frames cleared when none is left. */
  lemma FewerViewers(r: Relay, d: string, viewers: map<Key, Lease>, clear: bool)
    requires Inv(r)
    requires forall k :: k in viewers ==> k in DemandOf(r, d).viewers && viewers[k] == DemandOf(r, d).viewers[k]
    requires viewers == map[] && DemandOf(r, d).viewers != map[] ==> clear
    ensures Inv(WithViewers(r, d, viewers, clear))
  {
    var s := WithViewers(r, d, viewers, clear);
    forall e ensures FrameOk(s, e) && TokensOk(s, e) {
      assert FrameOk(r, e) && TokensOk(r, e);
    }
    forall id | id in s.sockets ensures SocketOk(s, id) {
      assert SocketOk(r, id);
    }
  }

  lemma PruneKeeps(r: Relay, d: string, now: int)
    requires Inv(r)
    ensures Inv(Prune(r, d, now))
  {
    FewerViewers(r, d, LiveViewers(r, d, now), DemandOf(r, d).viewers != map[] && LiveViewers(r, d, now) == map[]);
  }

  lemma TouchKeeps(r: Relay, token: string, now: int)
    requires Inv(r)
    ensures Inv(Touch(r, token, now))
  {
    var s := Touch(r, token, now);
    forall e ensures FrameOk(s, e) && TokensOk(s, e) {
      assert FrameOk(r, e) && TokensOk(r, e);
    }
    forall id | id in s.sockets ensures SocketOk(s, id) {
      assert SocketOk(r, id);
    }
  }

  lemma AdmitKeeps(r: Relay, d: string)
    requires Inv(r)
    ensures Inv(Admit(r, d))
  {
    var s := Admit(r, d);
    forall e ensures FrameOk(s, e) && TokensOk(s, e) {
      assert FrameOk(r, e) && TokensOk(r, e);
    }
    forall id | id in s.sockets ensures SocketOk(s, id) {
      assert SocketOk(r, id);
    }
  }

  lemma AddLeaseKeeps(r: Relay, d: string, key: Key, lease: Lease)
    requires Inv(r) && lease.token in r.sessions && r.sessions[lease.token].device == d
    requires key.Socket? && key.id in r.sockets && r.sockets[key.id].device == d ==>
               r.sockets[key.id].joined == EpochOf(r, d)
    ensures Inv(AddLease(r, d, key, lease))
  {
    var s := AddLease(r, d, key, lease);
    forall e ensures FrameOk(s, e) && TokensOk(s, e) {
      assert FrameOk(r, e) && TokensOk(r, e);
    }
    forall id | id in s.sockets ensures SocketOk(s, id) {
      assert SocketOk(r, id);
    }
  }

  lemma PruneShape(r: Relay, d: string, now: int)
    ensures var p := Prune(r, d, now);
            DemandOf(p, d) == Demand(EpochOf(r, d), LiveViewers(r, d, now))
            && p.sockets == r.sockets && p.hosts == r.hosts && p.sessions == r.sessions && p.issued == r.issued
            && (forall e :: e != d ==> DemandOf(p, e) == DemandOf(r, e))
  {
  }

  lemma AdmitShape(r: Relay, d: string, key: Key, lease: Lease)
    ensures var a := Admit(r, d); var v := DemandOf(r, d).viewers;
            EpochOf(a, d) == EpochOf(r, d) + (if v == map[] then 1 else 0)
            && DemandOf(AddLease(a, d, key, lease), d) == Demand(EpochOf(a, d), v[key := lease])
            && a.sockets == r.sockets && a.hosts == r.hosts && a.sessions == r.sessions && a.issued == r.issued
            && (forall e :: e != d ==> DemandOf(AddLease(a, d, key, lease), e) == DemandOf(r, e))
  {
  }

  /** A successful renewal adds its lease to those still alive; the epoch grows exactly when none was. */
  lemma RenewShape(r: Relay, d: string, token: string, key: Key, now: int)
    ensures var n := Renew(r, d, token, key, now); var live := LiveViewers(r, d, now);
            (n.1 <==> ValidViewer(r, d, token, now))
            && DemandOf(n.0, d) == (if !n.1 then Demand(EpochOf(r, d), live)
                                    else Demand(EpochOf(r, d) + (if live == map[] then 1 else 0),
                                                live[key := Lease(token, now + SCREEN_LEASE_MS)]))
            && n.0.sockets == r.sockets && n.0.hosts == r.hosts && n.0.issued == r.issued
            && n.0.sessions.Keys == r.sessions.Keys
            && (forall e :: e != d ==> DemandOf(n.0, e) == DemandOf(r, e))
  {
    PruneShape(r, d, now);
    var p := Prune(r, d, now);
    if ValidViewer(p, d, token, now) {
      AdmitShape(Touch(p, token, now), d, key, Lease(token, now + SCREEN_LEASE_MS));
    }
  }

  lemma RenewKeeps(r: Relay, d: string, token: string, key: Key, now: int)
    requires Inv(r)
    requires key.Socket? && key.id in r.sockets && r.sockets[key.id].device == d ==> LeaseAlive(r, d, key, now)
    ensures Inv(Renew(r, d, token, key, now).0)
  {
    var p := Prune(r, d, now);
    PruneKeeps(r, d, now);
    if ValidViewer(p, d, token, now) {
      TouchKeeps(p, token, now);
      AdmitKeeps(Touch(p, token, now), d);
      var a := Admit(Touch(p, token, now), d);
      if key.Socket? && key.id in r.sockets && r.sockets[key.id].device == d {
        assert key in LiveViewers(r, d, now);
        assert SocketOk(r, key.id);
      }
      AddLeaseKeeps(a, d, key, Lease(token, now + SCREEN_LEASE_MS));
    }
  }

  function Without(r: Relay, d: string, key: Key, now: int): map<Key, Lease> {
    LiveViewers(r, d, now) - {key}
  }

  /** Releasing drops the named lease and those that have run out, nothing else. */
  lemma ReleaseShape(r: Relay, d: string, key: Key, now: int)
    requires d in r.demands
    ensures Release(r, d, key, now) == WithViewers(r, d, Without(r, d, key, now), Without(r, d, key, now) == map[])
  {
    var q := r.(demands := r.demands[d := Demand(EpochOf(r, d), DemandOf(r, d).viewers - {key})]);
    assert LiveViewers(q, d, now) == Without(r, d, key, now);
    var live := Without(r, d, key, now);
    assert q.demands[d := Demand(EpochOf(r, d), live)] == r.demands[d := Demand(EpochOf(r, d), live)];
    assert Prune(q, d, now).demands == r.demands[d := Demand(EpochOf(r, d), live)];
  }

  lemma ReleaseKeeps(r: Relay, d: string, key: Key, now: int)
    requires Inv(r)
    ensures Inv(Release(r, d, key, now))
  {
    if d in r.demands {
      ReleaseShape(r, d, key, now);
      FewerViewers(r, d, Without(r, d, key, now), Without(r, d, key, now) == map[]);
    }
  }

  lemma StoreKeeps(r: Relay, d: string, image: seq<bv8>, now: int)
    requires Inv(r) && (OnDemand(r, d) ==> DemandOf(r, d).viewers != map[])
    ensures Inv(Store(r, d, image, now))
  {
    var s := Store(r, d, image, now);
    forall e ensures FrameOk(s, e) && TokensOk(s, e) {
      assert FrameOk(r, e) && TokensOk(r, e);
    }
    forall id | id in s.sockets ensures SocketOk(s, id) {
      assert SocketOk(r, id);
    }
  }

  // ---- One lemma a step -----------------------------------------------------------------------

  /** Registering keeps the invariant exactly when the change of capture mode is harmless. */
  lemma RegisterKeeps(r: Relay, d: string, host: Host)
    requires Inv(r)
    ensures Inv(r.(hosts := r.hosts[d := host])) <==> HarmlessChange(r, d, host)
  {
    var s := r.(hosts := r.hosts[d := host]);
    forall id | id in s.sockets ensures SocketOk(s, id) {
      assert SocketOk(r, id);
    }
    forall e ensures TokensOk(s, e) && (e != d ==> FrameOk(s, e)) {
      assert FrameOk(r, e) && TokensOk(r, e);
    }
    assert FrameOk(r, d);
    assert FrameOk(s, d) <==> HarmlessChange(r, d, host);
  }

  /** What a server can check without knowing epochs: no stored frame, or no change of mode, is harmless;
      switching to on-demand with a frame stored and nobody watching never is. */
  lemma HarmlessWhenUnchanged(r: Relay, d: string, host: Host)
    requires Inv(r)
    ensures d !in r.frames || !host.onDemand || OnDemand(r, d) ==> Inv(r.(hosts := r.hosts[d := host]))
    ensures d in r.frames && host.onDemand && !OnDemand(r, d) && DemandOf(r, d).viewers == map[] ==>
              !Inv(r.(hosts := r.hosts[d := host]))
  {
    RegisterKeeps(r, d, host);
  }

  lemma DisconnectKeeps(r: Relay, d: string)
    requires Inv(r)
    ensures Inv(DisconnectViewers(r, d))
  {
    var s := DisconnectViewers(r, d);
    forall e ensures FrameOk(s, e) && TokensOk(s, e) {
      assert FrameOk(r, e) && TokensOk(r, e);
    }
    forall id | id in s.sockets ensures SocketOk(s, id) {
      assert SocketOk(r, id);
    }
  }

  lemma RemoveKeeps(r: Relay, d: string)
    requires Inv(r)
    ensures Inv(RemovePreview(r, d))
  {
    DisconnectKeeps(r, d);
    var m := DisconnectViewers(r, d);
    var s := RemovePreview(r, d);
    forall e ensures FrameOk(s, e) && TokensOk(s, e) {
      assert FrameOk(m, e) && TokensOk(m, e);
    }
    forall id | id in s.sockets ensures SocketOk(s, id) {
      assert SocketOk(m, id);
    }
  }

  /** Sessions come and go; a token is never issued twice. */
  lemma SessionsKeep(r: Relay, s: Relay)
    requires Inv(r) && s == r.(sessions := s.sessions, issued := s.issued) && r.issued <= s.issued
    requires s.sessions.Keys <= s.issued
    requires forall t :: t in s.sessions && t in r.issued ==>
             t in r.sessions && s.sessions[t].device == r.sessions[t].device
    ensures Inv(s)
  {
    forall e ensures FrameOk(s, e) && TokensOk(s, e) {
      assert FrameOk(r, e) && TokensOk(r, e);
    }
    forall id | id in s.sockets ensures SocketOk(s, id) {
      assert SocketOk(r, id);
    }
  }

  lemma EntryKeeps(r: Relay, d: string)
    requires Inv(r)
    ensures Inv(r.(demands := r.demands[d := DemandOf(r, d)]))
  {
    var s := r.(demands := r.demands[d := DemandOf(r, d)]);
    assert forall e :: DemandOf(s, e) == DemandOf(r, e);
    forall e ensures FrameOk(s, e) && TokensOk(s, e) {
      assert FrameOk(r, e) && TokensOk(r, e);
    }
    forall id | id in s.sockets ensures SocketOk(s, id) {
      assert SocketOk(r, id);
    }
  }

  lemma UploadKeeps(r: Relay, d: string, token: string, epoch: Option<nat>, image: seq<bv8>, now: int)
    requires Inv(r)
    ensures Inv(Upload(r, d, token, epoch, image, now).0)
  {
    PruneKeeps(r, d, now);
    var p := Prune(r, d, now);
    if !(OnDemand(p, d) && DemandOf(p, d).viewers == map[]) {
      StoreKeeps(p, d, image, now);
    }
  }

  lemma RenewUrlKeeps(r: Relay, d: string, token: string, now: int)
    requires Inv(r)
    ensures Inv(RenewUrl(r, d, token, now).0)
  {
    if ValidViewer(r, d, token, now) {
      TouchKeeps(r, token, now);
      RenewKeeps(Touch(r, token, now), d, token, Url(token), now);
    }
  }

  lemma StopKeeps(r: Relay, d: string, token: string, now: int)
    requires Inv(r)
    ensures Inv(StopScreen(r, d, token, now).0)
  {
    EntryKeeps(r, d);
    var e := r.(demands := r.demands[d := DemandOf(r, d)]);
    if ValidViewer(e, d, token, now) {
      TouchKeeps(e, token, now);
      var v := DemandOf(e, d).viewers;
      var rest := map k | k in v && v[k].token != token :: v[k];
      FewerViewers(Touch(e, token, now), d, rest, rest == map[]);
    }
  }

  lemma CloseKeeps(r: Relay, d: string, token: string, now: int)
    requires Inv(r)
    ensures Inv(CloseSession(r, d, token, now).0)
  {
    EntryKeeps(r, d);
    var e := r.(demands := r.demands[d := DemandOf(r, d)]);
    if ValidViewer(e, d, token, now) {
      SessionsKeep(e, e.(sessions := e.sessions - {token}));
      PruneKeeps(e.(sessions := e.sessions - {token}), d, now);
    }
  }

  /** One socket added, dropped or changed, its queue no longer than before. */
  lemma SocketsKeep(r: Relay, s: Relay)
    requires Inv(r) && s == r.(sockets := s.sockets)
    requires forall id :: id in s.sockets ==>
               SocketOk(s, id)
               || (id in r.sockets && s.sockets[id].device == r.sockets[id].device
                   && s.sockets[id].joined == r.sockets[id].joined
                   && (forall f :: f in s.sockets[id].queue ==> f in r.sockets[id].queue))
    ensures Inv(s)
  {
    forall e ensures FrameOk(s, e) && TokensOk(s, e) {
      assert FrameOk(r, e) && TokensOk(r, e);
    }
    forall id | id in s.sockets ensures SocketOk(s, id) {
      if id in r.sockets {
        assert SocketOk(r, id);
      }
    }
  }

  lemma CloseSocketKeeps(r: Relay, id: nat, now: int)
    requires Inv(r) && id in r.sockets
    ensures Inv(CloseSocket(r, id, now))
  {
    var m := Release(r, r.sockets[id].device, Socket(id), now);
    ReleaseKeeps(r, r.sockets[id].device, Socket(id), now);
    SocketsKeep(m, m.(sockets := m.sockets - {id}));
  }

  lemma JoinKeeps(r: Relay, d: string, token: string, id: nat, now: int)
    requires Inv(r) && id !in r.sockets
    ensures Inv(Join(r, d, token, id, now))
  {
    RenewKeeps(r, d, token, Socket(id), now);
    RenewShape(r, d, token, Socket(id), now);
    var n := Renew(r, d, token, Socket(id), now);
    if n.1 {
      var s := Join(r, d, token, id, now);
      assert SocketOk(s, id);
      SocketsKeep(n.0, s);
    }
  }

  lemma DeliverKeeps(r: Relay, id: nat, now: int)
    requires Inv(r) && id in r.sockets && r.sockets[id].queue != []
    ensures Inv(Deliver(r, id, now).0)
  {
    if SocketAlive(r, id, now) {
      SocketsKeep(r, Deliver(r, id, now).0);
    } else {
      CloseSocketKeeps(r, id, now);
    }
  }

  lemma PongKeeps(r: Relay, id: nat, now: int)
    requires Inv(r) && id in r.sockets
    ensures Inv(Pong(r, id, now))
  {
    if SocketAlive(r, id, now) {
      var v := r.sockets[id];
      RenewKeeps(r, v.device, v.token, Socket(id), now);
      RenewShape(r, v.device, v.token, Socket(id), now);
      var n := Renew(r, v.device, v.token, Socket(id), now);
      if !n.1 {
        CloseSocketKeeps(n.0, id, now);
      }
    } else {
      CloseSocketKeeps(r, id, now);
    }
  }

  /** Were the renewal after a pong a step of its own, it would keep the invariant exactly when the
      socket is still in the current epoch and somebody is still watching. */
  lemma LateRenewal(r: Relay, id: nat, now: int)
    requires Inv(r) && id in r.sockets
    ensures var v := r.sockets[id]; var n := Renew(r, v.device, v.token, Socket(id), now);
            n.1 ==> (Inv(n.0) <==> v.joined == EpochOf(r, v.device) && LiveViewers(r, v.device, now) != map[])
  {
    var v := r.sockets[id];
    RenewShape(r, v.device, v.token, Socket(id), now);
    assert SocketOk(r, id);
    var n := Renew(r, v.device, v.token, Socket(id), now);
    if n.1 && v.joined == EpochOf(r, v.device) && LiveViewers(r, v.device, now) != map[] {
      LateRenewalKeeps(r, id, now);
    } else if n.1 {
      assert !SocketOk(n.0, id);
    }
  }

  lemma LateRenewalKeeps(r: Relay, id: nat, now: int)
    requires Inv(r) && id in r.sockets && r.sockets[id].joined == EpochOf(r, r.sockets[id].device)
    requires LiveViewers(r, r.sockets[id].device, now) != map[]
    ensures Inv(Renew(r, r.sockets[id].device, r.sockets[id].token, Socket(id), now).0)
  {
    var v := r.sockets[id];
    var p := Prune(r, v.device, now);
    PruneKeeps(r, v.device, now);
    if ValidViewer(p, v.device, v.token, now) {
      TouchKeeps(p, v.token, now);
      AddLeaseKeeps(Touch(p, v.token, now), v.device, Socket(id), Lease(v.token, now + SCREEN_LEASE_MS));
    }
  }

  lemma AfterKeeps(r: Relay, s: Step, now: int)
    requires Inv(r) && Enabled(r, s)
    ensures Inv(After(r, s, now))
  {
    match s
    case Register(d, host) => RegisterKeeps(r, d, host);
    case Remove(d) => RemoveKeeps(r, d);
    case Open(d, token) => SessionsKeep(r, After(r, s, now));
    case Expire(token) => SessionsKeep(r, After(r, s, now));
    case PruneAll(d) => PruneKeeps(r, d, now);
    case Put(d, token, epoch, image) => UploadKeeps(r, d, token, epoch, image, now);
    case Legacy(d, image) => StoreKeeps(r, d, image, now);
    case Get(d, token) => RenewUrlKeeps(r, d, token, now);
    case Stop(d, token) => StopKeeps(r, d, token, now);
    case Close(d, token) => CloseKeeps(r, d, token, now);
    case Disconnect(d) => DisconnectKeeps(r, d);
    case Enter(d, token, id) => JoinKeeps(r, d, token, id, now);
    case Subscribe(id) => SocketsKeep(r, After(r, s, now));
    case Lag(id, n) => SocketsKeep(r, After(r, s, now));
    case Send(id) => DeliverKeeps(r, id, now);
    case Renewed(id) => PongKeeps(r, id, now);
    case Leave(id) => CloseSocketKeeps(r, id, now);
  }

  lemma ClockKeeps(r: Relay, now: int)
    requires Inv(r)
    ensures Inv(r.(clock := now))
  {
    var s := r.(clock := now);
    forall e ensures FrameOk(s, e) && TokensOk(s, e) {
      assert FrameOk(r, e) && TokensOk(r, e);
    }
    forall id | id in s.sockets ensures SocketOk(s, id) {
      assert SocketOk(r, id);
    }
  }
}
