/** What hosts and viewers are answered, in terms of the shared maps alone, and where every stored
    or queued picture of a run came from. */
module ScreenAnswers {
  import opened Wrappers
  import opened ScreenDemand
  import opened ScreenAudience

  /** The token is the one registered for the device, at most thirty seconds ago. */
  predicate Registered(r: Relay, d: string, token: string, now: int) {
    d in r.hosts && r.hosts[d].token == token && now - r.hosts[d].updated <= 30_000
  }

  /** The token is that of a session of the device, used at most thirty minutes ago. */
  predicate SignedIn(r: Relay, d: string, token: string, now: int) {
    token in r.sessions && r.sessions[token].device == d && now - r.sessions[token].seen <= 1_800_000
  }

  /** The lease has time left and its token a session. */
  predicate Living(r: Relay, l: Lease, now: int) { now < l.until && l.token in r.sessions }

  /** Somebody watches the device. */
  ghost predicate Watched(r: Relay, d: string, now: int) {
    d in r.demands && exists k :: k in r.demands[d].viewers && Living(r, r.demands[d].viewers[k], now)
  }

  /** How many audiences the device has had. */
  function Audiences(r: Relay, d: string): nat { if d in r.demands then r.demands[d].epoch else 0 }

  /** A host captures only for those who watch now: what it uploads must be for the present audience. */
  ghost predicate Wanted(r: Relay, d: string, epoch: Option<nat>, now: int) {
    d in r.hosts && r.hosts[d].onDemand ==> Watched(r, d, now) && epoch == Some(Audiences(r, d))
  }

  lemma WatchedIsLive(r: Relay, d: string, now: int)
    ensures LiveViewers(r, d, now) != map[] <==> Watched(r, d, now)
  {
    if LiveViewers(r, d, now) != map[] {
      var k :| k in LiveViewers(r, d, now);
      assert Living(r, r.demands[d].viewers[k], now);
    }
    if Watched(r, d, now) {
      var k :| k in r.demands[d].viewers && Living(r, r.demands[d].viewers[k], now);
      assert k in LiveViewers(r, d, now);
    }
  }

  // ---- Hosts ----------------------------------------------------------------------------------------------

  /** An upload is refused exactly without the registered token, conflicts exactly when the host
      captures on demand and nobody watches or for another audience, and is accepted otherwise. */
  lemma UploadAnswers(r: Relay, d: string, token: string, epoch: Option<nat>, image: seq<bv8>, now: int)
    ensures var u := Upload(r, d, token, epoch, image, now);
            && (u.1 == Some(Unauthorized) <==> !Registered(r, d, token, now))
            && (u.1 == Some(Conflict) <==> Registered(r, d, token, now) && !Wanted(r, d, epoch, now))
            && (u.1 == None <==> Registered(r, d, token, now) && Wanted(r, d, epoch, now))
    ensures var u := Upload(r, d, token, epoch, image, now);
            && (u.1 == Some(Unauthorized) ==> u.0 == r)
            && (u.1 == Some(Conflict) ==>
                  u.0.sockets == r.sockets
                  && forall e :: e in u.0.frames ==> e in r.frames && u.0.frames[e] == r.frames[e])
            && (u.1 == None ==> Shown(r, u.0, d, Frame(image, now, Audiences(r, d))))
  {
    WatchedIsLive(r, d, now);
    PruneShape(r, d, now);
    PruneFrames(r, d, now);
    if Upload(r, d, token, epoch, image, now).1 == None {
      StoreShows(Prune(r, d, now), d, image, now);
    }
  }

  /** The picture is stored for its device and waits for each socket subscribed to it; no other
      picture or queue changes, except that a picture may go. */
  ghost predicate Shown(r: Relay, s: Relay, d: string, f: Frame) {
    && d in s.frames && s.frames[d] == f
    && (forall e :: e in s.frames && e != d ==> e in r.frames && s.frames[e] == r.frames[e])
    && s.sockets.Keys == r.sockets.Keys
    && forall id :: id in r.sockets ==>
         var v := r.sockets[id];
         s.sockets[id] == if v.device == d && v.subscribed then v.(queue := v.queue + [f]) else v
  }

  lemma PruneFrames(r: Relay, d: string, now: int)
    ensures forall e :: e in Prune(r, d, now).frames ==> e in r.frames && Prune(r, d, now).frames[e] == r.frames[e]
  {
  }

  lemma StoreShows(r: Relay, d: string, image: seq<bv8>, now: int)
    ensures Shown(r, Store(r, d, image, now), d, Frame(image, now, Audiences(r, d)))
  {
  }

  // ---- Viewers --------------------------------------------------------------------------------------------

  /** Every request of a viewer is answered exactly when its token is signed in for that device. */
  lemma ViewersAnswered(r: Relay, d: string, token: string, id: nat, now: int)
    requires id !in r.sockets
    ensures RenewUrl(r, d, token, now).1 <==> SignedIn(r, d, token, now)
    ensures StopScreen(r, d, token, now).1 == if SignedIn(r, d, token, now) then None else Some(Unauthorized)
    ensures CloseSession(r, d, token, now).1 == if SignedIn(r, d, token, now) then None else Some(Unauthorized)
    ensures id in Join(r, d, token, id, now).sockets <==> SignedIn(r, d, token, now)
  {
    RenewalHoldsALease(r, d, token, now);
    RenewShape(r, d, token, Socket(id), now);
  }

  /** The leases a device has after one was granted: those still living and the new one, for ten seconds. */
  ghost predicate Granted(r: Relay, s: Relay, d: string, key: Key, token: string, now: int) {
    d in s.demands
    && (forall k :: k in s.demands[d].viewers
                    <==> k == key || (d in r.demands && k in r.demands[d].viewers
                                      && Living(r, r.demands[d].viewers[k], now)))
    && (forall k :: k in s.demands[d].viewers && k != key ==> s.demands[d].viewers[k] == r.demands[d].viewers[k])
    && s.demands[d].viewers[key] == Lease(token, now + 10_000)
    && s.demands[d].epoch == Audiences(r, d) + (if Watched(r, d, now) then 0 else 1)
  }

  /** A renewal grants ten seconds and begins a new audience exactly when nobody watched. */
  lemma RenewalGrants(r: Relay, d: string, token: string, key: Key, now: int)
    requires SignedIn(r, d, token, now)
    ensures Granted(r, Renew(r, d, token, key, now).0, d, key, token, now)
  {
    WatchedIsLive(r, d, now);
    RenewShape(r, d, token, key, now);
  }

  lemma FetchGrants(r: Relay, d: string, token: string, now: int)
    requires SignedIn(r, d, token, now)
    ensures Granted(r, RenewUrl(r, d, token, now).0, d, Url(token), token, now)
  {
    WatchedIsLive(r, d, now);
    TouchShape(r, d, token, now);
    RenewShape(Touch(r, token, now), d, token, Url(token), now);
  }

  /** A fetch is given the picture stored when it is read, up to thirty seconds old. */
  lemma FetchAnswers(r: Relay, d: string, now: int)
    ensures ReadFrame(r, d, now)
            == if d in r.frames && now - r.frames[d].at <= 30_000 then Ok(r.frames[d]) else Err(Unavailable)
  {
  }

  /** The socket holds a lease that lives. */
  predicate Leased(r: Relay, id: nat, now: int)
    requires id in r.sockets
  {
    var d := r.sockets[id].device;
    d in r.demands && Socket(id) in r.demands[d].viewers && Living(r, r.demands[d].viewers[Socket(id)], now)
  }

  /** A pong keeps its socket, for ten seconds more, exactly while its lease lives and its token is
      signed in; otherwise the socket is closed. */
  lemma PongAnswers(r: Relay, id: nat, now: int)
    requires id in r.sockets
    ensures var v, s := r.sockets[id], Pong(r, id, now);
            if Leased(r, id, now) && SignedIn(r, v.device, v.token, now)
            then id in s.sockets && Granted(r, s, v.device, Socket(id), v.token, now)
            else id !in s.sockets
  {
    var v := r.sockets[id];
    if SignedIn(r, v.device, v.token, now) {
      RenewalGrants(r, v.device, v.token, Socket(id), now);
    }
    RenewShape(r, v.device, v.token, Socket(id), now);
  }

  /** The next picture in a socket's queue is sent exactly while its lease lives; otherwise the
      socket is closed. */
  lemma DeliveryAnswers(r: Relay, id: nat, now: int)
    requires id in r.sockets && r.sockets[id].queue != []
    ensures var v, sent := r.sockets[id], Deliver(r, id, now);
            if Leased(r, id, now)
            then sent.1 == Some(v.queue[0]) && id in sent.0.sockets && sent.0.sockets[id].queue == v.queue[1..]
            else sent.1 == None && id !in sent.0.sockets
  {
  }

  /** Disconnecting a device's viewers ends their sessions, leases and picture, and leaves other devices
      and every host alone; removing the host does the same and forgets it. */
  lemma RemovalAnswers(r: Relay, d: string, host: bool)
    ensures var s := if host then RemovePreview(r, d) else DisconnectViewers(r, d);
            && s.hosts == (if host then r.hosts - {d} else r.hosts)
            && d !in s.frames && !(exists k :: k in DemandOf(s, d).viewers)
            && (forall t :: t in s.sessions <==> t in r.sessions && r.sessions[t].device != d)
            && (forall t :: t in s.sessions ==> s.sessions[t] == r.sessions[t])
            && (forall e :: e != d ==> DemandOf(s, e) == DemandOf(r, e) && (e in s.frames <==> e in r.frames))
            && Audiences(s, d) == Audiences(r, d)
  {
  }

  // ---- Where pictures come from ---------------------------------------------------------------------------

  /** The picture a step brings for a device: uploaded under the token then registered for it, and
      for the present audience if the host captures on demand, or sent over the legacy connection
      of a host that does not. */
  function Brought(r: Relay, s: Step, now: int): set<(string, Frame)> {
    match s
    case Put(d, token, epoch, image) =>
      if Registered(r, d, token, now) && (r.hosts[d].onDemand ==> epoch == Some(Audiences(r, d)))
      then {(d, Frame(image, now, Audiences(r, d)))} else {}
    case Legacy(d, image) =>
      if d in r.hosts && r.hosts[d].onDemand then {} else {(d, Frame(image, now, Audiences(r, d)))}
    case _ => {}
  }

  /** All pictures a run brings. */
  ghost function AllBrought(r: Relay, steps: seq<Timed>): set<(string, Frame)>
    requires Run(r, steps)
    decreases |steps|
  {
    if steps == [] then {}
    else Brought(r, steps[0].step, steps[0].now) + AllBrought(Next(r, steps[0].step, steps[0].now), steps[1..])
  }

  /** Every stored or queued picture is one of those. */
  ghost predicate Vouched(r: Relay, from: set<(string, Frame)>) {
    && (forall d :: d in r.frames ==> (d, r.frames[d]) in from)
    && forall id :: id in r.sockets ==> forall f :: f in r.sockets[id].queue ==> (r.sockets[id].device, f) in from
  }

  /** No new picture is stored or queued. */
  ghost predicate NoNewPicture(r: Relay, s: Relay) {
    && (forall d :: d in s.frames ==> d in r.frames && s.frames[d] == r.frames[d])
    && forall id :: id in s.sockets ==>
         s.sockets[id].queue == []
         || (id in r.sockets && s.sockets[id].device == r.sockets[id].device
             && forall f :: f in s.sockets[id].queue ==> f in r.sockets[id].queue)
  }

  lemma NoneNew(r: Relay, s: Relay, from: set<(string, Frame)>)
    requires Vouched(r, from) && NoNewPicture(r, s)
    ensures Vouched(s, from)
  {
  }

  lemma RenewBringsNone(r: Relay, d: string, token: string, key: Key, now: int)
    ensures NoNewPicture(r, Renew(r, d, token, key, now).0)
  {
    RenewShape(r, d, token, key, now);
    var p := Prune(r, d, now);
    assert NoNewPicture(r, p);
  }

  lemma CloseBringsNone(r: Relay, id: nat, now: int)
    requires id in r.sockets
    ensures NoNewPicture(r, CloseSocket(r, id, now))
  {
    ReleaseFrame(r, r.sockets[id].device, Socket(id), now);
  }

  lemma PongBringsNone(r: Relay, id: nat, now: int)
    requires id in r.sockets
    ensures NoNewPicture(r, Pong(r, id, now))
  {
    CloseBringsNone(r, id, now);
    RenewBringsNone(r, r.sockets[id].device, r.sockets[id].token, Socket(id), now);
    RenewShape(r, r.sockets[id].device, r.sockets[id].token, Socket(id), now);
    CloseBringsNone(Renew(r, r.sockets[id].device, r.sockets[id].token, Socket(id), now).0, id, now);
  }

  lemma OthersBringNone(r: Relay, s: Step, now: int)
    requires Enabled(r, s) && !s.Put? && !s.Legacy?
    ensures NoNewPicture(r, After(r, s, now))
  {
    match s
    case PruneAll(d) => PruneShape(r, d, now);
    case Get(d, token) => RenewBringsNone(Touch(r, token, now), d, token, Url(token), now);
    case Enter(d, token, id) =>
      RenewBringsNone(r, d, token, Socket(id), now);
      RenewShape(r, d, token, Socket(id), now);
    case Send(id) => CloseBringsNone(r, id, now);
    case Renewed(id) => PongBringsNone(r, id, now);
    case Leave(id) => CloseBringsNone(r, id, now);
    case _ =>
  }

  lemma PutBrings(r: Relay, d: string, token: string, epoch: Option<nat>, image: seq<bv8>, now: int,
                  from: set<(string, Frame)>)
    requires Vouched(r, from)
    ensures Vouched(Upload(r, d, token, epoch, image, now).0, from + Brought(r, Put(d, token, epoch, image), now))
  {
    UploadAnswers(r, d, token, epoch, image, now);
  }

  lemma BroughtStep(r: Relay, s: Step, now: int, from: set<(string, Frame)>)
    requires Enabled(r, s) && Vouched(r, from)
    ensures Vouched(After(r, s, now), from + Brought(r, s, now))
  {
    match s
    case Put(d, token, epoch, image) => PutBrings(r, d, token, epoch, image, now, from);
    case Legacy(d, image) => StoreShows(r, d, image, now);
    case _ =>
      OthersBringNone(r, s, now);
      NoneNew(r, After(r, s, now), from);
  }

  lemma {:induction false} BroughtAlong(r: Relay, steps: seq<Timed>, from: set<(string, Frame)>)
    requires Run(r, steps) && Vouched(r, from)
    ensures Vouched(Final(r, steps), from + AllBrought(r, steps))
    decreases |steps|
  {
    if steps != [] {
      var now := steps[0].now;
      BroughtStep(r, steps[0].step, now, from);
      var more := from + Brought(r, steps[0].step, now);
      BroughtAlong(Next(r, steps[0].step, now), steps[1..], more);
      assert more + AllBrought(Next(r, steps[0].step, now), steps[1..]) == from + AllBrought(r, steps);
    } else {
      assert from + {} == from;
    }
  }

  /** One step of the run brought the picture. */
  ghost predicate BroughtOnce(r: Relay, steps: seq<Timed>, d: string, f: Frame) {
    exists i :: 0 <= i < |steps| && Run(r, steps[..i])
                && (d, f) in Brought(Final(r, steps[..i]), steps[i].step, steps[i].now)
  }

  lemma {:induction false} BroughtSometime(r: Relay, steps: seq<Timed>, d: string, f: Frame)
    requires Run(r, steps) && (d, f) in AllBrought(r, steps)
    ensures BroughtOnce(r, steps, d, f)
    decreases |steps|
  {
    var s := steps[0];
    if (d, f) in Brought(r, s.step, s.now) {
      assert steps[..0] == [];
    } else {
      var next, rest := Next(r, s.step, s.now), steps[1..];
      BroughtSometime(next, rest, d, f);
      var i :| 0 <= i < |rest| && Run(next, rest[..i])
               && (d, f) in Brought(Final(next, rest[..i]), rest[i].step, rest[i].now);
      RunStarts(r, s, rest[..i]);
      assert [s] + rest[..i] == steps[..i + 1];
    }
  }

  /** In every run, whatever picture a device has stored, and whatever waits for a socket of the
      device, was brought by one step for that very device, under the token then registered for it
      or over the legacy connection. */
  lemma PicturesAreVouched(steps: seq<Timed>)
    requires Run(INIT, steps)
    ensures var r := Final(INIT, steps);
            && (forall d :: d in r.frames ==> BroughtOnce(INIT, steps, d, r.frames[d]))
            && forall id :: id in r.sockets ==>
                 forall f :: f in r.sockets[id].queue ==> BroughtOnce(INIT, steps, r.sockets[id].device, f)
  {
    BroughtAlong(INIT, steps, {});
    assert {} + AllBrought(INIT, steps) == AllBrought(INIT, steps);
    forall d, f | (d, f) in AllBrought(INIT, steps)
      ensures BroughtOnce(INIT, steps, d, f)
    {
      BroughtSometime(INIT, steps, d, f);
    }
  }
}
