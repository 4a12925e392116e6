/** What each wake route does to one account under the store lock, as functions of the
    account, and the invariant every mix of them keeps (crates/rdesk_server/src/wake/routes.rs
    and the account half of pairing.rs). */
module WakeRoutes {
  import opened Wrappers
  import opened Seqs
  import opened WakeModel

  /** A mutation either yields the changed account and a value, or an error code. */
  datatype Change<+T> = Done(d: Account, value: T) | Refused(code: string)

  datatype Job = Job(id: string, mac: Mac, remaining: int, setupComplete: bool)

  type Seen = map<string, nat>

  function Lookup(seen: Seen, id: string): Option<nat> {
    if id in seen then Some(seen[id]) else None
  }

  predicate Fresh(seen: Option<nat>, now: nat) {
    seen.Some? && SatSub(now, seen.value) < FRESH_MS
  }

  predicate EnabledAgent(d: Account, id: string) {
    exists i :: 0 <= i < |d.agents| && d.agents[i].id == id && d.agents[i].enabled
  }

  function TargetIs(id: string): WakeTarget -> bool { (t: WakeTarget) => t.id == id }
  function AgentIs(id: string): WakeAgent -> bool { (a: WakeAgent) => a.id == id }
  function RequestIs(id: string): WakeRequest -> bool { (r: WakeRequest) => r.id == id }
  function TargetIsNot(id: string): WakeTarget -> bool { (t: WakeTarget) => t.id != id }
  function AgentIsNot(id: string): WakeAgent -> bool { (a: WakeAgent) => a.id != id }
  function NotOfTarget(id: string): WakeRequest -> bool { (r: WakeRequest) => r.targetId != id }
  function UsesDevice(device: string): WakeTarget -> bool { (t: WakeTarget) => t.deviceId == device }

  // ---- Configuration routes --------------------------------------------------------

  function CreateAgent(d: Account, id: string, name: string, hash: string): Change<()> {
    if |d.agents| >= 5 then Refused("rate_limited")
    else Done(d.(agents := d.agents + [WakeAgent(id, name, hash, true)]), ())
  }

  function CreateTarget(d: Account, id: string, hash: string, name: string, device: string,
                        mac: Mac, agentId: string, now: nat): Change<()>
  {
    if |d.targets| >= 20 then Refused("rate_limited")
    else if !EnabledAgent(d, agentId) then Refused("not_found")
    else if Find(d.targets, UsesDevice(device)) < |d.targets| then Refused("conflict")
    else Done(d.(targets := d.targets + [WakeTarget(true, id, name, device, mac, agentId, 1, hash, now)]), ())
  }

  /** The locked part of a pairing claim: a target without helper, not yet set up. */
  function ClaimTarget(d: Account, id: string, hash: string, name: string, device: string,
                       mac: Mac, now: nat): Change<()>
  {
    if |d.targets| >= 20 then Refused("rate_limited")
    else if Find(d.targets, UsesDevice(device)) < |d.targets| then Refused("conflict")
    else Done(d.(targets := d.targets + [WakeTarget(false, id, name, device, mac, "", 1, hash, now)]), ())
  }

  function UpdateTarget(d: Account, id: string, name: string, mac: Mac, agentId: string): Change<()> {
    var i := Find(d.targets, TargetIs(id));
    if !EnabledAgent(d, agentId) || i >= |d.targets| then Refused("not_found")
    else
      var t := d.targets[i];
      Done(d.(targets := d.targets[i := t.(name := name, mac := mac, agentId := agentId, revision := t.revision + 1)])
           .CancelTarget(id), ())
  }

  function CompleteTarget(d: Account, id: string, agentId: string): Change<()> {
    var i := Find(d.targets, TargetIs(id));
    if !EnabledAgent(d, agentId) || i >= |d.targets| then Refused("not_found")
    else
      var t := d.targets[i];
      Done(d.(targets := d.targets[i := t.(agentId := agentId, setupComplete := true, revision := t.revision + 1)])
           .CancelTarget(id), ())
  }

  function DeleteTarget(d: Account, id: string): Change<()> {
    if Find(d.targets, TargetIs(id)) >= |d.targets| then Refused("not_found")
    else Done(d.(targets := Filter(d.targets, TargetIsNot(id)), requests := Filter(d.requests, NotOfTarget(id))), ())
  }

  function RotateTarget(d: Account, id: string, hash: string): Change<()> {
    var i := Find(d.targets, TargetIs(id));
    if i >= |d.targets| then Refused("not_found")
    else Done(d.(targets := d.targets[i := d.targets[i].(tokenHash := hash)]), ())
  }

  function Revoke(d: Account, id: string): Change<()> {
    if Find(d.agents, AgentIs(id)) >= |d.agents| then Refused("not_found")
    else Done(d.(agents := Filter(d.agents, AgentIsNot(id))).CancelAgent(id), ())
  }

  /** expected is the caller's token digest when the helper stops itself, None from the account. */
  function StopHelper(d: Account, id: string, expected: Option<string>): Change<()> {
    var i := Find(d.agents, AgentIs(id));
    if i >= |d.agents| then Refused("not_found")
    else
      var a := d.agents[i];
      if expected.Some? && (expected.value != a.tokenHash || !a.enabled) then Refused("unauthorized")
      else Done(d.(agents := d.agents[i := a.(enabled := false, tokenHash := "")]).CancelAgent(id), ())
  }

  function EnableAgent(d: Account, id: string, name: string, hash: string): Change<()> {
    var i := Find(d.agents, AgentIs(id));
    if i >= |d.agents| then Refused("not_found")
    else
      var a := d.agents[i];
      Done(d.(agents := d.agents[i := a.(name := name, enabled := true, tokenHash := hash)]).CancelAgent(id), ())
  }

  // ---- Request routes ----------------------------------------------------------------

  function ActiveFor(targetId: string): WakeRequest -> bool {
    (r: WakeRequest) => r.targetId == targetId && r.phase.Active()
  }

  function CoolingDown(targetId: string, now: nat): WakeRequest -> bool {
    (r: WakeRequest) => r.targetId == targetId && SatSub(now, r.createdAt) < 30_000
  }

  function NewRequest(id: string, t: WakeTarget, now: nat): WakeRequest {
    WakeRequest(id, t.id, t.agentId, t.revision, now, now + REQUEST_TTL_MS, now + OBSERVE_MS,
                Queued, None, None, None, None, None)
  }

  function CreateRequest(d: Account, targetId: string, id: string, now: nat,
                         agentsSeen: Seen, targetsSeen: Seen): Change<WakeRequest>
  {
    var i := Find(d.targets, TargetIs(targetId));
    if i >= |d.targets| then Refused("not_found")
    else
      var t := d.targets[i];
      var k := Find(d.requests, ActiveFor(t.id));
      if !t.setupComplete then Refused("setup_incomplete")
      else if k < |d.requests| then Done(d, d.requests[k])
      else if Fresh(Lookup(targetsSeen, t.id), now) then Refused("target_online")
      else if !EnabledAgent(d, t.agentId) || !Fresh(Lookup(agentsSeen, t.agentId), now) then Refused("agent_offline")
      else if Count(d.requests, LastMinute(now)) >= RATE_LIMIT
              || Find(d.requests, CoolingDown(t.id, now)) < |d.requests| then Refused("rate_limited")
      else
        var r := NewRequest(id, t, now);
        Done(d.(requests := d.requests + [r]), r)
  }

  function Claimable(agentId: string, now: nat): WakeRequest -> bool {
    (r: WakeRequest) =>
      r.agentId == agentId && (r.phase == Queued || r.phase == Claimed) && r.authorizedAt.None? && r.expiresAt > now
  }

  function ServedBy(r: WakeRequest, agentId: string): WakeTarget -> bool {
    (t: WakeTarget) => t.id == r.targetId && t.agentId == agentId && t.revision == r.targetRevision
  }

  function Poll(d: Account, agentId: string, now: nat): Change<Job> {
    if !EnabledAgent(d, agentId) then Refused("unauthorized")
    else
      var k := Find(d.requests, Claimable(agentId, now));
      if k >= |d.requests| then Refused("conflict")
      else
        var r := d.requests[k];
        var i := Find(d.targets, ServedBy(r, agentId));
        if i >= |d.targets| then Refused("conflict")
        else
          var t := d.targets[i];
          var q := r.(phase := Claimed, claimedAt := if r.claimedAt.Some? then r.claimedAt else Some(now));
          Done(d.(requests := d.requests[k := q]), Job(r.id, t.mac, r.expiresAt - now, t.setupComplete))
  }

  function Min(a: nat, b: nat): nat { if a <= b then a else b }

  function Authorize(d: Account, id: string, agentId: string, now: nat): Change<nat> {
    var k := Find(d.requests, RequestIs(id));
    if !EnabledAgent(d, agentId) then Refused("unauthorized")
    else if k >= |d.requests| then Refused("not_found")
    else
      var r := d.requests[k];
      if now >= r.expiresAt then Refused("expired")
      else if r.phase != Claimed || r.authorizedAt.Some? then Refused("conflict")
      else if Find(d.targets, ServedBy(r, agentId)) >= |d.targets| then Refused("conflict")
      else Done(d.(requests := d.requests[k := r.(authorizedAt := Some(now))]), Min(r.expiresAt - now, 2000))
  }

  predicate CleanCode(code: string) {
    |code| <= 64 && forall i :: 0 <= i < |code| ==> 'a' <= code[i] <= 'z' || code[i] == '_'
  }

  /** A helper's receipt; sent is false for a reported failure. */
  function Report(d: Account, id: string, agentId: string, sent: bool, code: Option<string>,
                  now: nat, targetsSeen: Seen): Change<WakeRequest>
  {
    var k := Find(d.requests, RequestIs(id));
    if !EnabledAgent(d, agentId) then Refused("unauthorized")
    else if k >= |d.requests| then Refused("not_found")
    else
      var r := d.requests[k];
      if r.phase.Delivered() || r.phase.Failed? then Done(d, r)
      else if r.phase != Claimed || (r.authorizedAt.None? && sent) then Refused("conflict")
      else if now >= r.expiresAt then Refused("expired")
      else
        var q := if sent
                 then r.(phase := Sent, sentAt := Some(now)).Advance(now, Lookup(targetsSeen, r.targetId))
                 else r.(phase := WakePhase.Failed,
                         errorCode := if code.Some? && CleanCode(code.value) then code else None);
        Done(d.(requests := d.requests[k := q]), q)
  }

  function Advancing(now: nat, beats: Seen): WakeRequest -> WakeRequest {
    (r: WakeRequest) => r.Advance(now, Lookup(beats, r.targetId))
  }

  function AdvanceAll(d: Account, now: nat, beats: Seen): Account {
    d.(requests := Apply(d.requests, Advancing(now, beats)))
  }

  // ---- The account invariant -----------------------------------------------------------

  function TargetId(): WakeTarget -> string { (t: WakeTarget) => t.id }
  function DeviceId(): WakeTarget -> string { (t: WakeTarget) => t.deviceId }
  function AgentId(): WakeAgent -> string { (a: WakeAgent) => a.id }
  function RequestId(): WakeRequest -> string { (r: WakeRequest) => r.id }

  /** Identifiers and device ids are distinct and the account limits hold. */
  ghost predicate ConfigSound(d: Account) {
    && Distinct(d.targets, TargetId()) && Distinct(d.targets, DeviceId()) && |d.targets| <= 20
    && Distinct(d.agents, AgentId()) && |d.agents| <= 5
  }

  ghost predicate HasTarget(targets: seq<WakeTarget>, r: WakeRequest) {
    exists t :: t in targets && t.id == r.targetId && t.agentId == r.agentId
                && t.revision == r.targetRevision && t.setupComplete
  }

  ghost predicate HasAgent(agents: seq<WakeAgent>, id: string) {
    exists a :: a in agents && a.id == id && a.enabled
  }

  /** An active request names a completed target as it is configured now, and an enabled helper. */
  ghost predicate BoundRequest(d: Account, r: WakeRequest) {
    r.phase.Active() ==> HasTarget(d.targets, r) && HasAgent(d.agents, r.agentId)
  }

  ghost predicate OneActivePerTarget(s: seq<WakeRequest>) {
    forall i, j :: 0 <= i < j < |s| && s[i].phase.Active() && s[j].phase.Active() ==> s[i].targetId != s[j].targetId
  }

  ghost predicate HistorySound(s: seq<WakeRequest>, now: nat) {
    && Distinct(s, RequestId()) && OneActivePerTarget(s) && Paced(s)
    && forall r :: r in s ==> Timely(r, now)
  }

  ghost predicate Sound(d: Account, now: nat) {
    && ConfigSound(d) && HistorySound(d.requests, now)
    && forall r :: r in d.requests ==> BoundRequest(d, r)
  }

  /** Same requests in the same places, each at most further along. */
  ghost predicate Descends(s: seq<WakeRequest>, t: seq<WakeRequest>) {
    |s| == |t| && forall i :: 0 <= i < |s| ==> Progresses(s[i], t[i])
  }

  lemma DescendsKeepsHistory(s: seq<WakeRequest>, t: seq<WakeRequest>, now: nat)
    requires HistorySound(s, now) && Descends(s, t)
    requires forall i :: 0 <= i < |t| ==> Timely(t[i], now)
    ensures HistorySound(t, now)
  {
    forall w: nat
      ensures Count(t, InWindow(w)) <= RATE_LIMIT
    {
      CountPointwise(s, t, InWindow(w));
    }
    forall i | 0 <= i < |s|
      ensures s[i].id == t[i].id && (t[i].phase.Active() ==> s[i].phase.Active() && s[i].targetId == t[i].targetId)
    {
    }
  }

  lemma SubKeepsHistory(s: seq<WakeRequest>, t: seq<WakeRequest>, now: nat)
    requires HistorySound(s, now) && multiset(t) <= multiset(s)
    ensures HistorySound(t, now)
  {
    DistinctSub(s, t, RequestId());
    PacedSub(s, t);
    forall r | r in t
      ensures r in s
    {
      assert r in multiset(t);
      assert r in multiset(s);
    }
    forall i, j | 0 <= i < j < |t| && t[i].phase.Active() && t[j].phase.Active()
      ensures t[i].targetId != t[j].targetId
    {
      assert t[i] in s && t[j] in s;
      var a :| 0 <= a < |s| && s[a] == t[i];
      var b :| 0 <= b < |s| && s[b] == t[j];
      assert RequestId()(t[i]) != RequestId()(t[j]);
    }
  }

  /** Every commit prunes; pruning keeps the invariant. */
  lemma PruneKeeps(d: Account, now: nat)
    requires Sound(d, now)
    ensures Sound(d.Prune(now), now)
  {
    PruneSub(d.requests, now);
    SubKeepsHistory(d.requests, d.Prune(now).requests, now);
  }

  lemma TimePassesKeeps(d: Account, now: nat, later: nat)
    requires Sound(d, now) && now <= later
    ensures Sound(d, later)
  {
  }

  lemma InterruptProgresses(r: WakeRequest, now: nat)
    requires Timely(r, now)
    ensures Timely(r.Interrupt(), now) && Progresses(r, r.Interrupt()) && !r.Interrupt().phase.Active()
  {
  }

  /** A restart prunes as a commit does, interrupts every active request and changes nothing else. */
  lemma RestartKeeps(d: Account, now: nat)
    requires Sound(d, now)
    ensures Sound(d.RecoverAfterRestart(now), now)
    ensures var s, e := d.Prune(now).requests, d.RecoverAfterRestart(now);
            && e.targets == d.targets && e.agents == d.agents && |e.requests| == |s|
            && forall i :: 0 <= i < |s| ==>
                 e.requests[i] == if s[i].phase.Active()
                                  then s[i].(phase := Interrupted, errorCode := Some("server_restarted")) else s[i]
    ensures forall r :: r in d.RecoverAfterRestart(now).requests ==> !r.phase.Active()
    ensures Descends(d.Prune(now).requests, d.RecoverAfterRestart(now).requests)
  {
    PruneKeeps(d, now);
    var s, t := d.Prune(now).requests, d.RecoverAfterRestart(now).requests;
    forall i | 0 <= i < |s|
      ensures Timely(t[i], now) && Progresses(s[i], t[i]) && !t[i].phase.Active()
    {
      assert s[i] in s && t[i] == s[i].Interrupt();
      InterruptProgresses(s[i], now);
    }
    DescendsKeepsHistory(s, t, now);
  }

  lemma CancelProgresses(r: WakeRequest, now: nat)
    requires Timely(r, now)
    ensures Timely(r.Cancel(), now) && Progresses(r, r.Cancel()) && Progresses(r, r)
  {
  }

  /** Cancelling every active request that the change could touch keeps the rest bound. */
  lemma CancelKeeps(d: Account, e: Account, p: WakeRequest -> bool, now: nat)
    requires Sound(d, now) && ConfigSound(e)
    requires e.requests == Apply(d.requests, Cancelling(p))
    requires forall r :: r in d.requests && r.phase.Active() && !p(r) ==>
             HasTarget(e.targets, r) && HasAgent(e.agents, r.agentId)
    ensures Sound(e, now) && Descends(d.requests, e.requests)
  {
    forall i | 0 <= i < |e.requests|
      ensures Timely(e.requests[i], now) && Progresses(d.requests[i], e.requests[i])
    {
      var q := d.requests[i];
      assert q in d.requests && e.requests[i] == if p(q) then q.Cancel() else q;
      CancelProgresses(q, now);
    }
    DescendsKeepsHistory(d.requests, e.requests, now);
    forall i | 0 <= i < |e.requests|
      ensures BoundRequest(e, e.requests[i])
    {
      assert d.requests[i] in d.requests;
    }
  }

  lemma UpdateKeepsOthers<T>(s: seq<T>, i: nat, x: T, y: T)
    requires i < |s| && y in s && y != s[i]
    ensures y in s[i := x]
  {
    var k :| 0 <= k < |s| && s[k] == y;
    assert s[i := x][k] == y;
  }

  lemma RetargetKeeps(d: Account, e: Account, i: nat, t: WakeTarget, now: nat)
    requires Sound(d, now) && i < |d.targets|
    requires t.id == d.targets[i].id && t.deviceId == d.targets[i].deviceId
    requires e == d.(targets := d.targets[i := t]).CancelTarget(t.id)
    ensures Sound(e, now) && Descends(d.requests, e.requests)
  {
    forall a, b | 0 <= a < b < |e.targets|
      ensures e.targets[a].id != e.targets[b].id && e.targets[a].deviceId != e.targets[b].deviceId
    {
      assert TargetId()(d.targets[a]) != TargetId()(d.targets[b]);
      assert DeviceId()(d.targets[a]) != DeviceId()(d.targets[b]);
    }
    forall r | r in d.requests && r.phase.Active() && !OfTarget(t.id)(r)
      ensures HasTarget(e.targets, r) && HasAgent(e.agents, r.agentId)
    {
      var w :| w in d.targets && w.id == r.targetId && w.agentId == r.agentId
               && w.revision == r.targetRevision && w.setupComplete;
      UpdateKeepsOthers(d.targets, i, t, w);
    }
    CancelKeeps(d, e, OfTarget(t.id), now);
  }

  lemma UpdateTargetKeeps(d: Account, id: string, name: string, mac: Mac, agentId: string, now: nat)
    requires Sound(d, now)
    ensures var c := UpdateTarget(d, id, name, mac, agentId);
            c.Done? ==> Sound(c.d, now) && Descends(d.requests, c.d.requests)
  {
    var i := Find(d.targets, TargetIs(id));
    if i < |d.targets| {
      var t := d.targets[i].(name := name, mac := mac, agentId := agentId, revision := d.targets[i].revision + 1);
      RetargetKeeps(d, d.(targets := d.targets[i := t]).CancelTarget(t.id), i, t, now);
    }
  }

  lemma CompleteTargetKeeps(d: Account, id: string, agentId: string, now: nat)
    requires Sound(d, now)
    ensures var c := CompleteTarget(d, id, agentId);
            c.Done? ==> Sound(c.d, now) && Descends(d.requests, c.d.requests)
  {
    var i := Find(d.targets, TargetIs(id));
    if i < |d.targets| {
      var t := d.targets[i].(agentId := agentId, setupComplete := true, revision := d.targets[i].revision + 1);
      RetargetKeeps(d, d.(targets := d.targets[i := t]).CancelTarget(t.id), i, t, now);
    }
  }

  lemma AddTargetKeeps(d: Account, t: WakeTarget, now: nat)
    requires Sound(d, now) && |d.targets| < 20
    requires forall u :: u in d.targets ==> u.id != t.id && u.deviceId != t.deviceId
    ensures Sound(d.(targets := d.targets + [t]), now)
  {
    var e := d.(targets := d.targets + [t]);
    assert forall u :: u in d.targets ==> u in e.targets;
    forall r | r in e.requests
      ensures BoundRequest(e, r)
    {
      assert BoundRequest(d, r);
    }
  }

  lemma CreateTargetKeeps(d: Account, id: string, hash: string, name: string, device: string,
                          mac: Mac, agentId: string, now: nat)
    requires Sound(d, now)
    requires forall t :: t in d.targets ==> t.id != id
    ensures var c := CreateTarget(d, id, hash, name, device, mac, agentId, now);
            c.Done? ==> Sound(c.d, now) && c.d.requests == d.requests
  {
    if CreateTarget(d, id, hash, name, device, mac, agentId, now).Done? {
      forall t | t in d.targets ensures !UsesDevice(device)(t) {}
      AddTargetKeeps(d, WakeTarget(true, id, name, device, mac, agentId, 1, hash, now), now);
    }
  }

  lemma ClaimTargetKeeps(d: Account, id: string, hash: string, name: string, device: string, mac: Mac, now: nat)
    requires Sound(d, now)
    requires forall t :: t in d.targets ==> t.id != id
    ensures var c := ClaimTarget(d, id, hash, name, device, mac, now);
            c.Done? ==> Sound(c.d, now) && c.d.requests == d.requests
  {
    if ClaimTarget(d, id, hash, name, device, mac, now).Done? {
      forall t | t in d.targets ensures !UsesDevice(device)(t) {}
      AddTargetKeeps(d, WakeTarget(false, id, name, device, mac, "", 1, hash, now), now);
    }
  }

  lemma DeletedExactly(d: Account, id: string)
    requires DeleteTarget(d, id).Done?
    ensures var e := DeleteTarget(d, id).d;
            && (exists t :: t in d.targets && t.id == id)
            && (forall t :: t in e.targets <==> t in d.targets && t.id != id)
            && (forall r :: r in e.requests <==> r in d.requests && r.targetId != id)
  {
    var t := d.targets[Find(d.targets, TargetIs(id))];
    assert TargetIs(id)(t) && t in d.targets;
    assert forall t: WakeTarget :: TargetIsNot(id)(t) <==> t.id != id;
    assert forall r: WakeRequest :: NotOfTarget(id)(r) <==> r.targetId != id;
  }

  /** Exactly the named target goes, with exactly its requests. */
  lemma DeleteTargetKeeps(d: Account, id: string, now: nat)
    requires Sound(d, now)
    ensures var c := DeleteTarget(d, id);
            c.Done? ==>
              && Sound(c.d, now) && multiset(c.d.requests) <= multiset(d.requests) && c.d.agents == d.agents
              && (exists t :: t in d.targets && t.id == id)
              && (forall t :: t in c.d.targets <==> t in d.targets && t.id != id)
              && (forall r :: r in c.d.requests <==> r in d.requests && r.targetId != id)
  {
    var c := DeleteTarget(d, id);
    if c.Done? {
      DeletedExactly(d, id);
      FilterSub(d.targets, TargetIsNot(id));
      FilterSub(d.requests, NotOfTarget(id));
      DistinctSub(d.targets, c.d.targets, TargetId());
      DistinctSub(d.targets, c.d.targets, DeviceId());
      SubKeepsHistory(d.requests, c.d.requests, now);
      forall r | r in c.d.requests
        ensures BoundRequest(c.d, r)
      {
        assert BoundRequest(d, r) && NotOfTarget(id)(r);
        forall t | t in d.targets && t.id == r.targetId ensures t in c.d.targets {
          assert TargetIsNot(id)(t);
        }
      }
    }
  }

  lemma RotateTargetKeeps(d: Account, id: string, hash: string, now: nat)
    requires Sound(d, now)
    ensures var c := RotateTarget(d, id, hash);
            c.Done? ==> Sound(c.d, now) && c.d.requests == d.requests
  {
    var c := RotateTarget(d, id, hash);
    var i := Find(d.targets, TargetIs(id));
    if c.Done? {
      forall a, b | 0 <= a < b < |d.targets|
        ensures c.d.targets[a].id != c.d.targets[b].id && c.d.targets[a].deviceId != c.d.targets[b].deviceId
      {
        assert TargetId()(d.targets[a]) != TargetId()(d.targets[b]);
        assert DeviceId()(d.targets[a]) != DeviceId()(d.targets[b]);
      }
      forall r | r in d.requests && r.phase.Active()
        ensures HasTarget(c.d.targets, r)
      {
        assert BoundRequest(d, r);
        var w :| w in d.targets && w.id == r.targetId && w.agentId == r.agentId
                 && w.revision == r.targetRevision && w.setupComplete;
        var k :| 0 <= k < |d.targets| && d.targets[k] == w;
        assert c.d.targets[k] in c.d.targets;
      }
    }
  }

  lemma CreateAgentKeeps(d: Account, id: string, name: string, hash: string, now: nat)
    requires Sound(d, now)
    requires forall a :: a in d.agents ==> a.id != id
    ensures var c := CreateAgent(d, id, name, hash);
            c.Done? ==> Sound(c.d, now) && c.d.requests == d.requests
  {
    var c := CreateAgent(d, id, name, hash);
    if c.Done? {
      assert forall a :: a in d.agents ==> a in c.d.agents;
      forall r | r in d.requests
        ensures BoundRequest(c.d, r)
      {
        assert BoundRequest(d, r);
      }
    }
  }

  /** The helper's active requests are cancelled; every other request and every target is as it was. */
  ghost predicate Relieved(d: Account, e: Account, agentId: string) {
    && e.targets == d.targets && |e.requests| == |d.requests|
    && forall i :: 0 <= i < |d.requests| ==>
         e.requests[i] == if d.requests[i].agentId == agentId && d.requests[i].phase.Active()
                          then d.requests[i].(phase := Cancelled) else d.requests[i]
  }

  lemma CancelRelieves(d: Account, e: Account, id: string)
    requires e.targets == d.targets && e.requests == Apply(d.requests, Cancelling(OfAgent(id)))
    ensures Relieved(d, e, id)
  {
    forall i | 0 <= i < |d.requests|
      ensures e.requests[i] == if d.requests[i].agentId == id then d.requests[i].Cancel() else d.requests[i]
    {
      assert e.requests[i] == Cancelling(OfAgent(id))(d.requests[i]);
      assert OfAgent(id)(d.requests[i]) == (d.requests[i].agentId == id);
    }
  }

  lemma RevokeKeeps(d: Account, id: string, now: nat)
    requires Sound(d, now)
    ensures var c := Revoke(d, id);
            c.Done? ==> Sound(c.d, now) && Descends(d.requests, c.d.requests)
                        && Relieved(d, c.d, id) && !HasAgent(c.d.agents, id)
  {
    var c := Revoke(d, id);
    if c.Done? {
      FilterSub(d.agents, AgentIsNot(id));
      DistinctSub(d.agents, c.d.agents, AgentId());
      forall r | r in d.requests && r.phase.Active() && !OfAgent(id)(r)
        ensures HasTarget(c.d.targets, r) && HasAgent(c.d.agents, r.agentId)
      {
        assert BoundRequest(d, r);
        forall a | a in d.agents && a.id == r.agentId ensures a in c.d.agents {
          assert AgentIsNot(id)(a);
        }
      }
      CancelKeeps(d, c.d, OfAgent(id), now);
      CancelRelieves(d, c.d, id);
      forall a | a in c.d.agents ensures a.id != id {
        assert AgentIsNot(id)(a);
      }
    }
  }

  lemma ReagentKeeps(d: Account, e: Account, i: nat, a: WakeAgent, now: nat)
    requires Sound(d, now) && i < |d.agents| && a.id == d.agents[i].id
    requires e == d.(agents := d.agents[i := a]).CancelAgent(a.id)
    ensures Sound(e, now) && Descends(d.requests, e.requests)
    ensures Relieved(d, e, a.id) && (HasAgent(e.agents, a.id) <==> a.enabled)
  {
    forall x, y | 0 <= x < y < |e.agents|
      ensures e.agents[x].id != e.agents[y].id
    {
      assert AgentId()(d.agents[x]) != AgentId()(d.agents[y]);
    }
    forall r | r in d.requests && r.phase.Active() && !OfAgent(a.id)(r)
      ensures HasTarget(e.targets, r) && HasAgent(e.agents, r.agentId)
    {
      var w :| w in d.agents && w.id == r.agentId && w.enabled;
      UpdateKeepsOthers(d.agents, i, a, w);
    }
    CancelKeeps(d, e, OfAgent(a.id), now);
    CancelRelieves(d, e, a.id);
    OnlyAgent(d, e, i, a);
  }

  lemma OnlyAgent(d: Account, e: Account, i: nat, a: WakeAgent)
    requires ConfigSound(d) && i < |d.agents| && a.id == d.agents[i].id && e.agents == d.agents[i := a]
    ensures HasAgent(e.agents, a.id) <==> a.enabled
  {
    assert e.agents[i] == a;
    forall b | b in e.agents && b.id == a.id
      ensures b == a
    {
      assert forall x, y :: 0 <= x < y < |d.agents| ==> AgentId()(d.agents[x]) != AgentId()(d.agents[y]);
      assert forall j :: 0 <= j < |d.agents| && j != i ==> d.agents[j].id != a.id;
    }
  }

  lemma StopHelperKeeps(d: Account, id: string, expected: Option<string>, now: nat)
    requires Sound(d, now)
    ensures var c := StopHelper(d, id, expected);
            c.Done? ==> Sound(c.d, now) && Descends(d.requests, c.d.requests)
                        && Relieved(d, c.d, id) && !HasAgent(c.d.agents, id)
  {
    var i := Find(d.agents, AgentIs(id));
    if i < |d.agents| {
      var a := d.agents[i].(enabled := false, tokenHash := "");
      ReagentKeeps(d, d.(agents := d.agents[i := a]).CancelAgent(a.id), i, a, now);
    }
  }

  lemma EnableAgentKeeps(d: Account, id: string, name: string, hash: string, now: nat)
    requires Sound(d, now)
    ensures var c := EnableAgent(d, id, name, hash);
            c.Done? ==> Sound(c.d, now) && Descends(d.requests, c.d.requests)
                        && Relieved(d, c.d, id) && HasAgent(c.d.agents, id)
  {
    var i := Find(d.agents, AgentIs(id));
    if i < |d.agents| {
      var a := d.agents[i].(name := name, enabled := true, tokenHash := hash);
      ReagentKeeps(d, d.(agents := d.agents[i := a]).CancelAgent(a.id), i, a, now);
    }
  }

  /** A created request is bound, alone for its target, leaves the minute paced and is still
      stored after the commit that returns it. */
  lemma CreateRequestKeeps(d: Account, targetId: string, id: string, now: nat, agentsSeen: Seen, targetsSeen: Seen)
    requires Sound(d, now)
    requires forall r :: r in d.requests ==> r.id != id
    ensures var c := CreateRequest(d, targetId, id, now, agentsSeen, targetsSeen);
            c.Done? ==>
              && Sound(c.d, now)
              && (c.d.requests == d.requests || c.d.requests == d.requests + [c.value])
              && c.value.phase.Active() && c.value.targetId == targetId && c.value in c.d.requests
              && (c.value !in d.requests ==>
                   c.value == NewRequest(id, d.targets[Find(d.targets, TargetIs(targetId))], now)
                                             && c.value in c.d.Prune(now).requests)
  {
    var c := CreateRequest(d, targetId, id, now, agentsSeen, targetsSeen);
    var i := Find(d.targets, TargetIs(targetId));
    if c.Done? {
      var t := d.targets[i];
      var k := Find(d.requests, ActiveFor(t.id));
      if k < |d.requests| {
        assert c.value in d.requests;
      } else {
        PushKeeps(d, t, id, now);
      }
    }
  }

  lemma PushKeepsHistory(s: seq<WakeRequest>, r: WakeRequest, now: nat)
    requires HistorySound(s, now) && Timely(r, now) && r.createdAt == now
    requires forall q :: q in s ==> q.id != r.id && !ActiveFor(r.targetId)(q)
    requires Count(s, LastMinute(now)) < RATE_LIMIT
    ensures HistorySound(s + [r], now)
    ensures r in PruneRequests(s + [r], now)
  {
    assert CreatedBy(s, now) by {
      assert forall q :: q in s ==> Timely(q, now);
    }
    PacedAfterCreation(s, r);
    NewestSurvivesPruning(s, r);
    forall i | 0 <= i < |s|
      ensures s[i].id != r.id && (s[i].phase.Active() ==> s[i].targetId != r.targetId)
    {
      assert s[i] in s && !ActiveFor(r.targetId)(s[i]);
    }
  }

  lemma PushKeeps(d: Account, t: WakeTarget, id: string, now: nat)
    requires Sound(d, now) && t in d.targets && t.setupComplete && EnabledAgent(d, t.agentId)
    requires forall r :: r in d.requests ==> r.id != id && !ActiveFor(t.id)(r)
    requires Count(d.requests, LastMinute(now)) < RATE_LIMIT
    ensures Sound(d.(requests := d.requests + [NewRequest(id, t, now)]), now)
    ensures NewRequest(id, t, now) in PruneRequests(d.requests + [NewRequest(id, t, now)], now)
  {
    var r := NewRequest(id, t, now);
    PushKeepsHistory(d.requests, r, now);
    assert HasTarget(d.targets, r) && HasAgent(d.agents, r.agentId);
    forall q | q in d.requests + [r]
      ensures BoundRequest(d.(requests := d.requests + [r]), q)
    {
      assert q in d.requests ==> BoundRequest(d, q);
    }
  }

  lemma ReplaceKeeps(d: Account, k: nat, q: WakeRequest, now: nat)
    requires Sound(d, now) && k < |d.requests|
    requires Progresses(d.requests[k], q) && Timely(q, now)
    ensures Sound(d.(requests := d.requests[k := q]), now)
    ensures Descends(d.requests, d.requests[k := q])
  {
    var e := d.(requests := d.requests[k := q]);
    forall i | 0 <= i < |e.requests|
      ensures Progresses(d.requests[i], e.requests[i]) && Timely(e.requests[i], now) && BoundRequest(e, e.requests[i])
    {
      assert d.requests[i] in d.requests && BoundRequest(d, d.requests[i]);
    }
    DescendsKeepsHistory(d.requests, e.requests, now);
  }

  /** Only the request at k changes, and its new version is q. */
  ghost predicate Moves(d: Account, e: Account, k: int, q: WakeRequest) {
    0 <= k < |d.requests| && e == d.(requests := d.requests[k := q]) && q.id == d.requests[k].id
  }

  /** A poll claims one unauthorized request of the helper, and hands out the address its target
      has at the request's revision, with the time the request has left. */
  lemma PollKeeps(d: Account, agentId: string, now: nat)
    requires Sound(d, now)
    ensures var c := Poll(d, agentId, now);
            c.Done? ==> Sound(c.d, now) && Descends(d.requests, c.d.requests) && 0 < c.value.remaining <= REQUEST_TTL_MS
    ensures var c := Poll(d, agentId, now);
            c.Done? ==>
              exists k, q, t ::
                Moves(d, c.d, k, q) && t in d.targets && PollFacts(d.requests[k], q, t, agentId, now, c.value)
  {
    var k := Find(d.requests, Claimable(agentId, now));
    if Poll(d, agentId, now).Done? {
      var r := d.requests[k];
      assert r in d.requests;
      var q := r.(phase := Claimed, claimedAt := if r.claimedAt.Some? then r.claimedAt else Some(now));
      ReplaceKeeps(d, k, q, now);
      var t := d.targets[Find(d.targets, ServedBy(r, agentId))];
      assert ServedBy(r, agentId)(t) && t in d.targets;
      assert Moves(d, Poll(d, agentId, now).d, k, q) && PollFacts(r, q, t, agentId, now, Poll(d, agentId, now).value);
    }
  }

  /** What a poll does to the request it claims, and what it tells the helper. */
  ghost predicate PollFacts(r: WakeRequest, q: WakeRequest, t: WakeTarget, agentId: string, now: nat, job: Job) {
    && r.agentId == agentId && (r.phase.Queued? || r.phase.Claimed?) && r.authorizedAt.None?
    && q == r.(phase := Claimed, claimedAt := q.claimedAt)
    && q.claimedAt == (if r.claimedAt.Some? then r.claimedAt else Some(now))
    && t.id == r.targetId && t.agentId == agentId && t.revision == r.targetRevision
    && job.id == r.id && job.mac == t.mac && now + job.remaining == r.expiresAt && job.setupComplete == t.setupComplete
  }

  /** A permit is positive, at most two seconds, never outlives the request, and goes only to a
      claimed request that never had one. */
  lemma AuthorizeKeeps(d: Account, id: string, agentId: string, now: nat)
    requires Sound(d, now)
    ensures var c := Authorize(d, id, agentId, now);
            c.Done? ==> Sound(c.d, now) && Descends(d.requests, c.d.requests) && 0 < c.value <= 2000
    ensures var c := Authorize(d, id, agentId, now);
            c.Done? ==>
              exists k, q :: Moves(d, c.d, k, q) && q.id == id && q == d.requests[k].(authorizedAt := Some(now))
                             && d.requests[k].phase.Claimed? && d.requests[k].authorizedAt.None?
                             && now + c.value <= q.expiresAt && (c.value == 2000 || now + c.value == q.expiresAt)
  {
    var k := Find(d.requests, RequestIs(id));
    if Authorize(d, id, agentId, now).Done? {
      var r := d.requests[k];
      assert r in d.requests;
      ReplaceKeeps(d, k, r.(authorizedAt := Some(now)), now);
      assert Moves(d, Authorize(d, id, agentId, now).d, k, r.(authorizedAt := Some(now)));
    }
  }

  /** A receipt changes only the named request, and only from claimed. */
  lemma ReportKeeps(d: Account, id: string, agentId: string, sent: bool, code: Option<string>, now: nat,
                    targetsSeen: Seen)
    requires Sound(d, now)
    ensures var c := Report(d, id, agentId, sent, code, now, targetsSeen);
            c.Done? ==> Sound(c.d, now) && Descends(d.requests, c.d.requests) && c.value in c.d.requests
                        && c.value.id == id && exists k :: Moves(d, c.d, k, c.value)
                                                           && (c.value == d.requests[k] || d.requests[k].phase.Claimed?)
  {
    var c := Report(d, id, agentId, sent, code, now, targetsSeen);
    var k := Find(d.requests, RequestIs(id));
    if c.Done? {
      assert d.requests[k] in d.requests;
      ReplaceKeeps(d, k, c.value, now);
      assert c.d.requests == d.requests[k := c.value];
      assert c.d.requests[k] in c.d.requests;
      assert Moves(d, c.d, k, c.value);
    }
  }

  lemma AdvanceKeeps(d: Account, now: nat, beats: Seen)
    requires Sound(d, now)
    ensures Sound(AdvanceAll(d, now, beats), now)
    ensures Descends(d.requests, AdvanceAll(d, now, beats).requests)
  {
    var e := AdvanceAll(d, now, beats);
    forall i | 0 <= i < |d.requests|
      ensures Progresses(d.requests[i], e.requests[i]) && Timely(e.requests[i], now) && BoundRequest(e, e.requests[i])
    {
      assert d.requests[i] in d.requests && BoundRequest(d, d.requests[i]);
      AdvanceProgresses(d.requests[i], now, Lookup(beats, d.requests[i].targetId));
    }
    DescendsKeepsHistory(d.requests, e.requests, now);
  }
}
