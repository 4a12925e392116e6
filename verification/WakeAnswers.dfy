/** What the wake routes answer and store, in terms of the account alone: which call is refused and
    why, and the whole account after one that is not. A sound account has one target, helper and
    request of each id, so the answers do not depend on the order anything is stored in. */
module WakeAnswers {
  import opened Wrappers
  import opened Seqs
  import opened WakeModel
  import opened WakeRoutes

  lemma FindsAt<T>(s: seq<T>, p: T -> bool, i: nat)
    requires i < |s| && p(s[i]) && forall j :: 0 <= j < |s| && j != i ==> !p(s[j])
    ensures Find(s, p) == i
  {
  }

  lemma FindsNone<T>(s: seq<T>, p: T -> bool)
    requires forall x :: x in s ==> !p(x)
    ensures Find(s, p) == |s|
  {
  }

  lemma TheTarget(d: Account, i: nat)
    requires ConfigSound(d) && i < |d.targets|
    ensures Find(d.targets, TargetIs(d.targets[i].id)) == i
  {
    forall j | 0 <= j < |d.targets| && j != i
      ensures d.targets[j].id != d.targets[i].id
    {
      assert TargetId()(d.targets[i]) == d.targets[i].id && TargetId()(d.targets[j]) == d.targets[j].id;
    }
    FindsAt(d.targets, TargetIs(d.targets[i].id), i);
  }

  lemma TheAgent(d: Account, i: nat)
    requires ConfigSound(d) && i < |d.agents|
    ensures Find(d.agents, AgentIs(d.agents[i].id)) == i
  {
    forall j | 0 <= j < |d.agents| && j != i
      ensures d.agents[j].id != d.agents[i].id
    {
      assert AgentId()(d.agents[i]) == d.agents[i].id && AgentId()(d.agents[j]) == d.agents[j].id;
    }
    FindsAt(d.agents, AgentIs(d.agents[i].id), i);
  }

  lemma TheRequest(s: seq<WakeRequest>, i: nat)
    requires Distinct(s, RequestId()) && i < |s|
    ensures Find(s, RequestIs(s[i].id)) == i
  {
    forall j | 0 <= j < |s| && j != i
      ensures s[j].id != s[i].id
    {
      assert RequestId()(s[i]) == s[i].id && RequestId()(s[j]) == s[j].id;
    }
    FindsAt(s, RequestIs(s[i].id), i);
  }

  lemma EnabledIsHasAgent(d: Account, id: string)
    ensures EnabledAgent(d, id) <==> HasAgent(d.agents, id)
  {
  }

  // ---- The receipt and the heartbeat -------------------------------------------------------------------

  /** The last heartbeat on record is newer than the request, not after now and under 30 s old. */
  predicate SeenAlive(seen: Seen, id: string, created: nat, now: nat) {
    id in seen && created < seen[id] <= now < seen[id] + 30_000
  }

  /** The request once its packets are reported: online already if the target has been seen alive. */
  function Delivered(r: WakeRequest, now: nat, seen: Seen): WakeRequest {
    if SeenAlive(seen, r.targetId, r.createdAt, now) then
      r.(phase := Online, sentAt := Some(now), onlineAt := Some(seen[r.targetId]))
    else r.(phase := Sent, sentAt := Some(now))
  }

  /** The request once a failure is reported, with the code if it is clean: up to 64 small letters
      and underscores. */
  ghost predicate FailedWith(r: WakeRequest, q: WakeRequest, code: Option<string>) {
    q == r.(phase := WakePhase.Failed, errorCode := q.errorCode)
    && if code.Some? && |code.value| <= 64 && (forall c :: c in code.value ==> 'a' <= c <= 'z' || c == '_')
       then q.errorCode == code else q.errorCode == None
  }

  ghost predicate Recorded(r: WakeRequest, q: WakeRequest, sent: bool, code: Option<string>, now: nat, seen: Seen) {
    if sent then q == Delivered(r, now, seen) else FailedWith(r, q, code)
  }

  /** The account e is d with the request r replaced by q. */
  ghost predicate Swapped(d: Account, e: Account, r: WakeRequest, q: WakeRequest) {
    e.targets == d.targets && e.agents == d.agents && |e.requests| == |d.requests|
    && (exists i :: 0 <= i < |d.requests| && d.requests[i] == r && e.requests[i] == q)
    && forall i :: 0 <= i < |d.requests| && d.requests[i] != r ==> e.requests[i] == d.requests[i]
  }

  lemma SwapsAt(d: Account, i: nat, q: WakeRequest)
    requires i < |d.requests|
    ensures Swapped(d, d.(requests := d.requests[i := q]), d.requests[i], q)
  {
  }

  /** A request that can still be reported on. */
  predicate OpenTo(r: WakeRequest, sent: bool) { r.phase == Claimed && (sent ==> r.authorizedAt.Some?) }

  predicate Settled(r: WakeRequest) { r.phase in {Sent, Online, Unconfirmed, WakePhase.Failed} }

  ghost predicate ReportAnswer(d: Account, r: WakeRequest, sent: bool, code: Option<string>, now: nat, seen: Seen,
                               c: Change<WakeRequest>)
  {
    if Settled(r) then c == Done(d, r)
    else if !OpenTo(r, sent) then c == Refused("conflict")
    else if r.createdAt + 30_000 <= now then c == Refused("expired")
    else c.Done? && Swapped(d, c.d, r, c.value) && Recorded(r, c.value, sent, code, now, seen)
  }

  lemma CleanIsClean(code: string)
    ensures CleanCode(code) <==> |code| <= 64 && forall c :: c in code ==> 'a' <= c <= 'z' || c == '_'
  {
    assert forall i :: 0 <= i < |code| ==> code[i] in code;
  }

  /** A receipt is recorded exactly when an enabled helper reports on a claimed request in time, and
      for sent packets with a permit; then it is recorded as reported. */
  lemma ReportAnswers(d: Account, id: string, agentId: string, sent: bool, code: Option<string>, now: nat, seen: Seen)
    requires Sound(d, now)
    ensures var c := Report(d, id, agentId, sent, code, now, seen);
            && (!HasAgent(d.agents, agentId) ==> c == Refused("unauthorized"))
            && (HasAgent(d.agents, agentId) && (forall r :: r in d.requests ==> r.id != id) ==>
                  c == Refused("not_found"))
            && (HasAgent(d.agents, agentId) ==>
                  forall r :: r in d.requests && r.id == id ==> ReportAnswer(d, r, sent, code, now, seen, c))
  {
    EnabledIsHasAgent(d, agentId);
    if HasAgent(d.agents, agentId) {
      if forall r :: r in d.requests ==> r.id != id {
        FindsNone(d.requests, RequestIs(id));
      }
      forall i | 0 <= i < |d.requests| && d.requests[i].id == id
        ensures ReportAnswer(d, d.requests[i], sent, code, now, seen, Report(d, id, agentId, sent, code, now, seen))
      {
        ReportAnswersAt(d, i, agentId, sent, code, now, seen);
      }
    }
  }

  lemma ReportAnswersAt(d: Account, i: nat, agentId: string, sent: bool, code: Option<string>, now: nat, seen: Seen)
    requires Sound(d, now) && HasAgent(d.agents, agentId) && i < |d.requests|
    ensures ReportAnswer(d, d.requests[i], sent, code, now, seen,
                         Report(d, d.requests[i].id, agentId, sent, code, now, seen))
  {
    var r := d.requests[i];
    assert r in d.requests && Timely(r, now);
    EnabledIsHasAgent(d, agentId);
    TheRequest(d.requests, i);
    var c := Report(d, r.id, agentId, sent, code, now, seen);
    if c.Done? && !Settled(r) {
      if code.Some? {
        CleanIsClean(code.value);
      }
      SwapsAt(d, i, c.value);
    }
  }

  /** A sent request comes online exactly on a new enough heartbeat, ends unconfirmed two minutes
      after it was made, and one not yet sent expires after thirty seconds. */
  lemma AdvanceAnswers(d: Account, now: nat, seen: Seen, i: nat)
    requires Sound(d, now) && i < |d.requests|
    ensures var e := AdvanceAll(d, now, seen);
            e.targets == d.targets && e.agents == d.agents && |e.requests| == |d.requests|
    ensures var r := d.requests[i];
            AdvanceAll(d, now, seen).requests[i]
            == if r.phase == Sent && SeenAlive(seen, r.targetId, r.createdAt, now) then
                 r.(phase := Online, onlineAt := Some(seen[r.targetId]))
               else if r.phase == Sent && r.createdAt + 120_000 <= now then r.(phase := Unconfirmed)
               else if r.phase in {Queued, Claimed} && r.createdAt + 30_000 <= now then
                 r.(phase := WakePhase.Expired)
               else r
  {
    var r := d.requests[i];
    assert r in d.requests && Timely(r, now);
    assert AdvanceAll(d, now, seen).requests[i] == Advancing(now, seen)(r);
  }

  /** Pruning keeps the requests under a week old, but of more than fifty only the newest fifty. */
  lemma PruneAnswers(s: seq<WakeRequest>, now: nat)
    ensures forall r :: r in PruneRequests(s, now) ==> r in s && now < r.createdAt + 604_800_000
    ensures forall r :: r in s && now < r.createdAt + 604_800_000 && r !in PruneRequests(s, now) ==>
              |PruneRequests(s, now)| == 50 && forall q :: q in PruneRequests(s, now) ==> r.createdAt <= q.createdAt
  {
    PruneSub(s, now);
    var kept := Filter(s, Recent(now));
    FilterSub(s, Recent(now));
    NewestFirstSorts(kept);
    forall r | r in s && now < r.createdAt + 604_800_000 && r !in PruneRequests(s, now)
      ensures |PruneRequests(s, now)| == 50
      ensures forall q :: q in PruneRequests(s, now) ==> r.createdAt <= q.createdAt
    {
      assert Recent(now)(r) && r in multiset(kept) && r in multiset(NewestFirst(kept));
      CutOff(NewestFirst(kept), r);
    }
  }

  lemma CutOff(s: seq<WakeRequest>, r: WakeRequest)
    requires SortedByAge(s) && r in s && r !in Truncate(s)
    ensures |Truncate(s)| == 50 && forall q :: q in Truncate(s) ==> r.createdAt <= q.createdAt
  {
    var k :| 0 <= k < |s| && s[k] == r;
    TruncateKeepsFront(s);
    forall q | q in Truncate(s)
      ensures r.createdAt <= q.createdAt
    {
      var i :| 0 <= i < |Truncate(s)| && Truncate(s)[i] == q;
      assert s[i] == q && i < k;
    }
  }

  // ---- The permit and the poll ----------------------------------------------------------------------------

  /** The target still is as it was when the request was made, and still the helper's. */
  ghost predicate Current(d: Account, r: WakeRequest, agentId: string) {
    exists t :: t in d.targets && t.id == r.targetId && t.agentId == agentId && t.revision == r.targetRevision
  }

  lemma ServedIsCurrent(d: Account, r: WakeRequest, agentId: string)
    ensures Find(d.targets, ServedBy(r, agentId)) < |d.targets| <==> Current(d, r, agentId)
  {
    if Find(d.targets, ServedBy(r, agentId)) < |d.targets| {
      var t := d.targets[Find(d.targets, ServedBy(r, agentId))];
      assert ServedBy(r, agentId)(t) && t in d.targets;
    } else {
      forall t | t in d.targets
        ensures !ServedBy(r, agentId)(t)
      {
      }
    }
  }

  ghost predicate PermitAnswer(d: Account, r: WakeRequest, agentId: string, now: nat, c: Change<nat>) {
    if r.createdAt + 30_000 <= now then c == Refused("expired")
    else if r.phase != Claimed || r.authorizedAt.Some? || !Current(d, r, agentId) then c == Refused("conflict")
    else
      c.Done? && Swapped(d, c.d, r, r.(authorizedAt := Some(now)))
      && c.value == if r.createdAt + 28_000 <= now then r.createdAt + 30_000 - now else 2000
  }

  /** A permit is granted exactly when an enabled helper asks in time, for the first time, for a
      claimed request whose target has not changed: for two seconds or what is left of thirty. */
  lemma AuthorizeAnswers(d: Account, id: string, agentId: string, now: nat)
    requires Sound(d, now)
    ensures var c := Authorize(d, id, agentId, now);
            && (!HasAgent(d.agents, agentId) ==> c == Refused("unauthorized"))
            && (HasAgent(d.agents, agentId) && (forall r :: r in d.requests ==> r.id != id) ==>
                  c == Refused("not_found"))
            && (HasAgent(d.agents, agentId) ==>
                  forall r :: r in d.requests && r.id == id ==> PermitAnswer(d, r, agentId, now, c))
  {
    EnabledIsHasAgent(d, agentId);
    if HasAgent(d.agents, agentId) {
      if forall r :: r in d.requests ==> r.id != id {
        FindsNone(d.requests, RequestIs(id));
      }
      forall i | 0 <= i < |d.requests| && d.requests[i].id == id
        ensures PermitAnswer(d, d.requests[i], agentId, now, Authorize(d, id, agentId, now))
      {
        var r := d.requests[i];
        assert r in d.requests && Timely(r, now);
        TheRequest(d.requests, i);
        ServedIsCurrent(d, r, agentId);
        SwapsAt(d, i, r.(authorizedAt := Some(now)));
      }
    }
  }

  /** A request the helper may be handed: queued or claimed, without permit, less than 30 s old. */
  predicate Waiting(r: WakeRequest, agentId: string, now: nat) {
    r.agentId == agentId && r.phase in {Queued, Claimed} && r.authorizedAt.None? && now < r.createdAt + 30_000
  }

  ghost predicate PollAnswer(d: Account, r: WakeRequest, t: WakeTarget, now: nat, c: Change<Job>) {
    c.Done? && t.id == r.targetId && t.revision == r.targetRevision && t.agentId == r.agentId && t.setupComplete
    && c.value == Job(r.id, t.mac, r.createdAt + 30_000 - now, true)
    && Swapped(d, c.d, r, r.(phase := Claimed, claimedAt := if r.claimedAt.Some? then r.claimedAt else Some(now)))
  }

  /** A poll hands out the first request waiting for the helper, and there is always a job in it: in
      a sound account its target is still the one it was made for, and set up. */
  lemma PollAnswers(d: Account, agentId: string, now: nat)
    requires Sound(d, now)
    ensures var c := Poll(d, agentId, now);
            && (!HasAgent(d.agents, agentId) ==> c == Refused("unauthorized"))
            && (HasAgent(d.agents, agentId) && (forall r :: r in d.requests ==> !Waiting(r, agentId, now)) ==>
                  c == Refused("conflict"))
            && (HasAgent(d.agents, agentId) ==>
                  forall i :: 0 <= i < |d.requests| && Waiting(d.requests[i], agentId, now)
                              && (forall j :: 0 <= j < i ==> !Waiting(d.requests[j], agentId, now)) ==>
                                exists t :: t in d.targets && PollAnswer(d, d.requests[i], t, now, c))
  {
    EnabledIsHasAgent(d, agentId);
    ClaimableIsWaiting(d, agentId, now);
    if HasAgent(d.agents, agentId) {
      if forall r :: r in d.requests ==> !Waiting(r, agentId, now) {
        FindsNone(d.requests, Claimable(agentId, now));
      }
      forall i | 0 <= i < |d.requests| && Waiting(d.requests[i], agentId, now)
                 && (forall j :: 0 <= j < i ==> !Waiting(d.requests[j], agentId, now))
        ensures exists t :: t in d.targets && PollAnswer(d, d.requests[i], t, now, Poll(d, agentId, now))
      {
        PollAnswersAt(d, agentId, now, i);
      }
    }
  }

  lemma ClaimableIsWaiting(d: Account, agentId: string, now: nat)
    requires Sound(d, now)
    ensures forall r :: r in d.requests ==> (Claimable(agentId, now)(r) <==> Waiting(r, agentId, now))
  {
    forall r | r in d.requests
      ensures Claimable(agentId, now)(r) <==> Waiting(r, agentId, now)
    {
      assert Timely(r, now);
    }
  }

  lemma FirstFound<T>(s: seq<T>, p: T -> bool, i: nat)
    requires i < |s| && p(s[i]) && forall j :: 0 <= j < i ==> !p(s[j])
    ensures Find(s, p) == i
  {
  }

  lemma PollAnswersAt(d: Account, agentId: string, now: nat, i: nat)
    requires Sound(d, now) && HasAgent(d.agents, agentId)
    requires i < |d.requests| && Waiting(d.requests[i], agentId, now)
    requires forall j :: 0 <= j < i ==> !Waiting(d.requests[j], agentId, now)
    ensures exists t :: t in d.targets && PollAnswer(d, d.requests[i], t, now, Poll(d, agentId, now))
  {
    var r := d.requests[i];
    assert r in d.requests && Timely(r, now) && BoundRequest(d, r);
    EnabledIsHasAgent(d, agentId);
    ClaimableIsWaiting(d, agentId, now);
    FirstFound(d.requests, Claimable(agentId, now), i);
    ServedIsCurrent(d, r, agentId);
    var k := Find(d.targets, ServedBy(r, agentId));
    var t := d.targets[k];
    assert ServedBy(r, agentId)(t);
    var u :| u in d.targets && u.id == r.targetId && u.agentId == r.agentId && u.revision == r.targetRevision
             && u.setupComplete;
    SameTarget(d, t, u);
    SwapsAt(d, i, r.(phase := Claimed, claimedAt := if r.claimedAt.Some? then r.claimedAt else Some(now)));
    assert PollAnswer(d, r, t, now, Poll(d, agentId, now));
  }

  lemma FirstWaiting(s: seq<WakeRequest>, agentId: string, now: nat)
    requires exists r :: r in s && Waiting(r, agentId, now)
    ensures exists i :: 0 <= i < |s| && Waiting(s[i], agentId, now)
                        && forall j :: 0 <= j < i ==> !Waiting(s[j], agentId, now)
  {
    var p := (r: WakeRequest) => Waiting(r, agentId, now);
    FindIsExists(s, p);
    var i := Find(s, p);
    assert forall r: WakeRequest :: p(r) <==> Waiting(r, agentId, now);
    assert Waiting(s[i], agentId, now) && forall j :: 0 <= j < i ==> !Waiting(s[j], agentId, now);
  }

  lemma PollFinds(d: Account, agentId: string, now: nat)
    requires Sound(d, now)
    ensures Poll(d, agentId, now).Done?
            <==> HasAgent(d.agents, agentId) && exists r :: r in d.requests && Waiting(r, agentId, now)
  {
    PollAnswers(d, agentId, now);
    if r :| r in d.requests && Waiting(r, agentId, now) {
      FirstWaiting(d.requests, agentId, now);
    }
  }

  lemma SameTarget(d: Account, t: WakeTarget, u: WakeTarget)
    requires ConfigSound(d) && t in d.targets && u in d.targets && t.id == u.id
    ensures t == u
  {
    var i :| 0 <= i < |d.targets| && d.targets[i] == t;
    var j :| 0 <= j < |d.targets| && d.targets[j] == u;
    TheTarget(d, i);
    TheTarget(d, j);
  }

  // ---- A new request --------------------------------------------------------------------------------------

  /** Seen less than thirty seconds ago, or by a clock that has since gone back. */
  predicate SeenLately(seen: Seen, id: string, now: nat) { id in seen && now < seen[id] + 30_000 }

  /** How many requests of the account are under a minute old. */
  function Lately(s: seq<WakeRequest>, now: nat): nat {
    |set i | 0 <= i < |s| && now < s[i].createdAt + 60_000|
  }

  function Places<T>(s: seq<T>, p: T -> bool): set<int> { set i | 0 <= i < |s| && p(s[i]) }

  lemma PlacesAppend<T>(s: seq<T>, x: T, p: T -> bool)
    ensures |Places(s + [x], p)| == |Places(s, p)| + (if p(x) then 1 else 0)
  {
    assert Places(s + [x], p) == Places(s, p) + (if p(x) then {|s|} else {});
  }

  lemma {:induction false} CountIsSize<T>(s: seq<T>, p: T -> bool)
    ensures Count(s, p) == |Places(s, p)|
  {
    if s == [] {
      assert Places(s, p) == {};
    } else {
      var n := |s| - 1;
      CountIsSize(s[..n], p);
      PlacesAppend(s[..n], s[n], p);
      assert s == s[..n] + [s[n]];
      CountAppend(s[..n], s[n], p);
    }
  }

  lemma LatelyIsCount(s: seq<WakeRequest>, now: nat)
    ensures Count(s, LastMinute(now)) == Lately(s, now)
  {
    CountIsSize(s, LastMinute(now));
    forall i | 0 <= i < |s|
      ensures LastMinute(now)(s[i]) <==> now < s[i].createdAt + 60_000
    {
    }
    assert Places(s, LastMinute(now)) == set i | 0 <= i < |s| && now < s[i].createdAt + 60_000;
  }

  ghost predicate AskAnswer(d: Account, t: WakeTarget, id: string, now: nat, agentsSeen: Seen, targetsSeen: Seen,
                            c: Change<WakeRequest>)
  {
    if !t.setupComplete then c == Refused("setup_incomplete")
    else if exists r :: r in d.requests && r.targetId == t.id && r.phase in {Queued, Claimed, Sent} then
      c.Done? && c.d == d && c.value in d.requests
      && c.value.targetId == t.id && c.value.phase in {Queued, Claimed, Sent}
    else if SeenLately(targetsSeen, t.id, now) then c == Refused("target_online")
    else if !HasAgent(d.agents, t.agentId) || !SeenLately(agentsSeen, t.agentId, now) then
      c == Refused("agent_offline")
    else if 10 <= Lately(d.requests, now)
            || (exists r :: r in d.requests && r.targetId == t.id && now < r.createdAt + 30_000) then
      c == Refused("rate_limited")
    else
      c.Done? && c.value == WakeRequest(id, t.id, t.agentId, t.revision, now, now + 30_000, now + 120_000, Queued,
                                        None, None, None, None, None)
      && c.d == d.(requests := d.requests + [c.value])
  }

  /** A request is made exactly when its target is set up, has none active, has not been seen for
      thirty seconds, its helper is enabled and has, and neither limit of the last minute and of the
      target's last thirty seconds is reached; an active one is answered again. */
  lemma CreateRequestAnswers(d: Account, targetId: string, id: string, now: nat, agentsSeen: Seen, targetsSeen: Seen)
    requires Sound(d, now)
    ensures var c := CreateRequest(d, targetId, id, now, agentsSeen, targetsSeen);
            && ((forall t :: t in d.targets ==> t.id != targetId) ==> c == Refused("not_found"))
            && forall t :: t in d.targets && t.id == targetId ==>
                 AskAnswer(d, t, id, now, agentsSeen, targetsSeen, c)
  {
    if forall t :: t in d.targets ==> t.id != targetId {
      FindsNone(d.targets, TargetIs(targetId));
    }
    forall i | 0 <= i < |d.targets| && d.targets[i].id == targetId
      ensures AskAnswer(d, d.targets[i], id, now, agentsSeen, targetsSeen,
                        CreateRequest(d, targetId, id, now, agentsSeen, targetsSeen))
    {
      TheTarget(d, i);
      AskAnswers(d, i, id, now, agentsSeen, targetsSeen);
    }
  }

  lemma FindIsExists<T>(s: seq<T>, p: T -> bool)
    ensures Find(s, p) < |s| <==> exists x :: x in s && p(x)
    ensures Find(s, p) < |s| ==> s[Find(s, p)] in s && p(s[Find(s, p)])
  {
    if x :| x in s && p(x) {
      var i :| 0 <= i < |s| && s[i] == x;
      assert p(s[i]);
    }
  }

  lemma ActiveFound(s: seq<WakeRequest>, target: string)
    ensures var k := Find(s, ActiveFor(target));
            (k < |s| <==> exists r :: r in s && r.targetId == target && r.phase in {Queued, Claimed, Sent})
            && (k < |s| ==> s[k] in s && s[k].targetId == target && s[k].phase in {Queued, Claimed, Sent})
  {
    FindIsExists(s, ActiveFor(target));
    forall r: WakeRequest
      ensures ActiveFor(target)(r) <==> r.targetId == target && r.phase in {Queued, Claimed, Sent}
    {
    }
  }

  lemma CoolingFound(s: seq<WakeRequest>, target: string, now: nat)
    ensures Find(s, CoolingDown(target, now)) < |s|
            <==> exists r :: r in s && r.targetId == target && now < r.createdAt + 30_000
  {
    FindIsExists(s, CoolingDown(target, now));
    forall r: WakeRequest
      ensures CoolingDown(target, now)(r) <==> r.targetId == target && now < r.createdAt + 30_000
    {
    }
  }

  lemma AskAnswers(d: Account, i: nat, id: string, now: nat, agentsSeen: Seen, targetsSeen: Seen)
    requires i < |d.targets| && Find(d.targets, TargetIs(d.targets[i].id)) == i
    ensures AskAnswer(d, d.targets[i], id, now, agentsSeen, targetsSeen,
                      CreateRequest(d, d.targets[i].id, id, now, agentsSeen, targetsSeen))
  {
    var t := d.targets[i];
    ActiveFound(d.requests, t.id);
    CoolingFound(d.requests, t.id, now);
    LatelyIsCount(d.requests, now);
    EnabledIsHasAgent(d, t.agentId);
  }

  // ---- Targets and helpers ---------------------------------------------------------------------------------

  ghost predicate DeviceTaken(d: Account, device: string) { exists t :: t in d.targets && t.deviceId == device }

  /** A target is added exactly below the limit of twenty, for an enabled helper and a free device. */
  lemma CreateTargetAnswers(d: Account, id: string, hash: string, name: string, device: string, mac: Mac,
                            agentId: string, now: nat)
    ensures var c := CreateTarget(d, id, hash, name, device, mac, agentId, now);
            if 20 <= |d.targets| then c == Refused("rate_limited")
            else if !HasAgent(d.agents, agentId) then c == Refused("not_found")
            else if DeviceTaken(d, device) then c == Refused("conflict")
            else c.Done? && c.d.agents == d.agents && c.d.requests == d.requests
                 && c.d.targets == d.targets + [WakeTarget(true, id, name, device, mac, agentId, 1, hash, now)]
  {
    EnabledIsHasAgent(d, agentId);
    FindIsExists(d.targets, UsesDevice(device));
  }

  /** A pairing's target is added exactly below the limit of twenty and for a free device. */
  lemma ClaimTargetAnswers(d: Account, id: string, hash: string, name: string, device: string, mac: Mac, now: nat)
    ensures var c := ClaimTarget(d, id, hash, name, device, mac, now);
            if 20 <= |d.targets| then c == Refused("rate_limited")
            else if DeviceTaken(d, device) then c == Refused("conflict")
            else c.Done? && c.d.agents == d.agents && c.d.requests == d.requests
                 && c.d.targets == d.targets + [WakeTarget(false, id, name, device, mac, "", 1, hash, now)]
  {
    FindIsExists(d.targets, UsesDevice(device));
  }

  /** The target's active requests are cancelled; every other request and every helper is as it was. */
  ghost predicate Disturbed(d: Account, e: Account, targetId: string) {
    && e.agents == d.agents && |e.requests| == |d.requests|
    && forall i :: 0 <= i < |d.requests| ==>
         e.requests[i] == if d.requests[i].targetId == targetId && d.requests[i].phase in {Queued, Claimed, Sent}
                          then d.requests[i].(phase := Cancelled) else d.requests[i]
  }

  lemma CancelDisturbs(d: Account, e: Account, id: string)
    requires e.agents == d.agents && e.requests == Apply(d.requests, Cancelling(OfTarget(id)))
    ensures Disturbed(d, e, id)
  {
    forall i | 0 <= i < |d.requests|
      ensures e.requests[i] == if d.requests[i].targetId == id then d.requests[i].Cancel() else d.requests[i]
    {
      assert e.requests[i] == Cancelling(OfTarget(id))(d.requests[i]);
    }
  }

  /** Exactly the target i changes, to u. */
  ghost predicate Retargeted(d: Account, e: Account, i: nat, u: WakeTarget) {
    i < |d.targets| && e.targets == d.targets[i := u] && Disturbed(d, e, d.targets[i].id)
  }

  /** A target is changed exactly when it exists and the new helper is enabled; its active requests end. */
  lemma UpdateTargetAnswers(d: Account, id: string, name: string, mac: Mac, agentId: string)
    requires ConfigSound(d)
    ensures var c := UpdateTarget(d, id, name, mac, agentId);
            (!HasAgent(d.agents, agentId) || (forall t :: t in d.targets ==> t.id != id) ==> c == Refused("not_found"))
            && forall i :: 0 <= i < |d.targets| && d.targets[i].id == id && HasAgent(d.agents, agentId) ==>
                 var t := d.targets[i];
                 c.Done? && Retargeted(d, c.d, i, WakeTarget(t.setupComplete, id, name, t.deviceId, mac, agentId,
                                                             t.revision + 1, t.tokenHash, t.createdAt))
  {
    EnabledIsHasAgent(d, agentId);
    if forall t :: t in d.targets ==> t.id != id {
      FindsNone(d.targets, TargetIs(id));
    }
    forall i | 0 <= i < |d.targets| && d.targets[i].id == id
      ensures Find(d.targets, TargetIs(id)) == i
    {
      TheTarget(d, i);
    }
    if UpdateTarget(d, id, name, mac, agentId).Done? {
      CancelDisturbs(d, UpdateTarget(d, id, name, mac, agentId).d, id);
    }
  }

  /** Setting up a target gives it a helper and ends its active requests. */
  lemma CompleteTargetAnswers(d: Account, id: string, agentId: string)
    requires ConfigSound(d)
    ensures var c := CompleteTarget(d, id, agentId);
            (!HasAgent(d.agents, agentId) || (forall t :: t in d.targets ==> t.id != id) ==> c == Refused("not_found"))
            && forall i :: 0 <= i < |d.targets| && d.targets[i].id == id && HasAgent(d.agents, agentId) ==>
                 var t := d.targets[i];
                 c.Done? && Retargeted(d, c.d, i, WakeTarget(true, id, t.name, t.deviceId, t.mac, agentId,
                                                             t.revision + 1, t.tokenHash, t.createdAt))
  {
    EnabledIsHasAgent(d, agentId);
    if forall t :: t in d.targets ==> t.id != id {
      FindsNone(d.targets, TargetIs(id));
    }
    forall i | 0 <= i < |d.targets| && d.targets[i].id == id
      ensures Find(d.targets, TargetIs(id)) == i
    {
      TheTarget(d, i);
    }
    if CompleteTarget(d, id, agentId).Done? {
      CancelDisturbs(d, CompleteTarget(d, id, agentId).d, id);
    }
  }

  /** A new token for a target changes nothing else. */
  lemma RotateTargetAnswers(d: Account, id: string, hash: string)
    requires ConfigSound(d)
    ensures var c := RotateTarget(d, id, hash);
            ((forall t :: t in d.targets ==> t.id != id) ==> c == Refused("not_found"))
            && forall i :: 0 <= i < |d.targets| && d.targets[i].id == id ==>
                 var t := d.targets[i];
                 c.Done? && c.d.requests == d.requests && c.d.agents == d.agents
                 && c.d.targets
                    == d.targets[i := WakeTarget(t.setupComplete, id, t.name, t.deviceId, t.mac, t.agentId, t.revision,
                                                 hash, t.createdAt)]
  {
    if forall t :: t in d.targets ==> t.id != id {
      FindsNone(d.targets, TargetIs(id));
    }
    forall i | 0 <= i < |d.targets| && d.targets[i].id == id
      ensures Find(d.targets, TargetIs(id)) == i
    {
      TheTarget(d, i);
    }
  }

  /** A target or helper is removed exactly when it is there. */
  lemma RemovalAnswers(d: Account, id: string)
    ensures if exists t :: t in d.targets && t.id == id then DeleteTarget(d, id).Done?
            else DeleteTarget(d, id) == Refused("not_found")
    ensures if exists a :: a in d.agents && a.id == id then Revoke(d, id).Done?
            else Revoke(d, id) == Refused("not_found")
    ensures Revoke(d, id).Done? ==> forall a :: a in Revoke(d, id).d.agents <==> a in d.agents && a.id != id
  {
    FindIsExists(d.targets, TargetIs(id));
    FindIsExists(d.agents, AgentIs(id));
    FilterSub(d.agents, AgentIsNot(id));
    assert forall a: WakeAgent :: AgentIsNot(id)(a) <==> a.id != id;
  }

  /** A helper is added exactly below the limit of five. */
  lemma CreateAgentAnswers(d: Account, id: string, name: string, hash: string)
    ensures var c := CreateAgent(d, id, name, hash);
            if 5 <= |d.agents| then c == Refused("rate_limited")
            else c.Done? && c.d.targets == d.targets && c.d.requests == d.requests
                 && c.d.agents == d.agents + [WakeAgent(id, name, hash, true)]
  {
  }

  /** A helper stops itself exactly with its own token while enabled, the account always; the token
      is worthless afterwards. */
  lemma StopHelperAnswers(d: Account, id: string, expected: Option<string>)
    requires ConfigSound(d)
    ensures var c := StopHelper(d, id, expected);
            ((forall a :: a in d.agents ==> a.id != id) ==> c == Refused("not_found"))
            && forall i :: 0 <= i < |d.agents| && d.agents[i].id == id ==>
                 var a := d.agents[i];
                 if expected.Some? && !(a.enabled && a.tokenHash == expected.value) then c == Refused("unauthorized")
                 else c.Done? && c.d.agents == d.agents[i := WakeAgent(id, a.name, "", false)] && Relieved(d, c.d, id)
  {
    if forall a :: a in d.agents ==> a.id != id {
      FindsNone(d.agents, AgentIs(id));
    }
    forall i | 0 <= i < |d.agents| && d.agents[i].id == id
      ensures Find(d.agents, AgentIs(id)) == i
    {
      TheAgent(d, i);
    }
    if StopHelper(d, id, expected).Done? {
      CancelRelieves(d, StopHelper(d, id, expected).d, id);
    }
  }

  /** Enabling a helper gives it a new name and token and ends what the old one was doing. */
  lemma EnableAgentAnswers(d: Account, id: string, name: string, hash: string)
    requires ConfigSound(d)
    ensures var c := EnableAgent(d, id, name, hash);
            ((forall a :: a in d.agents ==> a.id != id) ==> c == Refused("not_found"))
            && forall i :: 0 <= i < |d.agents| && d.agents[i].id == id ==>
                 c.Done? && c.d.agents == d.agents[i := WakeAgent(id, name, hash, true)] && Relieved(d, c.d, id)
  {
    if forall a :: a in d.agents ==> a.id != id {
      FindsNone(d.agents, AgentIs(id));
    }
    forall i | 0 <= i < |d.agents| && d.agents[i].id == id
      ensures Find(d.agents, AgentIs(id)) == i
    {
      TheAgent(d, i);
    }
    if EnableAgent(d, id, name, hash).Done? {
      CancelRelieves(d, EnableAgent(d, id, name, hash).d, id);
    }
  }
}
