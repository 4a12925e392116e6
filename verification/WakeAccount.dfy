/** The account data as the routes change it: vectors searched, filtered and rewritten in place.
    Each method is proved against its function in WakeModel or WakeRoutes. */
module WakeAccount {
  import opened Wrappers
  import opened Seqs
  import opened WakeModel
  import opened WakeRoutes

  lemma FindUnique<T>(s: seq<T>, p: T -> bool, i: nat)
    requires i <= |s| && (i < |s| ==> p(s[i]))
    requires forall j :: 0 <= j < i ==> !p(s[j])
    ensures Find(s, p) == i
  {
  }

  method Position<T>(s: seq<T>, p: T -> bool) returns (i: nat)
    ensures i == Find(s, p)
  {
    i := 0;
    while i < |s| && !p(s[i])
      invariant i <= |s|
      invariant forall j :: 0 <= j < i ==> !p(s[j])
    {
      i := i + 1;
    }
    FindUnique(s, p, i);
  }

  method Retain<T>(s: seq<T>, p: T -> bool) returns (r: seq<T>)
    ensures r == Filter(s, p)
  {
    r := [];
    for i := 0 to |s|
      invariant r == Filter(s[..i], p)
    {
      assert s[..i + 1] == s[..i] + [s[i]];
      FilterAppend(s[..i], s[i], p);
      if p(s[i]) {
        r := r + [s[i]];
      }
    }
    assert s[..|s|] == s;
  }

  method Tally<T>(s: seq<T>, p: T -> bool) returns (n: nat)
    ensures n == Count(s, p)
  {
    n := 0;
    for i := 0 to |s|
      invariant n == Count(s[..i], p)
    {
      assert s[..i + 1] == s[..i] + [s[i]];
      CountAppend(s[..i], s[i], p);
      if p(s[i]) {
        n := n + 1;
      }
    }
    assert s[..|s|] == s;
  }

  class WakeAccountData {
    var targets: seq<WakeTarget>
    var agents: seq<WakeAgent>
    var requests: seq<WakeRequest>

    function View(): Account
      reads this
    {
      Account(targets, agents, requests)
    }

    constructor (d: Account)
      ensures View() == d
    {
      targets, agents, requests := d.targets, d.agents, d.requests;
    }

    method Prune(now: nat)
      modifies this
      ensures View() == old(View()).Prune(now)
    {
      var recent := Retain(requests, Recent(now));
      var sorted := NewestFirst(recent);
      requests := if |sorted| > HISTORY_CAP then sorted[..HISTORY_CAP] else sorted;
    }

    /** The loop every route shares: rewrite each request in place. */
    method Rewrite(f: WakeRequest -> WakeRequest)
      modifies this`requests
      ensures requests == Apply(old(requests), f)
    {
      var i := 0;
      while i < |requests|
        invariant 0 <= i <= |requests| == |old(requests)|
        invariant forall j :: 0 <= j < i ==> requests[j] == f(old(requests)[j])
        invariant forall j :: i <= j < |requests| ==> requests[j] == old(requests)[j]
      {
        requests := requests[i := f(requests[i])];
        i := i + 1;
      }
    }

    method RecoverAfterRestart(now: nat)
      modifies this
      ensures View() == old(View()).RecoverAfterRestart(now)
    {
      Prune(now);
      Rewrite(Interrupting());
    }

    method CancelTarget(id: string)
      modifies this`requests
      ensures View() == old(View()).CancelTarget(id)
    {
      Rewrite(Cancelling(OfTarget(id)));
    }

    method CancelAgent(id: string)
      modifies this`requests
      ensures View() == old(View()).CancelAgent(id)
    {
      Rewrite(Cancelling(OfAgent(id)));
    }

    method AdvanceAll(now: nat, beats: Seen)
      modifies this`requests
      ensures View() == WakeRoutes.AdvanceAll(old(View()), now, beats)
    {
      Rewrite(Advancing(now, beats));
    }

    method AgentEnabled(id: string) returns (found: bool)
      ensures found == EnabledAgent(View(), id)
    {
      var i := 0;
      while i < |agents| && !(agents[i].id == id && agents[i].enabled)
        invariant 0 <= i <= |agents|
        invariant forall j :: 0 <= j < i ==> !(agents[j].id == id && agents[j].enabled)
      {
        i := i + 1;
      }
      found := i < |agents|;
    }

    method CreateTarget(id: string, hash: string, name: string, device: string, mac: Mac, agentId: string, now: nat)
      returns (r: Result<(), string>)
      modifies this
      ensures var c := WakeRoutes.CreateTarget(old(View()), id, hash, name, device, mac, agentId, now);
              match c case Done(d, v) => View() == d && r == Ok(v)
                      case Refused(code) => View() == old(View()) && r == Err(code)
    {
      if |targets| >= 20 { return Err("rate_limited"); }
      var enabled := AgentEnabled(agentId);
      if !enabled { return Err("not_found"); }
      var k := Position(targets, UsesDevice(device));
      if k < |targets| { return Err("conflict"); }
      targets := targets + [WakeTarget(true, id, name, device, mac, agentId, 1, hash, now)];
      return Ok(());
    }

    method UpdateTarget(id: string, name: string, mac: Mac, agentId: string) returns (r: Result<(), string>)
      modifies this
      ensures var c := WakeRoutes.UpdateTarget(old(View()), id, name, mac, agentId);
              match c case Done(d, v) => View() == d && r == Ok(v)
                      case Refused(code) => View() == old(View()) && r == Err(code)
    {
      var enabled := AgentEnabled(agentId);
      if !enabled { return Err("not_found"); }
      var i := Position(targets, TargetIs(id));
      if i == |targets| { return Err("not_found"); }
      var t := targets[i];
      targets := targets[i := t.(name := name, mac := mac, agentId := agentId, revision := t.revision + 1)];
      CancelTarget(id);
      return Ok(());
    }

    method CompleteTarget(id: string, agentId: string) returns (r: Result<(), string>)
      modifies this
      ensures var c := WakeRoutes.CompleteTarget(old(View()), id, agentId);
              match c case Done(d, v) => View() == d && r == Ok(v)
                      case Refused(code) => View() == old(View()) && r == Err(code)
    {
      var enabled := AgentEnabled(agentId);
      if !enabled { return Err("not_found"); }
      var i := Position(targets, TargetIs(id));
      if i == |targets| { return Err("not_found"); }
      var t := targets[i];
      targets := targets[i := t.(agentId := agentId, setupComplete := true, revision := t.revision + 1)];
      CancelTarget(id);
      return Ok(());
    }

    method RotateTarget(id: string, hash: string) returns (r: Result<(), string>)
      modifies this
      ensures var c := WakeRoutes.RotateTarget(old(View()), id, hash);
              match c case Done(d, v) => View() == d && r == Ok(v)
                      case Refused(code) => View() == old(View()) && r == Err(code)
    {
      var i := Position(targets, TargetIs(id));
      if i == |targets| { return Err("not_found"); }
      targets := targets[i := targets[i].(tokenHash := hash)];
      return Ok(());
    }

    method DeleteTarget(id: string) returns (r: Result<(), string>)
      modifies this
      ensures var c := WakeRoutes.DeleteTarget(old(View()), id);
              match c case Done(d, v) => View() == d && r == Ok(v)
                      case Refused(code) => View() == old(View()) && r == Err(code)
    {
      var i := Position(targets, TargetIs(id));
      if i == |targets| { return Err("not_found"); }
      targets := Retain(targets, TargetIsNot(id));
      requests := Retain(requests, NotOfTarget(id));
      return Ok(());
    }

    method Revoke(id: string) returns (r: Result<(), string>)
      modifies this
      ensures var c := WakeRoutes.Revoke(old(View()), id);
              match c case Done(d, v) => View() == d && r == Ok(v)
                      case Refused(code) => View() == old(View()) && r == Err(code)
    {
      var i := Position(agents, AgentIs(id));
      if i == |agents| { return Err("not_found"); }
      agents := Retain(agents, AgentIsNot(id));
      CancelAgent(id);
      return Ok(());
    }

    method StopHelper(id: string, expected: Option<string>) returns (r: Result<(), string>)
      modifies this
      ensures var c := WakeRoutes.StopHelper(old(View()), id, expected);
              match c case Done(d, v) => View() == d && r == Ok(v)
                      case Refused(code) => View() == old(View()) && r == Err(code)
    {
      var i := Position(agents, AgentIs(id));
      if i == |agents| { return Err("not_found"); }
      if expected.Some? && (expected.value != agents[i].tokenHash || !agents[i].enabled) { return Err("unauthorized"); }
      agents := agents[i := agents[i].(enabled := false, tokenHash := "")];
      CancelAgent(id);
      return Ok(());
    }

    method EnableAgent(id: string, name: string, hash: string) returns (r: Result<(), string>)
      modifies this
      ensures var c := WakeRoutes.EnableAgent(old(View()), id, name, hash);
              match c case Done(d, v) => View() == d && r == Ok(v)
                      case Refused(code) => View() == old(View()) && r == Err(code)
    {
      var i := Position(agents, AgentIs(id));
      if i == |agents| { return Err("not_found"); }
      agents := agents[i := agents[i].(name := name, enabled := true, tokenHash := hash)];
      CancelAgent(id);
      return Ok(());
    }

    method CreateRequest(targetId: string, id: string, now: nat, agentsSeen: Seen, targetsSeen: Seen)
      returns (r: Result<WakeRequest, string>)
      modifies this
      ensures var c := WakeRoutes.CreateRequest(old(View()), targetId, id, now, agentsSeen, targetsSeen);
              match c case Done(d, v) => View() == d && r == Ok(v)
                      case Refused(code) => View() == old(View()) && r == Err(code)
    {
      var i := Position(targets, TargetIs(targetId));
      if i == |targets| { return Err("not_found"); }
      var t := targets[i];
      if !t.setupComplete { return Err("setup_incomplete"); }
      var k := Position(requests, ActiveFor(t.id));
      if k < |requests| { return Ok(requests[k]); }
      if Fresh(Lookup(targetsSeen, t.id), now) { return Err("target_online"); }
      var enabled := AgentEnabled(t.agentId);
      if !enabled || !Fresh(Lookup(agentsSeen, t.agentId), now) { return Err("agent_offline"); }
      var lately := Tally(requests, LastMinute(now));
      var cooling := Position(requests, CoolingDown(t.id, now));
      if lately >= RATE_LIMIT || cooling < |requests| { return Err("rate_limited"); }
      var q := NewRequest(id, t, now);
      requests := requests + [q];
      return Ok(q);
    }

    method Poll(agentId: string, now: nat) returns (r: Result<Job, string>)
      modifies this
      ensures var c := WakeRoutes.Poll(old(View()), agentId, now);
              match c case Done(d, v) => View() == d && r == Ok(v)
                      case Refused(code) => View() == old(View()) && r == Err(code)
    {
      var enabled := AgentEnabled(agentId);
      if !enabled { return Err("unauthorized"); }
      var k := Position(requests, Claimable(agentId, now));
      if k == |requests| { return Err("conflict"); }
      var q := requests[k];
      var i := Position(targets, ServedBy(q, agentId));
      if i == |targets| { return Err("conflict"); }
      var claimedAt := if q.claimedAt.Some? then q.claimedAt else Some(now);
      requests := requests[k := q.(phase := Claimed, claimedAt := claimedAt)];
      return Ok(Job(q.id, targets[i].mac, q.expiresAt - now, targets[i].setupComplete));
    }

    method Authorize(id: string, agentId: string, now: nat) returns (r: Result<nat, string>)
      modifies this
      ensures var c := WakeRoutes.Authorize(old(View()), id, agentId, now);
              match c case Done(d, v) => View() == d && r == Ok(v)
                      case Refused(code) => View() == old(View()) && r == Err(code)
    {
      var enabled := AgentEnabled(agentId);
      if !enabled { return Err("unauthorized"); }
      var k := Position(requests, RequestIs(id));
      if k == |requests| { return Err("not_found"); }
      var q := requests[k];
      if now >= q.expiresAt { return Err("expired"); }
      if q.phase != Claimed || q.authorizedAt.Some? { return Err("conflict"); }
      var i := Position(targets, ServedBy(q, agentId));
      if i == |targets| { return Err("conflict"); }
      requests := requests[k := q.(authorizedAt := Some(now))];
      return Ok(Min(q.expiresAt - now, 2000));
    }

    method Report(id: string, agentId: string, sent: bool, code: Option<string>, now: nat, targetsSeen: Seen)
      returns (r: Result<WakeRequest, string>)
      modifies this
      ensures var c := WakeRoutes.Report(old(View()), id, agentId, sent, code, now, targetsSeen);
              match c case Done(d, v) => View() == d && r == Ok(v)
                      case Refused(error) => View() == old(View()) && r == Err(error)
    {
      var enabled := AgentEnabled(agentId);
      if !enabled { return Err("unauthorized"); }
      var k := Position(requests, RequestIs(id));
      if k == |requests| { return Err("not_found"); }
      var q := requests[k];
      if q.phase.Delivered() || q.phase.Failed? { return Ok(q); }
      if q.phase != Claimed || (q.authorizedAt.None? && sent) { return Err("conflict"); }
      if now >= q.expiresAt { return Err("expired"); }
      if sent {
        q := q.(phase := Sent, sentAt := Some(now)).Advance(now, Lookup(targetsSeen, q.targetId));
      } else {
        var clean := code.Some? && CleanCode(code.value);
        q := q.(phase := WakePhase.Failed, errorCode := if clean then code else None);
      }
      requests := requests[k := q];
      return Ok(q);
    }
  }
}
