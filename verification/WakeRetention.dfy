/** A request is kept for as long as it is observed, whatever the server does. */
module WakeRetention {
  import opened Wrappers
  import opened Seqs
  import opened WakeModel
  import opened WakeRoutes
  import opened WakeLedger
  import opened WakeProtocol
  import opened WakeServerSteps
  import opened WakeTheorems

  /** A version of r, at most further along, is stored. */
  ghost predicate Kept(r: WakeRequest, s: seq<WakeRequest>) {
    exists q :: q in s && Progresses(r, q)
  }

  lemma KeptSame(r: WakeRequest, s: seq<WakeRequest>)
    requires r in s
    ensures Kept(r, s)
  {
    assert Progresses(r, r);
  }

  lemma KeptByDescent(r: WakeRequest, s: seq<WakeRequest>, t: seq<WakeRequest>)
    requires r in s && Descends(s, t)
    ensures Kept(r, t)
  {
    var i :| 0 <= i < |s| && s[i] == r;
    assert t[i] in t && Progresses(s[i], t[i]);
  }

  /** The pruning of a commit drops nothing still observed. */
  lemma KeptByPruning(r: WakeRequest, e: WakeModel.Account, now: nat)
    requires Sound(e, now) && Kept(r, e.requests) && now <= r.observeUntil
    ensures Kept(r, e.Prune(now).requests)
  {
    var q :| q in e.requests && Progresses(r, q);
    assert Timely(q, now);
    assert CreatedBy(e.requests, now) by {
      assert forall p :: p in e.requests ==> Timely(p, now);
    }
    if q !in PruneRequests(e.requests, now) {
      HistoryCapIsSafe(e.requests, now, q);
    }
  }

  lemma DescendingAct(l: Ledger, s: Server, act: AccountAct, now: nat)
    requires ServerOk(l, s, now) && Mutate(s, act, now).Done?
    requires act.Edit? || act.Complete? || act.RevokeAgent? || act.StopAgent? || act.Reenable? || act.Tidy?
    ensures Descends(s.acct.requests, Mutate(s, act, now).d.requests)
  {
    var d := s.acct;
    match act {
      case Edit(id, name, mac, agentId) => UpdateTargetKeeps(d, id, name, mac, agentId, now);
      case Complete(id, agentId) => CompleteTargetKeeps(d, id, agentId, now);
      case RevokeAgent(id) => RevokeKeeps(d, id, now);
      case StopAgent(id, expected) => StopHelperKeeps(d, id, expected, now);
      case Reenable(id, name, hash) => EnableAgentKeeps(d, id, name, hash, now);
      case Tidy => AdvanceKeeps(d, now, s.targetsSeen);
    }
  }

  lemma RetainingAct(l: Ledger, s: Server, act: AccountAct, now: nat, r: WakeRequest)
    requires ServerOk(l, s, now) && Mutate(s, act, now).Done? && r in s.acct.requests
    requires !(act.Edit? || act.Complete? || act.RevokeAgent? || act.StopAgent? || act.Reenable? || act.Tidy?)
    requires !(act.Delete? && act.id == r.targetId)
    ensures r in Mutate(s, act, now).d.requests
  {
    if act.Delete? {
      DeleteTargetKeeps(s.acct, act.id, now);
    }
  }

  lemma KeptByAct(l: Ledger, s: Server, act: AccountAct, now: nat, r: WakeRequest)
    requires ServerOk(l, s, now) && FreshIds(l, s, act) && Mutate(s, act, now).Done? && r in s.acct.requests
    requires !(act.Delete? && act.id == r.targetId)
    ensures Kept(r, Mutate(s, act, now).d.requests)
  {
    if act.Edit? || act.Complete? || act.RevokeAgent? || act.StopAgent? || act.Reenable? || act.Tidy? {
      DescendingAct(l, s, act, now);
      KeptByDescent(r, s.acct.requests, Mutate(s, act, now).d.requests);
    } else {
      RetainingAct(l, s, act, now, r);
      KeptSame(r, Mutate(s, act, now).d.requests);
    }
  }

  lemma KeptByAccount(v: World, act: AccountAct, r: WakeRequest)
    requires Inv(v) && StepOk(v, Step.Account(act)) && r in v.server.acct.requests
    requires ServerMs(v.now) <= r.observeUntil && !(act.Delete? && act.id == r.targetId)
    ensures Kept(r, After(v, Step.Account(act)).server.acct.requests)
  {
    var ms := ServerMs(v.now);
    ActSound(v.log, v.server, act, ms);
    KeptByAct(v.log, v.server, act, ms, r);
    KeptByPruning(r, Mutate(v.server, act, ms).d, ms);
  }

  lemma KeptByPoll(v: World, m: Msg, r: WakeRequest)
    requires Inv(v) && StepOk(v, ServePoll(m)) && r in v.server.acct.requests && ServerMs(v.now) <= r.observeUntil
    ensures Kept(r, After(v, ServePoll(m)).server.acct.requests)
  {
    var ms, d := ServerMs(v.now), v.server.acct;
    PollKeeps(d, m.agentId, ms);
    KeptByDescent(r, d.requests, Poll(d, m.agentId, ms).d.requests);
    KeptByPruning(r, Poll(d, m.agentId, ms).d, ms);
  }

  lemma KeptByPermit(v: World, m: Msg, r: WakeRequest)
    requires Inv(v) && StepOk(v, ServeAuth(m)) && r in v.server.acct.requests && ServerMs(v.now) <= r.observeUntil
    ensures Kept(r, After(v, ServeAuth(m)).server.acct.requests)
  {
    var ms, d := ServerMs(v.now), v.server.acct;
    AuthorizeKeeps(d, m.id, OwnRequest(d, m.id, m.hash).value.agentId, ms);
    KeptByDescent(r, d.requests, Authorized(v, m).d.requests);
    KeptByPruning(r, Authorized(v, m).d, ms);
  }

  lemma KeptByReceipt(v: World, m: Msg, r: WakeRequest)
    requires Inv(v) && StepOk(v, ServeReceipt(m)) && r in v.server.acct.requests && ServerMs(v.now) <= r.observeUntil
    ensures Kept(r, After(v, ServeReceipt(m)).server.acct.requests)
  {
    var ms, d := ServerMs(v.now), v.server.acct;
    ReportKeeps(d, m.id, OwnRequest(d, m.id, m.hash).value.agentId, m.sent, m.code, ms, v.server.targetsSeen);
    KeptByDescent(r, d.requests, Reported(v, m).d.requests);
    KeptByPruning(r, Reported(v, m).d, ms);
  }

  lemma TwoProgress(r: WakeRequest, q: WakeRequest, p: WakeRequest)
    requires Progresses(r, q) && Progresses(q, p)
    ensures Progresses(r, p)
  {
  }

  lemma KeptThrough(r: WakeRequest, s: seq<WakeRequest>, t: seq<WakeRequest>)
    requires Kept(r, s) && Descends(s, t)
    ensures Kept(r, t)
  {
    var q :| q in s && Progresses(r, q);
    var i :| 0 <= i < |s| && s[i] == q;
    TwoProgress(r, q, t[i]);
    assert t[i] in t;
  }

  lemma KeptByRecovery(r: WakeRequest, d: WakeModel.Account, now: nat)
    requires Sound(d, now) && r in d.requests && now <= r.observeUntil
    ensures Kept(r, d.RecoverAfterRestart(now).requests)
  {
    KeptSame(r, d.requests);
    KeptByPruning(r, d, now);
    RestartKeeps(d, now);
    KeptThrough(r, d.Prune(now).requests, d.RecoverAfterRestart(now).requests);
  }

  /** In every reachable state, whatever the server, a helper, the network or the clock does next, a
      stored request still within its observation stays stored, unless its target is deleted. */
  lemma ObservedRequestsAreKept(v: World, step: Step, r: WakeRequest)
    requires Reachable(v) && StepOk(v, step) && r in v.server.acct.requests
    ensures ServerMs(v.now) <= r.observeUntil && !(step.Account? && step.act.Delete? && step.act.id == r.targetId)
            ==> Kept(r, After(v, step).server.acct.requests)
  {
    ReachableInv(v);
    if ServerMs(v.now) <= r.observeUntil && !(step.Account? && step.act.Delete? && step.act.id == r.targetId) {
      match step {
        case Account(act) => KeptByAccount(v, act, r);
        case ServePoll(m) => KeptByPoll(v, m, r);
        case ServeAuth(m) => KeptByPermit(v, m, r);
        case ServeReceipt(m) => KeptByReceipt(v, m, r);
        case Restart => KeptByRecovery(r, v.server.acct, ServerMs(v.now));
        case _ => KeptSame(r, v.server.acct.requests);
      }
    }
  }
}
