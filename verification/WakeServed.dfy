/** Which requests of a helper the server serves, in every reachable state, and what it then stores. */
module WakeServed {
  import opened Wrappers
  import opened Seqs
  import opened WakeModel
  import opened WakeRoutes
  import opened WakeLedger
  import opened WakeProtocol
  import opened WakeTheorems
  import opened WakeAnswers

  /** The caller holds the token of the request's own helper, which is enabled. */
  ghost predicate ByItsHelper(d: WakeModel.Account, r: WakeRequest, hash: string) {
    exists a :: a in d.agents && a.id == r.agentId && a.enabled && a.tokenHash == hash
  }

  lemma AuthenticIsExists(d: WakeModel.Account, agentId: string, hash: string)
    ensures Authentic(d, agentId, hash)
            <==> exists a :: a in d.agents && a.id == agentId && a.enabled && a.tokenHash == hash
    ensures Authentic(d, agentId, hash) ==> HasAgent(d.agents, agentId)
  {
    if a :| a in d.agents && a.id == agentId && a.enabled && a.tokenHash == hash {
      var i :| 0 <= i < |d.agents| && d.agents[i] == a;
    }
  }

  lemma OwnIsNamed(d: WakeModel.Account, id: string, hash: string, r: WakeRequest)
    requires Distinct(d.requests, RequestId()) && r in d.requests && r.id == id
    ensures OwnRequest(d, id, hash) == if ByItsHelper(d, r, hash) then Some(r) else None
    ensures ByItsHelper(d, r, hash) ==> HasAgent(d.agents, r.agentId)
  {
    var i :| 0 <= i < |d.requests| && d.requests[i] == r;
    TheRequest(d.requests, i);
    AuthenticIsExists(d, r.agentId, hash);
  }

  lemma NoneNamed(d: WakeModel.Account, id: string, hash: string)
    requires forall r :: r in d.requests ==> r.id != id
    ensures OwnRequest(d, id, hash) == None
  {
    FindsNone(d.requests, RequestIs(id));
  }

  lemma StateIsSound(v: World)
    requires Reachable(v)
    ensures Sound(v.server.acct, ServerMs(v.now))
  {
    ReachableInv(v);
  }

  lemma StillObserved(d: WakeModel.Account, q: WakeRequest, now: nat)
    requires Sound(d, now) && q in d.requests && now < q.createdAt + 30_000
    ensures q in d.Prune(now).requests
  {
    assert Timely(q, now);
    assert CreatedBy(d.requests, now) by {
      assert forall r :: r in d.requests ==> Timely(r, now);
    }
    if q !in PruneRequests(d.requests, now) {
      HistoryCapIsSafe(d.requests, now, q);
    }
  }

  // ---- Receipts ------------------------------------------------------------------------------------------

  /** A receipt is served exactly when it comes from the request's own helper, and the request is
      settled already or can be reported on and is under thirty seconds old. */
  lemma ReceiptsServed(v: World, m: Msg)
    requires Reachable(v) && m.ReceiptReq? && m in v.net
    ensures StepOk(v, ServeReceipt(m))
            <==> exists r :: r in v.server.acct.requests && r.id == m.id && ByItsHelper(v.server.acct, r, m.hash)
                             && (Settled(r) || (OpenTo(r, m.sent) && ServerMs(v.now) < r.createdAt + 30_000))
  {
    var d, now := v.server.acct, ServerMs(v.now);
    StateIsSound(v);
    if forall r :: r in d.requests ==> r.id != m.id {
      NoneNamed(d, m.id, m.hash);
    }
    forall r | r in d.requests && r.id == m.id
      ensures Reported(v, m).Done?
              <==> ByItsHelper(d, r, m.hash)
                   && (Settled(r) || (OpenTo(r, m.sent) && now < r.createdAt + 30_000))
    {
      ReceiptAnswered(v, m, r);
    }
  }

  lemma ReceiptAnswered(v: World, m: Msg, r: WakeRequest)
    requires Reachable(v) && m.ReceiptReq? && r in v.server.acct.requests && r.id == m.id
    ensures if ByItsHelper(v.server.acct, r, m.hash) then
              ReportAnswer(v.server.acct, r, m.sent, m.code, ServerMs(v.now), v.server.targetsSeen, Reported(v, m))
            else Reported(v, m).Refused?
  {
    var d, now := v.server.acct, ServerMs(v.now);
    StateIsSound(v);
    OwnIsNamed(d, m.id, m.hash, r);
    ReportAnswers(d, m.id, r.agentId, m.sent, m.code, now, v.server.targetsSeen);
  }

  /** A served receipt on a claimed request is stored as it was reported: three sent packets with the
      time and at once online exactly if the target has been seen alive since, a failure with its
      code exactly if that is clean. */
  lemma ReceiptsAreRecorded(v: World, m: Msg, r: WakeRequest)
    requires Reachable(v) && m.ReceiptReq? && StepOk(v, ServeReceipt(m))
    requires r in v.server.acct.requests && r.id == m.id && r.phase == Claimed
    ensures m.sent ==>
              exists q :: q in After(v, ServeReceipt(m)).server.acct.requests
                          && q.id == r.id && q.phase.Delivered() && q.sentAt == Some(ServerMs(v.now))
                          && (q.phase == Online
                              <==> SeenAlive(v.server.targetsSeen, r.targetId, r.createdAt, ServerMs(v.now)))
    ensures !m.sent ==>
              exists q :: q in After(v, ServeReceipt(m)).server.acct.requests && FailedWith(r, q, m.code)
  {
    var d, now := v.server.acct, ServerMs(v.now);
    StateIsSound(v);
    ReceiptAnswered(v, m, r);
    var c := Reported(v, m);
    OwnIsNamed(d, m.id, m.hash, r);
    ReportStored(d, r, m.sent, m.code, now, v.server.targetsSeen);
  }

  lemma ReportStored(d: WakeModel.Account, r: WakeRequest, sent: bool, code: Option<string>, now: nat, seen: Seen)
    requires Sound(d, now) && r in d.requests && r.phase == Claimed
    ensures var c := Report(d, r.id, r.agentId, sent, code, now, seen);
            c.Done? && ReportAnswer(d, r, sent, code, now, seen, c) ==>
              c.value in c.d.Prune(now).requests && Recorded(r, c.value, sent, code, now, seen)
  {
    var c := Report(d, r.id, r.agentId, sent, code, now, seen);
    ReportKeeps(d, r.id, r.agentId, sent, code, now, seen);
    if c.Done? && ReportAnswer(d, r, sent, code, now, seen, c) {
      StillObserved(c.d, c.value, now);
    }
  }

  // ---- Permits -------------------------------------------------------------------------------------------

  /** A permit is granted exactly to the request's own helper, asking for the first time, for a
      claimed request under thirty seconds old; in a reachable state its target is then unchanged. */
  lemma PermitsServed(v: World, m: Msg)
    requires Reachable(v) && m.AuthReq? && m in v.net
    ensures StepOk(v, ServeAuth(m))
            <==> exists r :: r in v.server.acct.requests && r.id == m.id && ByItsHelper(v.server.acct, r, m.hash)
                             && r.phase == Claimed && r.authorizedAt.None? && ServerMs(v.now) < r.createdAt + 30_000
  {
    var d, now := v.server.acct, ServerMs(v.now);
    StateIsSound(v);
    if forall r :: r in d.requests ==> r.id != m.id {
      NoneNamed(d, m.id, m.hash);
    }
    forall r | r in d.requests && r.id == m.id
      ensures Authorized(v, m).Done?
              <==> ByItsHelper(d, r, m.hash) && r.phase == Claimed && r.authorizedAt.None?
                   && now < r.createdAt + 30_000
    {
      PermitAnswered(v, m, r);
      BoundIsCurrent(d, r);
    }
  }

  lemma BoundIsCurrent(d: WakeModel.Account, r: WakeRequest)
    requires (forall q :: q in d.requests ==> BoundRequest(d, q)) && r in d.requests
    ensures r.phase == Claimed ==> Current(d, r, r.agentId)
  {
    assert BoundRequest(d, r);
  }

  lemma PermitAnswered(v: World, m: Msg, r: WakeRequest)
    requires Reachable(v) && m.AuthReq? && r in v.server.acct.requests && r.id == m.id
    ensures if ByItsHelper(v.server.acct, r, m.hash) then
              PermitAnswer(v.server.acct, r, r.agentId, ServerMs(v.now), Authorized(v, m))
            else Authorized(v, m).Refused?
  {
    StateIsSound(v);
    OwnIsNamed(v.server.acct, m.id, m.hash, r);
    AuthorizeAnswers(v.server.acct, m.id, r.agentId, ServerMs(v.now));
  }

  /** The permit is on record with its time, and lasts two seconds or what is left of the thirty. */
  lemma PermitsAreRecorded(v: World, m: Msg, r: WakeRequest)
    requires Reachable(v) && m.AuthReq? && StepOk(v, ServeAuth(m)) && r in v.server.acct.requests && r.id == m.id
    ensures var w, now := After(v, ServeAuth(m)), ServerMs(v.now);
            && r.(authorizedAt := Some(now)) in w.server.acct.requests
            && w.net == v.net + {AuthRep(m.call, r.id, if r.createdAt + 28_000 <= now
                                                        then r.createdAt + 30_000 - now else 2000)}
  {
    var d, now := v.server.acct, ServerMs(v.now);
    StateIsSound(v);
    PermitAnswered(v, m, r);
    OwnIsNamed(d, m.id, m.hash, r);
    AuthorizeKeeps(d, m.id, r.agentId, now);
    StillObserved(Authorized(v, m).d, r.(authorizedAt := Some(now)), now);
  }

  // ---- Polls ---------------------------------------------------------------------------------------------

  /** A poll finds a job exactly when one is waiting for the helper, which must prove itself. */
  lemma PollsServed(v: World, m: Msg)
    requires Reachable(v) && m.PollReq? && m in v.net
    ensures StepOk(v, ServePoll(m))
            <==> (exists a :: a in v.server.acct.agents && a.id == m.agentId && a.enabled && a.tokenHash == m.hash)
                 && exists r :: r in v.server.acct.requests && Waiting(r, m.agentId, ServerMs(v.now))
  {
    var d, now := v.server.acct, ServerMs(v.now);
    StateIsSound(v);
    AuthenticIsExists(d, m.agentId, m.hash);
    PollFinds(d, m.agentId, now);
  }

  // ---- Heartbeats ----------------------------------------------------------------------------------------

  /** A target's heartbeat is accepted exactly with its own token, and then it is the last seen of that
      target, on record for good; nothing else of the server changes. */
  lemma HeartbeatsAreRecorded(v: World, id: string, hash: string)
    ensures StepOk(v, Beat(id, hash))
            <==> exists t :: t in v.server.acct.targets && t.id == id && t.tokenHash == hash
    ensures StepOk(v, Beat(id, hash)) ==>
              var w, ms := After(v, Beat(id, hash)), ServerMs(v.now);
              && w.server.acct == v.server.acct && w.server.agentsSeen == v.server.agentsSeen
              && w.server.targetsSeen == v.server.targetsSeen[id := ms] && (id, ms) in w.log.beats
  {
    var targets := v.server.acct.targets;
    if t :| t in targets && t.id == id && t.tokenHash == hash {
      var i :| 0 <= i < |targets| && targets[i] == t;
    }
  }

  /** A helper's poll marks it as seen exactly with its own token while enabled. */
  lemma HelpersAreSeen(v: World, agentId: string, hash: string)
    ensures StepOk(v, HelperSeen(agentId, hash))
            <==> exists a :: a in v.server.acct.agents && a.id == agentId && a.enabled && a.tokenHash == hash
    ensures StepOk(v, HelperSeen(agentId, hash)) ==>
              var w := After(v, HelperSeen(agentId, hash));
              && w.server.acct == v.server.acct && w.server.targetsSeen == v.server.targetsSeen
              && w.server.agentsSeen == v.server.agentsSeen[agentId := ServerMs(v.now)]
  {
    AuthenticIsExists(v.server.acct, agentId, hash);
  }

  /** A commit forgets when it was last seen exactly for a target deleted or given a new token, and for a
      helper removed, stopped or enabled anew. */
  lemma CommitsForgetSeen(v: World, act: AccountAct)
    requires StepOk(v, Step.Account(act))
    ensures var s, t := v.server, After(v, Step.Account(act)).server;
            && (forall id :: id in t.targetsSeen
                             <==> id in s.targetsSeen && !((act.Delete? || act.Rotate?) && act.id == id))
            && (forall id :: id in t.targetsSeen ==> t.targetsSeen[id] == s.targetsSeen[id])
            && (forall id :: id in t.agentsSeen
                             <==> id in s.agentsSeen
                                  && !((act.RevokeAgent? || act.StopAgent? || act.Reenable?) && act.id == id))
            && (forall id :: id in t.agentsSeen ==> t.agentsSeen[id] == s.agentsSeen[id])
  {
  }
}
