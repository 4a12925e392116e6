/** The server's half of the protocol invariant: every route, heartbeat and restart keeps it. */
module WakeServerSteps {
  import opened Wrappers
  import opened Seqs
  import opened WakeModel
  import opened WakeRoutes
  import opened WakeLedger
  import opened HelperMachine
  import opened WakeProtocol

  lemma PcSurvives(n: nat, node: Node, now: int, later: int, l: Ledger, m: Ledger)
    requires PcOk(n, node, now, l) && now <= later && Grows(l, m) && m.packets == l.packets
    ensures PcOk(n, node, later, m)
  {
  }

  lemma NodeSurvives(n: nat, node: Node, now: int, later: int, l: Ledger, m: Ledger)
    requires NodeOk(n, node, now, l) && now <= later && Grows(l, m) && m.packets == l.packets
    ensures NodeOk(n, node, later, m)
  {
    PcSurvives(n, node, now, later, l, m);
  }

  lemma MsgSurvives(msg: Msg, nodes: seq<Node>, l: Ledger, m: Ledger)
    requires MsgOk(msg, nodes, l) && Grows(l, m) && m.packets == l.packets
    ensures MsgOk(msg, nodes, m)
  {
  }

  lemma OthersSurvive(w: World, v: World)
    requires Inv(w) && v.nodes == w.nodes && w.now <= v.now
    requires Grows(w.log, v.log) && v.log.packets == w.log.packets
    ensures forall n :: 0 <= n < |v.nodes| ==> NodeOk(n, v.nodes[n], v.now, v.log)
    ensures forall m :: m in w.net ==> MsgOk(m, v.nodes, v.log)
  {
    forall n | 0 <= n < |v.nodes|
      ensures NodeOk(n, v.nodes[n], v.now, v.log)
    {
      NodeSurvives(n, w.nodes[n], w.now, v.now, w.log, v.log);
    }
    forall m | m in w.net
      ensures MsgOk(m, v.nodes, v.log)
    {
      MsgSurvives(m, w.nodes, w.log, v.log);
    }
  }

  lemma LedgerSurvives(l: Ledger, m: Ledger)
    requires LedgerOk(l) && Grows(l, m) && m.permits == l.permits && m.packets == l.packets
    ensures LedgerOk(m)
  {
    forall id
      ensures Sends(m, id) <= 3
    {
      assert Sends(m, id) == Sends(l, id);
    }
    forall p | p in m.packets
      ensures PacketOk(m, p)
    {
      assert PacketOk(l, p);
    }
  }

  lemma CommitOk(l: Ledger, s: Server, d: Account, now: nat, agentsSeen: Seen, targetsSeen: Seen)
    requires Sound(d, now) && AccountLogged(l, d) && SeenLogged(l, targetsSeen)
    ensures ServerOk(l, Server(d.Prune(now), agentsSeen, targetsSeen), now)
  {
    PruneKeeps(d, now);
    PruneLogged(l, d, now);
  }

  lemma LogActKeeps(l: Ledger, act: AccountAct, d: Account)
    ensures var m := LogAct(l, act, d);
            m.permits == l.permits && m.packets == l.packets && m.beats == l.beats
  {
  }

  lemma AccountStep(w: World, act: AccountAct)
    requires Inv(w) && StepOk(w, Step.Account(act))
    ensures Inv(After(w, Step.Account(act)))
  {
    var ms := ServerMs(w.now);
    var v := After(w, Step.Account(act));
    var d := Mutate(w.server, act, ms).d;
    ActSound(w.log, w.server, act, ms);
    ActLogged(w.log, w.server, act, ms);
    LogActKeeps(w.log, act, d);
    LedgerSurvives(w.log, v.log);
    CommitOk(v.log, w.server, d, ms, v.server.agentsSeen, v.server.targetsSeen);
    OthersSurvive(w, v);
  }

  lemma ElapseStep(w: World, d: nat)
    requires Inv(w)
    ensures Inv(After(w, Elapse(d)))
  {
    var v := After(w, Elapse(d));
    TimePassesKeeps(w.server.acct, ServerMs(w.now), ServerMs(v.now));
    OthersSurvive(w, v);
  }

  lemma HelperSeenStep(w: World, agentId: string, hash: string)
    requires Inv(w) && StepOk(w, HelperSeen(agentId, hash))
    ensures Inv(After(w, HelperSeen(agentId, hash)))
  {
    OthersSurvive(w, After(w, HelperSeen(agentId, hash)));
  }

  lemma BeatStep(w: World, id: string, hash: string)
    requires Inv(w) && StepOk(w, Beat(id, hash))
    ensures Inv(After(w, Beat(id, hash)))
  {
    var v := After(w, Beat(id, hash));
    LedgerSurvives(w.log, v.log);
    OthersSurvive(w, v);
    forall r | r in v.server.acct.requests
      ensures RequestLogged(v.log, r)
    {
      assert RequestLogged(w.log, r);
    }
    forall t | t in v.server.acct.targets
      ensures TargetLogged(v.log, t)
    {
      assert TargetLogged(w.log, t);
    }
  }

  lemma RestartStep(w: World)
    requires Inv(w)
    ensures Inv(After(w, Restart))
  {
    var v := After(w, Restart);
    var ms := ServerMs(w.now);
    RestartKeeps(w.server.acct, ms);
    PruneLogged(w.log, w.server.acct, ms);
    MildLogged(w.log, w.server.acct.Prune(ms).requests, v.server.acct.requests);
    OthersSurvive(w, v);
  }

  // ---- Serving helpers ----------------------------------------------------------------------------

  /** The target that serves a stored request carries the address on record for it. */
  lemma ServedAddress(l: Ledger, d: Account, r: WakeRequest, t: WakeTarget)
    requires AccountLogged(l, d) && r in d.requests && t in d.targets && ServedBy(r, r.agentId)(t)
    ensures Known(l, r.id) && Address(l, r.id) == t.mac
  {
    assert RequestLogged(l, r);
    assert TargetLogged(l, t);
  }

  lemma ReplaceLogged(l: Ledger, s: seq<WakeRequest>, k: nat, q: WakeRequest)
    requires k < |s| && (forall r :: r in s ==> RequestLogged(l, r)) && RequestLogged(l, q)
    ensures forall r :: r in s[k := q] ==> RequestLogged(l, r)
  {
  }

  lemma PollCommits(w: World, m: Msg)
    requires Inv(w) && StepOk(w, ServePoll(m))
    ensures var c := Poll(w.server.acct, m.agentId, ServerMs(w.now));
            ServerOk(w.log, w.server.(acct := c.d.Prune(ServerMs(w.now))), ServerMs(w.now))
  {
    var ms := ServerMs(w.now);
    var d := w.server.acct;
    var c := Poll(d, m.agentId, ms);
    var k := Find(d.requests, Claimable(m.agentId, ms));
    PollKeeps(d, m.agentId, ms);
    assert RequestLogged(w.log, d.requests[k]);
    ReplaceLogged(w.log, d.requests, k, c.d.requests[k]);
    CommitOk(w.log, w.server, c.d, ms, w.server.agentsSeen, w.server.targetsSeen);
  }

  lemma PollReplies(w: World, m: Msg)
    requires Inv(w) && StepOk(w, ServePoll(m))
    ensures MsgOk(PollRep(m.call, Poll(w.server.acct, m.agentId, ServerMs(w.now)).value), w.nodes, w.log)
  {
    var ms := ServerMs(w.now);
    var d := w.server.acct;
    var job := Poll(d, m.agentId, ms).value;
    var r := d.requests[Find(d.requests, Claimable(m.agentId, ms))];
    var t := d.targets[Find(d.targets, ServedBy(r, m.agentId))];
    assert Claimable(m.agentId, ms)(r);
    ServedAddress(w.log, d, r, t);
    assert RequestLogged(w.log, r);
    assert MsgOk(m, w.nodes, w.log);
    assert NodeOk(m.call.node, w.nodes[m.call.node], w.now, w.log);
  }

  lemma ServePollStep(w: World, m: Msg)
    requires Inv(w) && StepOk(w, ServePoll(m))
    ensures Inv(After(w, ServePoll(m)))
  {
    PollCommits(w, m);
    PollReplies(w, m);
    OthersSurvive(w, After(w, ServePoll(m)));
  }

  /** What holds when a permit is granted: it is the first for its request. */
  lemma GrantFacts(w: World, m: Msg)
    requires Inv(w) && StepOk(w, ServeAuth(m))
    ensures var d := w.server.acct;
            var k := Find(d.requests, RequestIs(m.id));
            && k < |d.requests| && OwnRequest(d, m.id, m.hash) == Some(d.requests[k])
            && d.requests[k].id == m.id && RequestLogged(w.log, d.requests[k])
            && m.id !in w.log.permits && Known(w.log, m.id)
            && AddressNow(d, d.requests[k]) == Address(w.log, m.id)
            && Authorized(w, m).d
                 == d.(requests := d.requests[k := d.requests[k].(authorizedAt := Some(ServerMs(w.now)))])
            && Authorized(w, m).value <= w.log.requests[m.id].expiresAt - ServerMs(w.now)
            && Sound(Authorized(w, m).d, ServerMs(w.now))
  {
    var d := w.server.acct;
    var k := Find(d.requests, RequestIs(m.id));
    var r := d.requests[k];
    assert RequestLogged(w.log, r);
    AuthorizeKeeps(d, m.id, r.agentId, ServerMs(w.now));
    var i := Find(d.targets, ServedBy(r, r.agentId));
    ServedAddress(w.log, d, r, d.targets[i]);
  }

  lemma GrantLogged(l: Ledger, d: Account, k: nat, permit: Permit, now: nat)
    requires AccountLogged(l, d) && Distinct(d.requests, RequestId()) && k < |d.requests|
    requires d.requests[k].id !in l.permits
    ensures var m := l.(permits := l.permits[d.requests[k].id := permit]);
            Grows(l, m) && AccountLogged(m, d.(requests := d.requests[k := d.requests[k].(authorizedAt := Some(now))]))
  {
    var id := d.requests[k].id;
    var m := l.(permits := l.permits[id := permit]);
    var s := d.requests[k := d.requests[k].(authorizedAt := Some(now))];
    forall i | 0 <= i < |s|
      ensures RequestLogged(m, s[i])
    {
      assert RequestLogged(l, d.requests[i]);
      if i < k {
        assert RequestId()(d.requests[i]) != RequestId()(d.requests[k]);
      } else if k < i {
        assert RequestId()(d.requests[k]) != RequestId()(d.requests[i]);
      }
    }
    forall t | t in d.targets
      ensures TargetLogged(m, t)
    {
      assert TargetLogged(l, t);
    }
  }

  lemma GrantedLedger(l: Ledger, id: string, permit: Permit)
    requires LedgerOk(l) && id !in l.permits && Known(l, id) && permit.mac == Address(l, id)
    ensures LedgerOk(l.(permits := l.permits[id := permit]))
  {
    var m := l.(permits := l.permits[id := permit]);
    forall x
      ensures Sends(m, x) <= 3
    {
      assert Sends(m, x) == Sends(l, x);
    }
    forall p | p in m.packets
      ensures PacketOk(m, p)
    {
      assert PacketOk(l, p);
    }
  }

  lemma GrantReplies(w: World, m: Msg, l: Ledger)
    requires Inv(w) && StepOk(w, ServeAuth(m))
    requires Grows(w.log, l) && m.id in l.permits && l.permits[m.id].call == m.call
    ensures MsgOk(AuthRep(m.call, m.id, Authorized(w, m).value), w.nodes, l)
  {
    GrantFacts(w, m);
    assert MsgOk(m, w.nodes, w.log);
    assert NodeOk(m.call.node, w.nodes[m.call.node], w.now, w.log);
    DueAfterGrant(w.now, w.nodes[m.call.node].asked, w.log.requests[m.id].expiresAt, Authorized(w, m).value);
  }

  lemma DueAfterGrant(now: nat, asked: int, expires: nat, remaining: int)
    requires asked <= now && remaining <= expires - ServerMs(now)
    ensures remaining * NS_PER_MS + asked < (expires + 1) * NS_PER_MS
  {
  }

  lemma ServeAuthStep(w: World, m: Msg)
    requires Inv(w) && StepOk(w, ServeAuth(m))
    ensures Inv(After(w, ServeAuth(m)))
  {
    var ms := ServerMs(w.now);
    var v := After(w, ServeAuth(m));
    var d := w.server.acct;
    var k := Find(d.requests, RequestIs(m.id));
    GrantFacts(w, m);
    var permit := Permit(m.call, AddressNow(d, d.requests[k]));
    GrantLogged(w.log, d, k, permit, ms);
    GrantedLedger(w.log, m.id, permit);
    CommitOk(v.log, w.server, Authorized(w, m).d, ms, w.server.agentsSeen, w.server.targetsSeen);
    GrantReplies(w, m, v.log);
    OthersSurvive(w, v);
  }

  /** A receipt's outcome is on record: sent only with three packets, online only with a heartbeat. */
  lemma OutcomeLogged(l: Ledger, d: Account, id: string, agentId: string, sent: bool, code: Option<string>, now: nat,
                      seen: Seen)
    requires AccountLogged(l, d) && SeenLogged(l, seen) && (sent ==> Sends(l, id) == 3)
    requires Report(d, id, agentId, sent, code, now, seen).Done?
    ensures RequestLogged(l, Report(d, id, agentId, sent, code, now, seen).value)
  {
    var r := d.requests[Find(d.requests, RequestIs(id))];
    assert RequestLogged(l, r) && RequestIs(id)(r);
  }

  lemma ReportReplaces(l: Ledger, d: Account, id: string, agentId: string, sent: bool, code: Option<string>, now: nat,
                       seen: Seen)
    requires AccountLogged(l, d) && Report(d, id, agentId, sent, code, now, seen).Done?
    requires RequestLogged(l, Report(d, id, agentId, sent, code, now, seen).value)
    ensures AccountLogged(l, Report(d, id, agentId, sent, code, now, seen).d)
  {
    ReplaceLogged(l, d.requests, Find(d.requests, RequestIs(id)), Report(d, id, agentId, sent, code, now, seen).value);
  }

  lemma ReceiptLogged(w: World, m: Msg)
    requires Inv(w) && StepOk(w, ServeReceipt(m))
    ensures Sound(Reported(w, m).d, ServerMs(w.now)) && AccountLogged(w.log, Reported(w, m).d)
  {
    var ms, d, seen := ServerMs(w.now), w.server.acct, w.server.targetsSeen;
    var agentId := OwnRequest(d, m.id, m.hash).value.agentId;
    assert MsgOk(m, w.nodes, w.log);
    ReportKeeps(d, m.id, agentId, m.sent, m.code, ms, seen);
    OutcomeLogged(w.log, d, m.id, agentId, m.sent, m.code, ms, seen);
    ReportReplaces(w.log, d, m.id, agentId, m.sent, m.code, ms, seen);
  }

  lemma ServeReceiptStep(w: World, m: Msg)
    requires Inv(w) && StepOk(w, ServeReceipt(m))
    ensures Inv(After(w, ServeReceipt(m)))
  {
    ReceiptLogged(w, m);
    CommitOk(w.log, w.server, Reported(w, m).d, ServerMs(w.now), w.server.agentsSeen, w.server.targetsSeen);
    OthersSurvive(w, After(w, ServeReceipt(m)));
  }
}
