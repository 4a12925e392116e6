/** What holds over every run of the remote-wake protocol. */
module WakeTheorems {
  import opened Wrappers
  import opened Seqs
  import opened WakeModel
  import opened WakeRoutes
  import opened WakeLedger
  import opened HelperMachine
  import opened WakeProtocol
  import opened WakeServerSteps
  import opened WakeHelperSteps

  ghost predicate Runs(w: World, steps: seq<Step>)
    decreases |steps|
  {
    steps == [] || (StepOk(w, steps[0]) && Runs(After(w, steps[0]), steps[1..]))
  }

  ghost function Reached(w: World, steps: seq<Step>): World
    requires Runs(w, steps)
    decreases |steps|
  {
    if steps == [] then w else Reached(After(w, steps[0]), steps[1..])
  }

  /** Every step, by the server, a helper, the network or the clock, keeps the invariant. */
  lemma StepKeeps(w: World, step: Step)
    requires Inv(w) && StepOk(w, step)
    ensures Inv(After(w, step))
  {
    match step
    case Elapse(d) => ElapseStep(w, d);
    case Account(act) => AccountStep(w, act);
    case Beat(id, hash) => BeatStep(w, id, hash);
    case HelperSeen(agentId, hash) => HelperSeenStep(w, agentId, hash);
    case ServePoll(m) => ServePollStep(w, m);
    case ServeAuth(m) => ServeAuthStep(w, m);
    case ServeReceipt(m) => ServeReceiptStep(w, m);
    case Restart => RestartStep(w);
    case Run(n, a, clock) => RunStep(w, n, a, clock);
  }

  lemma {:induction false} RunsKeep(w: World, steps: seq<Step>)
    requires Inv(w) && Runs(w, steps)
    ensures Inv(Reached(w, steps))
    decreases |steps|
  {
    if steps != [] {
      StepKeeps(w, steps[0]);
      RunsKeep(After(w, steps[0]), steps[1..]);
    }
  }

  /** A state some run reaches from a fresh deployment. */
  ghost predicate Reachable(v: World) {
    exists w, steps :: Init(w) && Runs(w, steps) && Reached(w, steps) == v
  }

  lemma ReachableInv(v: World)
    requires Reachable(v)
    ensures Inv(v)
  {
    var w, steps :| Init(w) && Runs(w, steps) && Reached(w, steps) == v;
    InitOk(w);
    RunsKeep(w, steps);
  }

  // ---- At most once --------------------------------------------------------------------------------

  /** Over every run a request gets at most three packets, all from the one call that holds the
      only permit ever issued for it, whatever crashed, was lost or was repeated. */
  lemma AtMostThreePackets(v: World, id: string)
    requires Reachable(v)
    ensures Sends(v.log, id) <= 3
    ensures forall p :: p in v.log.packets && p.id == id ==> id in v.log.permits && p.call == v.log.permits[id].call
  {
    ReachableInv(v);
    forall p | p in v.log.packets && p.id == id
      ensures id in v.log.permits && p.call == v.log.permits[id].call
    {
      assert PacketOk(v.log, p);
    }
  }

  /** No permit is issued twice for one request, and none is ever changed. */
  lemma OnePermitPerRequest(v: World, m: Msg)
    requires Reachable(v) && StepOk(v, ServeAuth(m))
    ensures m.id !in v.log.permits
    ensures After(v, ServeAuth(m)).log.permits[m.id].call == m.call
  {
    ReachableInv(v);
    GrantFacts(v, m);
  }

  /** A packet leaves only while its request is durably reserved in the sender's own journal. */
  lemma SendersReservedFirst(v: World, n: nat, a: Act, clock: Clock)
    requires Reachable(v) && StepOk(v, Step.Run(n, a, clock)) && Emits(a)
    ensures var h := v.nodes[n].h;
            && h.pc.Armed? && h.pc.id in h.disk && h.disk[h.pc.id].phase == Reserved
            && h.pc.id in v.log.permits && v.log.permits[h.pc.id].call == Call(n, h.pc.call)
  {
    ReachableInv(v);
    EmitterOwns(v.nodes[n].h, a);
    assert NodeOk(n, v.nodes[n], v.now, v.log);
  }

  // ---- Deadlines without a shared clock --------------------------------------------------------------

  /** With an honest monotonic clock, a packet written no more than 49 milliseconds and one nanosecond
      after its deadline check is out before the request expires on the server's clock. */
  lemma PacketsBeatTheDeadline(v: World, p: Packet)
    requires Reachable(v) && p in v.log.packets
    ensures p.id in v.log.requests
    ensures p.mono && p.writtenAt <= p.checkedAt + 49 * NS_PER_MS + 1 ==>
              p.writtenAt < v.log.requests[p.id].expiresAt * NS_PER_MS
  {
    ReachableInv(v);
    assert PacketOk(v.log, p);
  }

  /** If only the wall clock is honest, as across a system sleep, the check itself still falls within
      the millisecond in which the request expires, a nanosecond before the end of it at the latest. */
  lemma ChecksBeatTheDeadline(v: World, p: Packet)
    requires Reachable(v) && p in v.log.packets
    ensures p.id in v.log.requests
    ensures p.checkedAt + 1 < (v.log.requests[p.id].expiresAt + 1) * NS_PER_MS
  {
    ReachableInv(v);
    assert PacketOk(v.log, p);
  }

  // ---- Truthful status ---------------------------------------------------------------------------------

  /** If the server shows a request as sent, online or unconfirmed, three packets were written for
      it; if it shows it online, a heartbeat of its target newer than the request was received. */
  lemma StatusIsTruthful(v: World, r: WakeRequest)
    requires Reachable(v) && r in v.server.acct.requests
    ensures r.phase.Delivered() ==> Sends(v.log, r.id) == 3
    ensures r.phase.Online? ==>
              r.onlineAt.Some? && r.createdAt < r.onlineAt.value && (r.targetId, r.onlineAt.value) in v.log.beats
  {
    ReachableInv(v);
    assert RequestLogged(v.log, r) && Timely(r, ServerMs(v.now));
  }

  lemma JournalIsTruthful(v: World, n: nat, id: string)
    requires Reachable(v) && n < |v.nodes| && id in v.nodes[n].h.disk && v.nodes[n].h.disk[id].phase == EntryPhase.Sent
    ensures Sends(v.log, id) == 3
  {
    ReachableInv(v);
    assert NodeOk(n, v.nodes[n], v.now, v.log);
  }

  // ---- The address -----------------------------------------------------------------------------------

  /** The address in every packet is the one recorded with its permit. */
  lemma PacketsCarryThePermittedAddress(v: World, p: Packet)
    requires Reachable(v) && p in v.log.packets
    ensures p.id in v.log.permits && MagicPacket(v.log.permits[p.id].mac) == Some(p.bytes)
  {
    ReachableInv(v);
    assert PacketOk(v.log, p);
  }

  /** A permit records the address its target has at that instant, which is also the address the
      helper was given when it polled, however the configuration changed in between. */
  lemma PermitsRecordTheLiveAddress(v: World, m: Msg)
    requires Reachable(v) && StepOk(v, ServeAuth(m))
    ensures exists t :: && t in v.server.acct.targets && Known(v.log, m.id)
                        && t.id == v.log.requests[m.id].targetId
                        && t.revision == v.log.requests[m.id].targetRevision
                        && After(v, ServeAuth(m)).log.permits[m.id].mac == t.mac
                        && Address(v.log, m.id) == t.mac
  {
    ReachableInv(v);
    GrantFacts(v, m);
    var d := v.server.acct;
    var r := d.requests[Find(d.requests, RequestIs(m.id))];
    var t := d.targets[Find(d.targets, ServedBy(r, r.agentId))];
    assert ServedBy(r, r.agentId)(t);
    assert t in d.targets;
  }

  lemma JobsCarryTheAddressOnRecord(v: World, call: Call, job: Job)
    requires Reachable(v) && PollRep(call, job) in v.net
    ensures Known(v.log, job.id) && Address(v.log, job.id) == job.mac
  {
    ReachableInv(v);
    assert MsgOk(PollRep(call, job), v.nodes, v.log);
  }

  // ---- Binding and phases ------------------------------------------------------------------------------

  /** In every reachable state each active request is bound to a completed target at its present
      revision and to an enabled helper, and no target has two. */
  lemma ActiveRequestsAreBound(v: World, i: nat)
    requires Reachable(v) && i < |v.server.acct.requests| && v.server.acct.requests[i].phase.Active()
    ensures var d, r := v.server.acct, v.server.acct.requests[i];
            && (exists t :: t in d.targets && t.id == r.targetId && t.agentId == r.agentId
                            && t.revision == r.targetRevision && t.setupComplete)
            && (exists a :: a in d.agents && a.id == r.agentId && a.enabled)
            && (forall j :: 0 <= j < |d.requests| && j != i && d.requests[j].phase.Active() ==>
                  d.requests[j].targetId != r.targetId)
  {
    ReachableInv(v);
    var d, r := v.server.acct, v.server.acct.requests[i];
    assert r in d.requests;
    assert BoundRequest(d, r);
  }

  ghost predicate Descended(s: seq<WakeRequest>, t: seq<WakeRequest>, l: Ledger) {
    forall q :: q in t ==> (exists r :: r in s && Progresses(r, q)) || q.id !in l.requests
  }

  lemma DescendsFrom(s: seq<WakeRequest>, t: seq<WakeRequest>, u: seq<WakeRequest>, l: Ledger)
    requires Descends(s, t) && multiset(u) <= multiset(t)
    ensures Descended(s, u, l)
  {
    forall q | q in u
      ensures exists r :: r in s && Progresses(r, q)
    {
      assert q in multiset(u);
      assert q in multiset(t);
      var i :| 0 <= i < |t| && t[i] == q;
      assert s[i] in s;
    }
  }

  lemma SameDescends(s: seq<WakeRequest>)
    ensures Descends(s, s)
  {
  }

  lemma ActDescends(l: Ledger, s: Server, act: AccountAct, now: nat)
    requires ServerOk(l, s, now) && FreshIds(l, s, act) && Mutate(s, act, now).Done?
    ensures Descended(s.acct.requests, Mutate(s, act, now).d.Prune(now).requests, l)
  {
    var d := s.acct;
    var e := Mutate(s, act, now).d;
    PruneSub(e.requests, now);
    SameDescends(d.requests);
    assert act.AddTarget? || act.Claim? ==> forall t :: t in d.targets ==> t.id != act.id by {
      assert forall t :: t in d.targets ==> TargetLogged(l, t);
    }
    match act
    case AddAgent(id, name, hash) => DescendsFrom(d.requests, d.requests, e.Prune(now).requests, l);
    case AddTarget(_, _, _, _, _, _) => DescendsFrom(d.requests, d.requests, e.Prune(now).requests, l);
    case Claim(_, _, _, _, _) => DescendsFrom(d.requests, d.requests, e.Prune(now).requests, l);
    case Edit(id, name, mac, agentId) =>
      UpdateTargetKeeps(d, id, name, mac, agentId, now);
      DescendsFrom(d.requests, e.requests, e.Prune(now).requests, l);
    case Complete(id, agentId) =>
      CompleteTargetKeeps(d, id, agentId, now);
      DescendsFrom(d.requests, e.requests, e.Prune(now).requests, l);
    case Delete(id) =>
      DeleteTargetKeeps(d, id, now);
      DescendsFrom(d.requests, d.requests, e.Prune(now).requests, l);
    case Rotate(_, _) => DescendsFrom(d.requests, d.requests, e.Prune(now).requests, l);
    case RevokeAgent(id) =>
      RevokeKeeps(d, id, now);
      DescendsFrom(d.requests, e.requests, e.Prune(now).requests, l);
    case StopAgent(id, expected) =>
      StopHelperKeeps(d, id, expected, now);
      DescendsFrom(d.requests, e.requests, e.Prune(now).requests, l);
    case Reenable(id, name, hash) =>
      EnableAgentKeeps(d, id, name, hash, now);
      DescendsFrom(d.requests, e.requests, e.Prune(now).requests, l);
    case Ask(targetId, id) => AskDescends(l, s, targetId, id, now);
    case Tidy =>
      AdvanceKeeps(d, now, s.targetsSeen);
      DescendsFrom(d.requests, e.requests, e.Prune(now).requests, l);
  }

  lemma AddedDescends(s: seq<WakeRequest>, e: seq<WakeRequest>, r: WakeRequest, now: nat, l: Ledger)
    requires (e == s || e == s + [r]) && (r in s || r.id !in l.requests)
    ensures Descended(s, PruneRequests(e, now), l)
  {
    PruneSub(e, now);
    forall q | q in PruneRequests(e, now)
      ensures (q in s && Progresses(q, q)) || q.id !in l.requests
    {
      assert q in e;
    }
  }

  lemma AskDescends(l: Ledger, s: Server, targetId: string, id: string, now: nat)
    requires ServerOk(l, s, now) && id !in l.requests
    requires CreateRequest(s.acct, targetId, id, now, s.agentsSeen, s.targetsSeen).Done?
    ensures var e := CreateRequest(s.acct, targetId, id, now, s.agentsSeen, s.targetsSeen).d;
            Descended(s.acct.requests, e.Prune(now).requests, l)
  {
    var c := CreateRequest(s.acct, targetId, id, now, s.agentsSeen, s.targetsSeen);
    AddedDescends(s.acct.requests, c.d.requests, c.value, now, l);
  }

  lemma ServeDescends(w: World, step: Step)
    requires Inv(w) && StepOk(w, step) && (step.ServePoll? || step.ServeAuth? || step.ServeReceipt?)
    ensures Descended(w.server.acct.requests, After(w, step).server.acct.requests, w.log)
  {
    var ms := ServerMs(w.now);
    var d := w.server.acct;
    match step
    case ServePoll(m) =>
      PollKeeps(d, m.agentId, ms);
      var e := Poll(d, m.agentId, ms).d;
      PruneSub(e.requests, ms);
      DescendsFrom(d.requests, e.requests, e.Prune(ms).requests, w.log);
    case ServeAuth(m) =>
      var r := OwnRequest(d, m.id, m.hash).value;
      AuthorizeKeeps(d, m.id, r.agentId, ms);
      var e := Authorized(w, m).d;
      PruneSub(e.requests, ms);
      DescendsFrom(d.requests, e.requests, e.Prune(ms).requests, w.log);
    case ServeReceipt(m) =>
      var r := OwnRequest(d, m.id, m.hash).value;
      ReportKeeps(d, m.id, r.agentId, m.sent, m.code, ms, w.server.targetsSeen);
      var e := Reported(w, m).d;
      PruneSub(e.requests, ms);
      DescendsFrom(d.requests, e.requests, e.Prune(ms).requests, w.log);
  }

  /** No step moves a stored request backwards or brings back one that was dropped. */
  lemma StepsOnlyProgress(w: World, step: Step)
    requires Inv(w) && StepOk(w, step)
    ensures Descended(w.server.acct.requests, After(w, step).server.acct.requests, w.log)
  {
    var ms := ServerMs(w.now);
    var d := w.server.acct;
    if step.Account? {
      ActDescends(w.log, w.server, step.act, ms);
    } else if step.ServePoll? || step.ServeAuth? || step.ServeReceipt? {
      ServeDescends(w, step);
    } else if step.Restart? {
      RestartKeeps(d, ms);
      PruneSub(d.requests, ms);
      RestartDescends(d, ms, w.log);
    } else {
      SameDescends(d.requests);
      DescendsFrom(d.requests, d.requests, d.requests, w.log);
    }
  }

  lemma RestartDescends(d: WakeModel.Account, now: nat, l: Ledger)
    requires Sound(d, now)
    ensures Descended(d.requests, d.RecoverAfterRestart(now).requests, l)
  {
    RestartKeeps(d, now);
    PruneSub(d.requests, now);
    var t := d.RecoverAfterRestart(now).requests;
    forall q | q in t
      ensures exists r :: r in d.requests && Progresses(r, q)
    {
      var i :| 0 <= i < |t| && t[i] == q;
      assert Progresses(d.Prune(now).requests[i], q);
      assert d.Prune(now).requests[i] in d.requests;
    }
  }

  ghost predicate Stored(w: World, id: string) {
    exists r :: r in w.server.acct.requests && r.id == id
  }

  ghost function Version(w: World, id: string): WakeRequest
    requires Stored(w, id)
  {
    var r :| r in w.server.acct.requests && r.id == id;
    r
  }

  /** The successive stored versions of one request along a run. */
  ghost function Versions(w: World, steps: seq<Step>, id: string): seq<WakeRequest>
    requires Runs(w, steps)
    decreases |steps|
  {
    (if Stored(w, id) then [Version(w, id)] else [])
    + (if steps == [] then [] else Versions(After(w, steps[0]), steps[1..], id))
  }

  lemma SameId(d: WakeModel.Account, now: nat, r: WakeRequest, q: WakeRequest)
    requires Sound(d, now) && r in d.requests && q in d.requests && r.id == q.id
    ensures r == q
  {
    forall i, j | 0 <= i < j < |d.requests|
      ensures d.requests[i].id != d.requests[j].id
    {
      assert RequestId()(d.requests[i]) != RequestId()(d.requests[j]);
    }
  }

  lemma VersionDescends(w: World, v: World, id: string)
    requires Sound(w.server.acct, ServerMs(w.now)) && id in w.log.requests && Stored(v, id)
    requires Descended(w.server.acct.requests, v.server.acct.requests, w.log)
    ensures Stored(w, id) && Progresses(Version(w, id), Version(v, id))
  {
    var q := Version(v, id);
    var r :| r in w.server.acct.requests && Progresses(r, q);
    SameId(w.server.acct, ServerMs(w.now), r, Version(w, id));
  }

  lemma VersionProgress(w: World, step: Step, id: string)
    requires Inv(w) && StepOk(w, step) && id in w.log.requests && Stored(After(w, step), id)
    ensures Stored(w, id) && Progresses(Version(w, id), Version(After(w, step), id))
  {
    StepsOnlyProgress(w, step);
    VersionDescends(w, After(w, step), id);
  }

  lemma LedgerRemembers(w: World, step: Step, id: string)
    requires Inv(w) && StepOk(w, step)
    ensures id in w.log.requests ==> id in After(w, step).log.requests
    ensures Stored(w, id) ==> id in w.log.requests
  {
    assert forall r :: r in w.server.acct.requests ==> RequestLogged(w.log, r);
  }

  ghost predicate Chain(h: seq<WakeRequest>) {
    forall i :: 0 <= i < |h| - 1 ==> Progresses(h[i], h[i + 1])
  }

  lemma ChainGrows(r: WakeRequest, h: seq<WakeRequest>)
    requires Chain(h) && (h != [] ==> Progresses(r, h[0]))
    ensures Chain([r] + h)
  {
    var g := [r] + h;
    forall i | 0 <= i < |g| - 1
      ensures Progresses(g[i], g[i + 1])
    {
      assert i > 0 ==> g[i] == h[i - 1] && g[i + 1] == h[i];
    }
  }

  lemma {:induction false} VersionsProgress(w: World, steps: seq<Step>, id: string)
    requires Inv(w) && Runs(w, steps)
    ensures var h := Versions(w, steps, id);
            && Chain(h)
            && (Stored(w, id) ==> h != [] && h[0] == Version(w, id))
            && (!Stored(w, id) && id in w.log.requests ==> h == [])
    decreases |steps|
  {
    if steps != [] {
      var v := After(w, steps[0]);
      StepKeeps(w, steps[0]);
      LedgerRemembers(w, steps[0], id);
      VersionsProgress(v, steps[1..], id);
      if id in w.log.requests && Stored(v, id) {
        VersionProgress(w, steps[0], id);
      }
      if Stored(w, id) {
        ChainGrows(Version(w, id), Versions(v, steps[1..], id));
      }
    }
  }

  /** Between any two versions of one history the phase never goes back, changes at most as often as
      its rank grows, and stays once it is terminal. */
  lemma Between(h: seq<WakeRequest>, i: nat, j: nat)
    requires Chain(h) && i <= j < |h|
    ensures PhaseChanges(h[i..j + 1]) + h[i].phase.Rank() <= h[j].phase.Rank() <= 3
    ensures h[i].phase.Rank() == 3 ==> h[j].phase == h[i].phase
  {
    var g := h[i..j + 1];
    forall k | 0 <= k < |g| - 1
      ensures Progresses(g[k], g[k + 1])
    {
      assert Progresses(h[i + k], h[i + k + 1]);
    }
    AtMostThreePhaseChanges(g);
  }

  /** A history with at most three changes of phase, none of them backwards or out of a terminal phase. */
  ghost predicate Advances(h: seq<WakeRequest>) {
    && PhaseChanges(h) <= 3
    && forall i, j :: 0 <= i <= j < |h| ==>
         h[i].phase.Rank() <= h[j].phase.Rank() && (h[i].phase.Rank() == 3 ==> h[j].phase == h[i].phase)
  }

  lemma ChainAdvances(h: seq<WakeRequest>)
    requires Chain(h)
    ensures Advances(h)
  {
    if h != [] {
      Between(h, 0, |h| - 1);
      assert h[0..|h| - 1 + 1] == h;
    }
    forall i, j | 0 <= i <= j < |h|
      ensures h[i].phase.Rank() <= h[j].phase.Rank() && (h[i].phase.Rank() == 3 ==> h[j].phase == h[i].phase)
    {
      Between(h, i, j);
    }
  }

  /** Along every run a request changes phase at most three times, always forwards, and from any point
      of the run on a terminal phase is final. */
  lemma PhasesOnlyAdvance(w: World, steps: seq<Step>, id: string)
    requires Init(w) && Runs(w, steps)
    ensures Advances(Versions(w, steps, id))
  {
    InitOk(w);
    VersionsProgress(w, steps, id);
    ChainAdvances(Versions(w, steps, id));
  }

  /** Advancing at or after the end of its observation leaves no request active. */
  lemma TidyingFinishesOldRequests(v: World, r: WakeRequest)
    requires Reachable(v) && StepOk(v, Step.Account(Tidy))
    requires r in After(v, Step.Account(Tidy)).server.acct.requests && ServerMs(v.now) >= r.observeUntil
    ensures !r.phase.Active()
  {
    ReachableInv(v);
    var ms := ServerMs(v.now);
    var d := AdvanceAll(v.server.acct, ms, v.server.targetsSeen);
    PruneSub(d.requests, ms);
    var i :| 0 <= i < |d.requests| && d.requests[i] == r;
    var q := v.server.acct.requests[i];
    assert q in v.server.acct.requests;
    AdvanceProgresses(q, ms, Lookup(v.server.targetsSeen, q.targetId));
    AdvanceTerminates(q, ms, Lookup(v.server.targetsSeen, q.targetId));
  }

  /** The request a create call returns is stored when the call returns. */
  lemma CreatedRequestIsStored(v: World, targetId: string, id: string)
    requires Reachable(v) && StepOk(v, Step.Account(Ask(targetId, id)))
    ensures var c := CreateRequest(v.server.acct, targetId, id, ServerMs(v.now),
                                   v.server.agentsSeen, v.server.targetsSeen);
            && c.Done? && c.value.targetId == targetId && c.value.phase.Active()
            && (c.value !in v.server.acct.requests ==>
                  c.value.id == id && c.value in After(v, Step.Account(Ask(targetId, id))).server.acct.requests)
  {
    ReachableInv(v);
    var ms := ServerMs(v.now);
    assert forall r :: r in v.server.acct.requests ==> RequestLogged(v.log, r);
    CreateRequestKeeps(v.server.acct, targetId, id, ms, v.server.agentsSeen, v.server.targetsSeen);
  }
}
