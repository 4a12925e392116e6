/** The helpers' half of the protocol invariant: every action of every process keeps it. */
module WakeHelperSteps {
  import opened Wrappers
  import opened Seqs
  import opened WakeModel
  import opened WakeRoutes
  import opened WakeLedger
  import opened HelperMachine
  import opened WakeProtocol

  // ---- The acting process: where it stands after an action that emits nothing ------------------

  lemma PolledJob(w: World, n: nat, a: Act)
    requires Inv(w) && RunOk(w, n, a) && a.PollJob?
    ensures PcOk(n, w.nodes[n].(h := Next(w.nodes[n].h, a)), w.now, w.log)
  {
    var node := w.nodes[n];
    assert NodeOk(n, node, w.now, w.log);
    assert MsgOk(PollRep(Call(n, node.h.pc.call), a.job), w.nodes, w.log);
  }

  /** Nothing has been sent for a request whose permit belongs to a call not yet answered. */
  lemma NothingSentYet(l: Ledger, id: string, call: Call)
    requires LedgerOk(l) && id in l.permits && l.permits[id].call == call
    requires forall p :: p in l.packets ==> p.call != call
    ensures Sends(l, id) == 0
  {
    forall p | p in l.packets
      ensures !Of(id)(p)
    {
      assert PacketOk(l, p);
    }
    NoneCounted(l.packets, Of(id));
  }

  lemma {:induction false} NoneCounted<T>(s: seq<T>, p: T -> bool)
    requires forall x :: x in s ==> !p(x)
    ensures Count(s, p) == 0
  {
    if s != [] {
      NoneCounted(s[..|s| - 1], p);
    }
  }

  /** The permit's lease, taken from before the request was sent, ends before the request does. */
  lemma LeaseEndsInTime(clock: Clock, asked: int, pc: Pc, remaining: int, l: Ledger, id: string)
    requires pc.Asking? && id in l.requests
    requires ReadAt(clock, asked, pc.started) && Holds(clock, pc.deadline, Due(l, id))
    requires remaining * NS_PER_MS + asked < Due(l, id)
    ensures LeaseHolds(clock, Lease(pc, remaining), l, id)
  {
  }

  lemma GrantedPermit(w: World, n: nat, a: Act)
    requires Inv(w) && RunOk(w, n, a) && a.AuthGranted? && 0 < a.remaining <= 2000
    ensures PcOk(n, w.nodes[n].(h := Next(w.nodes[n].h, a)), w.now, w.log)
  {
    var node := w.nodes[n];
    var pc := node.h.pc;
    assert NodeOk(n, node, w.now, w.log);
    var id :| AuthRep(Call(n, pc.call), id, a.remaining) in w.net;
    assert MsgOk(AuthRep(Call(n, pc.call), id, a.remaining), w.nodes, w.log);
    NothingSentYet(w.log, pc.id, Call(n, pc.call));
    LeaseEndsInTime(node.clock, node.asked, pc, a.remaining, w.log, pc.id);
  }

  lemma CheckedInTime(clock: Clock, now: int, at: Reading, deadline: Reading, l: Ledger, id: string)
    requires id in l.requests && ReadAt(clock, now, at) && LeaseHolds(clock, deadline, l, id)
    requires WithinDeadline(at, deadline)
    ensures OnTime(l, id, clock.Monotonic?, now)
  {
  }

  lemma CheckPasses(w: World, n: nat, a: Act)
    requires Inv(w) && RunOk(w, n, a) && a.Check? && Rewritten(w.nodes[n].h, a).None?
    ensures PcOk(n, w.nodes[n].(h := Next(w.nodes[n].h, a), checked := w.now), w.now, w.log)
  {
    var node := w.nodes[n];
    assert NodeOk(n, node, w.now, w.log);
    CheckedInTime(node.clock, w.now, a.at, node.h.pc.deadline, w.log, node.h.pc.id);
  }

  lemma Reserved(w: World, n: nat, a: Act)
    requires Inv(w) && RunOk(w, n, a) && a.Reserve?
    ensures PcOk(n, w.nodes[n].(h := Next(w.nodes[n].h, a)), w.now, w.log)
  {
    assert NodeOk(n, w.nodes[n], w.now, w.log);
  }

  lemma Opened(w: World, n: nat, a: Act)
    requires Inv(w) && RunOk(w, n, a) && (a.SendPoll? || a.SendAuth?)
    ensures PcOk(n, w.nodes[n].(h := Next(w.nodes[n].h, a), asked := w.now), w.now, w.log)
  {
    assert NodeOk(n, w.nodes[n], w.now, w.log);
  }

  /** Every other action that writes no packet leaves no obligation behind. */
  lemma Rested(h: Helper, a: Act)
    requires Enabled(h, a) && !Emits(a)
    requires !a.PollJob? && !a.Reserve? && !a.SendPoll? && !a.SendAuth?
    requires a.AuthGranted? ==> !(0 < a.remaining <= 2000)
    requires a.Check? ==> Rewritten(h, a).Some?
    ensures var k := Next(h, a);
            k.pc.Down? || k.pc.Idle? || k.pc.Reporting? || (k.pc.Awaiting? && k.pc.call < k.calls)
  {
    if Rewritten(h, a).Some? {
      RewriteReleases(h, a);
      RewriteNext(h, a);
    } else {
      MoveNext(h, a);
      MovedCalls(h, a);
      MovedSends(h, a);
      QuietSends(h, a);
    }
  }

  lemma QuietSends(h: Helper, a: Act)
    requires Enabled(h, a) && !a.Reserve? && Rewritten(h, a).None? && !Emits(a)
    ensures !a.Write? && (a.AuthGranted? ==> 0 < a.remaining <= 2000)
  {
  }

  lemma QuietPc(w: World, n: nat, a: Act, clock: Clock)
    requires Inv(w) && RunOk(w, n, a) && !Emits(a)
    ensures PcOk(n, NodeAfter(w.nodes[n], a, w.now, clock), w.now, w.log)
  {
    var h := w.nodes[n].h;
    if a.PollJob? {
      PolledJob(w, n, a);
    } else if a.Reserve? {
      Reserved(w, n, a);
    } else if a.SendPoll? || a.SendAuth? {
      Opened(w, n, a);
    } else if a.AuthGranted? && 0 < a.remaining <= 2000 {
      GrantedPermit(w, n, a);
    } else if a.Check? && Rewritten(h, a).None? {
      CheckPasses(w, n, a);
    } else {
      Rested(h, a);
    }
  }

  // ---- The journal stays truthful -----------------------------------------------------------------

  lemma RewriteTrue(l: Ledger, h: Helper, w: Rewrite, save: Save)
    requires JournalTrue(h.disk, l) && h.mem == h.disk && w.id in h.mem
    requires w.entry.phase == EntryPhase.Sent ==> Sends(l, w.id) == 3
    ensures JournalTrue(Commit(h, h.mem[w.id := w.entry], save, w.onto).disk, l)
  {
  }

  lemma RecordedTruth(w: World, n: nat, a: Act)
    requires Inv(w) && RunOk(w, n, a) && !a.Reserve? && Rewritten(w.nodes[n].h, a).Some?
    requires Rewritten(w.nodes[n].h, a).value.entry.phase == EntryPhase.Sent
    ensures Sends(w.log, Rewritten(w.nodes[n].h, a).value.id) == 3
  {
    var node := w.nodes[n];
    assert NodeOk(n, node, w.now, w.log);
    RewriteShape(node.h, a);
  }

  lemma ReserveTrue(l: Ledger, h: Helper, a: Act)
    requires JournalTrue(h.disk, l) && h.mem == h.disk && Enabled(h, a) && a.Reserve?
    ensures JournalTrue(Next(h, a).disk, l)
  {
  }

  lemma JournalStep(w: World, n: nat, a: Act)
    requires Inv(w) && RunOk(w, n, a)
    ensures JournalTrue(Next(w.nodes[n].h, a).disk, w.log)
  {
    var h := w.nodes[n].h;
    assert NodeOk(n, w.nodes[n], w.now, w.log);
    if a.Reserve? {
      ReserveTrue(w.log, h, a);
    } else if Rewritten(h, a).Some? {
      JournalRewrite(w, n, a, Rewritten(h, a).value);
    }
  }

  lemma JournalRewrite(w: World, n: nat, a: Act, r: Rewrite)
    requires Inv(w) && RunOk(w, n, a) && !a.Reserve? && Rewritten(w.nodes[n].h, a) == Some(r)
    ensures r.id in w.nodes[n].h.mem
    ensures var h := w.nodes[n].h;
            JournalTrue(Commit(h, h.mem[r.id := r.entry], SaveOf(a), r.onto).disk, w.log)
  {
    assert NodeOk(n, w.nodes[n], w.now, w.log);
    RewriteShape(w.nodes[n].h, a);
    if r.entry.phase == EntryPhase.Sent {
      RecordedTruth(w, n, a);
    }
    RewriteTrue(w.log, w.nodes[n].h, r, SaveOf(a));
  }

  lemma CallsGrow(h: Helper, a: Act)
    requires Enabled(h, a)
    ensures Next(h, a).calls >= h.calls
    ensures OpensCall(a) ==> Next(h, a).calls == h.calls + 1
  {
    if OpensCall(a) {
      OpenersMove(h, a);
    }
    if a.Reserve? {
      ReserveShape(h, a);
    } else if Rewritten(h, a).Some? {
      RewriteNext(h, a);
    } else {
      MoveNext(h, a);
    }
  }

  lemma ActorOk(w: World, n: nat, a: Act, clock: Clock)
    requires Inv(w) && RunOk(w, n, a) && !Emits(a)
    ensures NodeOk(n, NodeAfter(w.nodes[n], a, w.now, clock), w.now, w.log)
  {
    assert NodeOk(n, w.nodes[n], w.now, w.log);
    HealthyStep(w.nodes[n].h, a);
    JournalStep(w, n, a);
    CallsGrow(w.nodes[n].h, a);
    QuietPc(w, n, a, clock);
  }

  // ---- Messages -----------------------------------------------------------------------------------

  lemma FreshPoll(h: Helper, a: Act)
    requires Enabled(h, a) && Next(h, a).pc.Polling?
    ensures a.SendPoll? && Next(h, a).pc.call == h.calls
  {
    if a.Reserve? {
      ReserveShape(h, a);
    } else if Rewritten(h, a).Some? {
      RewriteReleases(h, a);
      RewriteNext(h, a);
    } else {
      MoveNext(h, a);
      MovedCalls(h, a);
    }
  }

  lemma FreshAsk(h: Helper, a: Act)
    requires Enabled(h, a) && Next(h, a).pc.Asking?
    ensures a.SendAuth? && Next(h, a).pc.call == h.calls
  {
    if a.Reserve? {
      ReserveShape(h, a);
    } else if Rewritten(h, a).Some? {
      RewriteReleases(h, a);
      RewriteNext(h, a);
    } else {
      MoveNext(h, a);
      MovedCalls(h, a);
    }
  }

  /** A call is opened only with a number no message carries yet. */
  lemma FreshCalls(h: Helper, a: Act)
    requires Enabled(h, a)
    ensures Next(h, a).pc.Polling? || Next(h, a).pc.Asking? ==> Next(h, a).pc.call == h.calls
  {
    if Next(h, a).pc.Polling? {
      FreshPoll(h, a);
    } else if Next(h, a).pc.Asking? {
      FreshAsk(h, a);
    }
  }

  lemma OldMessageOk(m: Msg, w: World, n: nat, a: Act, clock: Clock)
    requires Inv(w) && RunOk(w, n, a) && m in w.net
    ensures MsgOk(m, w.nodes[n := NodeAfter(w.nodes[n], a, w.now, clock)], w.log)
  {
    assert MsgOk(m, w.nodes, w.log);
    FreshCalls(w.nodes[n].h, a);
    CallsGrow(w.nodes[n].h, a);
  }

  lemma NewMessageOk(m: Msg, w: World, n: nat, a: Act, clock: Clock)
    requires Inv(w) && RunOk(w, n, a) && m in Outgoing(w.nodes[n], n, a)
    ensures MsgOk(m, w.nodes[n := NodeAfter(w.nodes[n], a, w.now, clock)], w.log)
  {
    assert NodeOk(n, w.nodes[n], w.now, w.log);
    CallsGrow(w.nodes[n].h, a);
  }

  lemma QuietRunStep(w: World, n: nat, a: Act, clock: Clock)
    requires Inv(w) && RunOk(w, n, a) && !Emits(a)
    ensures Inv(After(w, Step.Run(n, a, clock)))
  {
    var v := After(w, Step.Run(n, a, clock));
    ActorOk(w, n, a, clock);
    forall m | m in v.net
      ensures MsgOk(m, v.nodes, v.log)
    {
      if m in w.net {
        OldMessageOk(m, w, n, a, clock);
      } else {
        NewMessageOk(m, w, n, a, clock);
      }
    }
  }

  // ---- A packet goes out ------------------------------------------------------------------------------

  /** The ledger with one more packet, sent by the holder of the permit within its deadline. */
  ghost predicate Emission(l: Ledger, p: Packet) {
    PacketOk(l, p) && Sends(l, p.id) < 3
  }

  function With(l: Ledger, p: Packet): Ledger { l.(packets := l.packets + [p]) }

  lemma SendsAfter(l: Ledger, p: Packet, id: string)
    ensures Sends(With(l, p), id) == Sends(l, id) + (if id == p.id then 1 else 0)
  {
    CountAppend(l.packets, p, Of(id));
  }

  lemma EmissionLedger(l: Ledger, p: Packet)
    requires LedgerOk(l) && Emission(l, p)
    ensures LedgerOk(With(l, p))
  {
    forall id
      ensures Sends(With(l, p), id) <= 3
    {
      SendsAfter(l, p, id);
    }
    forall q | q in With(l, p).packets
      ensures PacketOk(With(l, p), q)
    {
      assert q == p || q in l.packets;
      assert PacketOk(l, q);
    }
  }

  lemma EmissionServer(l: Ledger, p: Packet, s: Server, now: nat)
    requires ServerOk(l, s, now) && Emission(l, p)
    ensures ServerOk(With(l, p), s, now)
  {
    forall r | r in s.acct.requests
      ensures RequestLogged(With(l, p), r)
    {
      assert RequestLogged(l, r);
      SendsAfter(l, p, r.id);
    }
    forall t | t in s.acct.targets
      ensures TargetLogged(With(l, p), t)
    {
      assert TargetLogged(l, t);
    }
  }

  lemma EmissionJournal(l: Ledger, p: Packet, j: Journal)
    requires JournalTrue(j, l) && Sends(l, p.id) < 3
    ensures JournalTrue(j, With(l, p))
  {
    forall id | id in j && j[id].phase == EntryPhase.Sent
      ensures Sends(With(l, p), id) == 3
    {
      SendsAfter(l, p, id);
    }
  }

  /** Another process is not disturbed: it holds no permit for the same request. */
  lemma EmissionOther(l: Ledger, p: Packet, m: nat, node: Node, now: int)
    requires NodeOk(m, node, now, l) && Emission(l, p) && p.call.node != m
    ensures NodeOk(m, node, now, With(l, p))
  {
    EmissionJournal(l, p, node.h.disk);
    var pc := node.h.pc;
    if pc.Sending? || pc.Armed? {
      SendsAfter(l, p, pc.id);
    }
  }

  lemma EmissionMessage(l: Ledger, p: Packet, m: Msg, nodes: seq<Node>)
    requires MsgOk(m, nodes, l) && Emission(l, p)
    ensures MsgOk(m, nodes, With(l, p))
  {
    if m.ReceiptReq? {
      SendsAfter(l, p, m.id);
    }
  }

  lemma EmittedOk(w: World, n: nat, a: Act)
    requires Inv(w) && RunOk(w, n, a) && Emits(a)
    ensures w.nodes[n].h.pc.Armed? && Emission(w.log, Emitted(w, n))
    ensures Emitted(w, n).call.number < w.nodes[n].h.calls
    ensures Sends(w.log, w.nodes[n].h.pc.id) == w.nodes[n].h.pc.count
  {
    EmitterOwns(w.nodes[n].h, a);
    assert NodeOk(n, w.nodes[n], w.now, w.log);
  }

  lemma EmitterPc(w: World, n: nat, a: Act, clock: Clock)
    requires Inv(w) && RunOk(w, n, a) && Emits(a)
    ensures w.nodes[n].h.pc.Armed?
    ensures PcOk(n, NodeAfter(w.nodes[n], a, w.now, clock), w.now, With(w.log, Emitted(w, n)))
  {
    var node := w.nodes[n];
    EmittedOk(w, n, a);
    assert NodeOk(n, node, w.now, w.log);
    SendsAfter(w.log, Emitted(w, n), node.h.pc.id);
    if a.WriteFailed? {
      RewriteReleases(node.h, a);
    }
  }

  lemma EmitterOk(w: World, n: nat, a: Act, clock: Clock)
    requires Inv(w) && RunOk(w, n, a) && Emits(a)
    ensures w.nodes[n].h.pc.Armed?
    ensures NodeOk(n, NodeAfter(w.nodes[n], a, w.now, clock), w.now, With(w.log, Emitted(w, n)))
  {
    var node := w.nodes[n];
    assert NodeOk(n, node, w.now, w.log);
    EmittedOk(w, n, a);
    EmitterPc(w, n, a, clock);
    HealthyStep(node.h, a);
    JournalStep(w, n, a);
    EmissionJournal(w.log, Emitted(w, n), Next(node.h, a).disk);
    CallsGrow(node.h, a);
  }

  lemma EmitOthers(w: World, n: nat, p: Packet, m: nat)
    requires Inv(w) && Emission(w.log, p) && p.call.node == n && m < |w.nodes| && m != n
    ensures NodeOk(m, w.nodes[m], w.now, With(w.log, p))
  {
    EmissionOther(w.log, p, m, w.nodes[m], w.now);
  }

  lemma EmitShape(w: World, n: nat, a: Act, clock: Clock)
    requires RunOk(w, n, a) && Emits(a) && w.nodes[n].h.pc.Armed?
    ensures var v := After(w, Step.Run(n, a, clock));
            v.now == w.now && v.log == With(w.log, Emitted(w, n))
            && v.nodes == w.nodes[n := NodeAfter(w.nodes[n], a, w.now, clock)]
  {
  }

  lemma EmitMessages(w: World, n: nat, a: Act, clock: Clock, m: Msg)
    requires Inv(w) && RunOk(w, n, a) && Emits(a) && m in After(w, Step.Run(n, a, clock)).net
    requires w.nodes[n].h.pc.Armed?
    ensures var v := After(w, Step.Run(n, a, clock)); MsgOk(m, v.nodes, v.log)
  {
    var v := After(w, Step.Run(n, a, clock));
    EmittedOk(w, n, a);
    OldMessageOk(m, w, n, a, clock);
    EmissionMessage(w.log, Emitted(w, n), m, v.nodes);
  }

  lemma EmitEveryNode(w: World, n: nat, a: Act, clock: Clock)
    requires Inv(w) && RunOk(w, n, a) && Emits(a)
    ensures var v := After(w, Step.Run(n, a, clock));
            forall m :: 0 <= m < |v.nodes| ==> NodeOk(m, v.nodes[m], v.now, v.log)
  {
    EmittedOk(w, n, a);
    EmitterOk(w, n, a, clock);
    EmitShape(w, n, a, clock);
    forall m | 0 <= m < |w.nodes| && m != n
      ensures NodeOk(m, w.nodes[m], w.now, With(w.log, Emitted(w, n)))
    {
      EmitOthers(w, n, Emitted(w, n), m);
    }
  }

  lemma EmitEveryMessage(w: World, n: nat, a: Act, clock: Clock)
    requires Inv(w) && RunOk(w, n, a) && Emits(a)
    ensures var v := After(w, Step.Run(n, a, clock)); forall m :: m in v.net ==> MsgOk(m, v.nodes, v.log)
  {
    var v := After(w, Step.Run(n, a, clock));
    EmitterOk(w, n, a, clock);
    forall m | m in v.net
      ensures MsgOk(m, v.nodes, v.log)
    {
      EmitMessages(w, n, a, clock, m);
    }
  }

  lemma EmitRunStep(w: World, n: nat, a: Act, clock: Clock)
    requires Inv(w) && RunOk(w, n, a) && Emits(a)
    ensures Inv(After(w, Step.Run(n, a, clock)))
  {
    EmittedOk(w, n, a);
    var p := Emitted(w, n);
    EmissionLedger(w.log, p);
    EmissionServer(w.log, p, w.server, ServerMs(w.now));
    EmitEveryNode(w, n, a, clock);
    EmitEveryMessage(w, n, a, clock);
  }

  lemma RunStep(w: World, n: nat, a: Act, clock: Clock)
    requires Inv(w) && StepOk(w, Step.Run(n, a, clock))
    ensures Inv(After(w, Step.Run(n, a, clock)))
  {
    if Emits(a) {
      EmitRunStep(w, n, a, clock);
    } else {
      QuietRunStep(w, n, a, clock);
    }
  }
}
