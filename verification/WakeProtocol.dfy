/** The remote-wake protocol end to end: one account on the server, any number of helper
    processes that may share its credentials, and a network that delays, loses, reorders and
    repeats messages. Time is one true clock in nanoseconds on which the server reads whole
    milliseconds; each helper reads its own clocks, of which at least one runs at true rate. */
module WakeProtocol {
  import opened Wrappers
  import opened Seqs
  import opened WakeModel
  import opened WakeRoutes
  import opened WakeLedger
  import opened HelperMachine

  /** Which of a helper's two clocks is honest, and its offset; the other may read anything. */
  datatype Clock = Monotonic(offset: int) | WallClock(offset: int)

  predicate ReadAt(clock: Clock, t: int, r: Reading) {
    match clock
    case Monotonic(offset) => r.mono == t + offset
    case WallClock(offset) => r.wall == t + offset
  }

  datatype Msg =
    | PollReq(call: Call, agentId: string, hash: string)
    | PollRep(call: Call, job: Job)
    | AuthReq(call: Call, id: string, hash: string)
    | AuthRep(call: Call, id: string, remaining: int)
    | ReceiptReq(call: Call, id: string, hash: string, sent: bool, code: Option<string>)

  /** A helper process with its credentials; asked and checked are the true times of the last
      poll or permit request and of the last deadline check. */
  datatype Node = Node(h: Helper, agentId: string, hash: string, clock: Clock, asked: int, checked: int)

  datatype World = World(now: nat, server: Server, nodes: seq<Node>, net: set<Msg>, log: Ledger)

  datatype Step =
    | Elapse(d: nat)
    | Account(act: AccountAct)
    | Beat(id: string, hash: string)
    | HelperSeen(agentId: string, hash: string)
    | ServePoll(m: Msg)
    | ServeAuth(m: Msg)
    | ServeReceipt(m: Msg)
    | Restart
    | Run(n: nat, a: Act, clock: Clock)

  function ServerMs(t: nat): nat { t / 1_000_000 }

  predicate Authentic(d: Account, agentId: string, hash: string) {
    exists i :: 0 <= i < |d.agents| && d.agents[i].id == agentId && d.agents[i].enabled && d.agents[i].tokenHash == hash
  }

  predicate AuthenticTarget(d: Account, id: string, hash: string) {
    exists i :: 0 <= i < |d.targets| && d.targets[i].id == id && d.targets[i].tokenHash == hash
  }

  /** The request a device names, if the caller proves to be that request's helper. */
  function OwnRequest(d: Account, id: string, hash: string): Option<WakeRequest> {
    var k := Find(d.requests, RequestIs(id));
    if k < |d.requests| && Authentic(d, d.requests[k].agentId, hash) then Some(d.requests[k]) else None
  }

  function Authorized(w: World, m: Msg): Change<nat>
    requires m.AuthReq?
  {
    match OwnRequest(w.server.acct, m.id, m.hash)
    case Some(r) => Authorize(w.server.acct, m.id, r.agentId, ServerMs(w.now))
    case None => Refused("unauthorized")
  }

  function Reported(w: World, m: Msg): Change<WakeRequest>
    requires m.ReceiptReq?
  {
    match OwnRequest(w.server.acct, m.id, m.hash)
    case Some(r) => Report(w.server.acct, m.id, r.agentId, m.sent, m.code, ServerMs(w.now), w.server.targetsSeen)
    case None => Refused("unauthorized")
  }

  // ---- Which steps can happen -------------------------------------------------------------

  ghost predicate RunOk(w: World, n: nat, a: Act) {
    && n < |w.nodes| && Enabled(w.nodes[n].h, a)
    && (a.SendPoll? || a.SendAuth? || a.Check? ==> ReadAt(w.nodes[n].clock, w.now, a.at))
    && (a.PollJob? ==> PollRep(Call(n, w.nodes[n].h.pc.call), a.job) in w.net)
    && (a.AuthGranted? ==> exists id :: AuthRep(Call(n, w.nodes[n].h.pc.call), id, a.remaining) in w.net)
  }

  ghost predicate StepOk(w: World, step: Step) {
    match step
    case Elapse(_) => true
    case Account(act) => Mutate(w.server, act, ServerMs(w.now)).Done? && FreshIds(w.log, w.server, act)
    case Beat(id, hash) => AuthenticTarget(w.server.acct, id, hash)
    case HelperSeen(agentId, hash) => Authentic(w.server.acct, agentId, hash)
    case ServePoll(m) =>
      m.PollReq? && m in w.net && Authentic(w.server.acct, m.agentId, m.hash)
      && Poll(w.server.acct, m.agentId, ServerMs(w.now)).Done?
    case ServeAuth(m) => m.AuthReq? && m in w.net && Authorized(w, m).Done?
    case ServeReceipt(m) => m.ReceiptReq? && m in w.net && Reported(w, m).Done?
    case Restart => true
    case Run(n, a, _) => RunOk(w, n, a)
  }

  // ---- What a step does ----------------------------------------------------------------------

  /** The packet an emitting helper puts on its network now. */
  function Emitted(w: World, n: nat): Packet
    requires n < |w.nodes| && w.nodes[n].h.pc.Armed?
  {
    var pc := w.nodes[n].h.pc;
    Packet(pc.id, Call(n, pc.call), pc.packet, w.nodes[n].checked, w.now, w.nodes[n].clock.Monotonic?)
  }

  /** The message an action sends. */
  function Outgoing(node: Node, n: nat, a: Act): set<Msg>
    requires Enabled(node.h, a)
  {
    var call := Call(n, node.h.calls);
    if a.SendPoll? then {PollReq(call, node.agentId, node.hash)}
    else if a.SendAuth? then {AuthReq(call, node.h.pc.job.id, node.hash)}
    else if a.SendReceipt? then
      var e := node.h.mem[node.h.pc.id];
      {ReceiptReq(call, node.h.pc.id, node.hash, e.phase == EntryPhase.Sent, Some(e.error))}
    else {}
  }

  function NodeAfter(node: Node, a: Act, now: nat, clock: Clock): Node
    requires Enabled(node.h, a)
  {
    Node(Next(node.h, a), node.agentId, node.hash,
         if a.Boot? then clock else node.clock,
         if a.SendPoll? || a.SendAuth? then now else node.asked,
         if a.Check? then now else node.checked)
  }

  function LogRun(w: World, n: nat, a: Act): Ledger
    requires n < |w.nodes| && Enabled(w.nodes[n].h, a)
  {
    if Emits(a) then w.log.(packets := w.log.packets + [Emitted(w, n)]) else w.log
  }

  /** The address the request's target has at this instant. */
  function AddressNow(d: Account, r: WakeRequest): Mac {
    var i := Find(d.targets, ServedBy(r, r.agentId));
    if i < |d.targets| then d.targets[i].mac else []
  }

  function After(w: World, step: Step): World
    requires StepOk(w, step)
  {
    var ms := ServerMs(w.now);
    var s := w.server;
    match step
    case Elapse(d) => w.(now := w.now + d)
    case Account(act) =>
      var d := Mutate(s, act, ms).d;
      w.(server := Committed(s, act, d, ms), log := LogAct(w.log, act, d))
    case Beat(id, _) =>
      w.(server := s.(targetsSeen := s.targetsSeen[id := ms]), log := w.log.(beats := w.log.beats + {(id, ms)}))
    case HelperSeen(agentId, _) => w.(server := s.(agentsSeen := s.agentsSeen[agentId := ms]))
    case ServePoll(m) =>
      var c := Poll(s.acct, m.agentId, ms);
      w.(server := s.(acct := c.d.Prune(ms)), net := w.net + {PollRep(m.call, c.value)})
    case ServeAuth(m) =>
      var c := Authorized(w, m);
      var r := OwnRequest(s.acct, m.id, m.hash).value;
      w.(server := s.(acct := c.d.Prune(ms)),
         net := w.net + {AuthRep(m.call, m.id, c.value)},
         log := w.log.(permits := w.log.permits[m.id := Permit(m.call, AddressNow(s.acct, r))]))
    case ServeReceipt(m) => w.(server := s.(acct := Reported(w, m).d.Prune(ms)))
    case Restart => w.(server := Server(s.acct.RecoverAfterRestart(ms), map[], map[]))
    case Run(n, a, clock) =>
      w.(nodes := w.nodes[n := NodeAfter(w.nodes[n], a, w.now, clock)],
         net := w.net + Outgoing(w.nodes[n], n, a),
         log := LogRun(w, n, a))
  }

  // ---- The invariant -----------------------------------------------------------------------------

  ghost predicate Known(l: Ledger, id: string) {
    id in l.requests && (l.requests[id].targetId, l.requests[id].targetRevision) in l.config
  }

  /** The address configured for the revision a request was made for. */
  function Address(l: Ledger, id: string): Mac
    requires Known(l, id)
  {
    l.config[(l.requests[id].targetId, l.requests[id].targetRevision)].mac
  }

  /** The end of the millisecond in which the request expires. */
  function Due(l: Ledger, id: string): int
    requires id in l.requests
  {
    (l.requests[id].expiresAt + 1) * NS_PER_MS
  }

  predicate Holds(clock: Clock, deadline: Reading, bound: int) {
    match clock
    case Monotonic(offset) => deadline.mono - offset < bound
    case WallClock(offset) => deadline.wall - offset < bound
  }

  /** A permit's deadline ends fifty milliseconds early, provided the monotonic clock is honest. */
  ghost predicate LeaseHolds(clock: Clock, deadline: Reading, l: Ledger, id: string)
    requires id in l.requests
  {
    Holds(clock, deadline, if clock.Monotonic? then Due(l, id) - 50 * NS_PER_MS else Due(l, id))
  }

  ghost predicate JobTrue(l: Ledger, job: Job) {
    Known(l, job.id) && Address(l, job.id) == job.mac
  }

  ghost predicate PacketTrue(l: Ledger, id: string, packet: seq<bv8>) {
    Known(l, id) && MagicPacket(Address(l, id)) == Some(packet)
  }

  ghost predicate PermitHeld(l: Ledger, id: string, call: Call, packet: seq<bv8>) {
    PacketTrue(l, id, packet) && id in l.permits && l.permits[id].call == call
  }

  ghost predicate OnTime(l: Ledger, id: string, mono: bool, checked: int)
    requires id in l.requests
  {
    checked + 1 < Due(l, id) - (if mono then 50 * NS_PER_MS else 0)
  }

  ghost predicate PcOk(n: nat, node: Node, now: int, l: Ledger) {
    var h := node.h;
    match h.pc
    case Polling(call, start) => call < h.calls && ReadAt(node.clock, node.asked, start)
    case Holding(job, start) =>
      JobTrue(l, job) && Holds(node.clock, Plus(start, job.remaining), Due(l, job.id))
    case Ready(job, deadline) => JobTrue(l, job) && Holds(node.clock, deadline, Due(l, job.id))
    case Asking(id, packet, deadline, call, started) =>
      && call < h.calls && PacketTrue(l, id, packet) && Holds(node.clock, deadline, Due(l, id))
      && ReadAt(node.clock, node.asked, started)
      && forall p :: p in l.packets ==> p.call != Call(n, call)
    case Sending(id, packet, deadline, call, count) =>
      && call < h.calls && PermitHeld(l, id, Call(n, call), packet)
      && LeaseHolds(node.clock, deadline, l, id) && Sends(l, id) == count
    case Armed(id, packet, deadline, call, count) =>
      && call < h.calls && PermitHeld(l, id, Call(n, call), packet)
      && LeaseHolds(node.clock, deadline, l, id) && Sends(l, id) == count
      && OnTime(l, id, node.clock.Monotonic?, node.checked)
    case Awaiting(_, call) => call < h.calls
    case _ => true
  }

  /** A journal that says sent tells the truth. */
  ghost predicate JournalTrue(j: Journal, l: Ledger) {
    forall id :: id in j && j[id].phase == EntryPhase.Sent ==> Sends(l, id) == 3
  }

  ghost predicate NodeOk(n: nat, node: Node, now: int, l: Ledger) {
    && Healthy(node.h) && node.asked <= now
    && JournalTrue(node.h.disk, l)
    && (forall p :: p in l.packets && p.call.node == n ==> p.call.number < node.h.calls)
    && PcOk(n, node, now, l)
  }

  /** The reply fits the call the helper still has open. */
  ghost predicate ReplyOk(m: Msg, node: Node, l: Ledger) {
    match m
    case PollRep(call, job) =>
      JobTrue(l, job)
      && (node.h.pc.Polling? && node.h.pc.call == call.number ==>
            job.remaining * NS_PER_MS + node.asked < Due(l, job.id))
    case AuthReq(call, id, _) => node.h.pc.Asking? && node.h.pc.call == call.number ==> node.h.pc.id == id
    case AuthRep(call, id, remaining) =>
      id in l.permits && l.permits[id].call == call && id in l.requests
      && (node.h.pc.Asking? && node.h.pc.call == call.number ==>
            node.h.pc.id == id && remaining * NS_PER_MS + node.asked < Due(l, id))
    case ReceiptReq(_, id, _, sent, _) => sent ==> Sends(l, id) == 3
    case PollReq(_, _, _) => true
  }

  ghost predicate MsgOk(m: Msg, nodes: seq<Node>, l: Ledger) {
    && m.call.node < |nodes| && m.call.number < nodes[m.call.node].h.calls
    && ReplyOk(m, nodes[m.call.node], l)
  }

  ghost predicate PacketOk(l: Ledger, p: Packet) {
    PermitHeld(l, p.id, p.call, p.bytes) && OnTime(l, p.id, p.mono, p.checkedAt)
  }

  ghost predicate LedgerOk(l: Ledger) {
    && (forall id :: id in l.permits ==> Known(l, id) && l.permits[id].mac == Address(l, id))
    && (forall p :: p in l.packets ==> PacketOk(l, p))
    && (forall id :: Sends(l, id) <= 3)
  }

  ghost predicate Inv(w: World) {
    && LedgerOk(w.log)
    && ServerOk(w.log, w.server, ServerMs(w.now))
    && (forall n :: 0 <= n < |w.nodes| ==> NodeOk(n, w.nodes[n], w.now, w.log))
    && (forall m :: m in w.net ==> MsgOk(m, w.nodes, w.log))
  }

  /** Fresh helpers that are down with a journal nobody has sent for, an empty network and ledger. */
  ghost predicate Init(w: World) {
    && w.net == {} && w.log == Ledger(map[], map[], map[], {}, [])
    && w.server == Server(WakeModel.Account([], [], []), map[], map[])
    && forall n :: 0 <= n < |w.nodes| ==>
         w.nodes[n].h.pc.Down? && w.nodes[n].h.disk == map[] && w.nodes[n].asked <= w.now
  }

  lemma InitOk(w: World)
    requires Init(w)
    ensures Inv(w)
  {
    assert forall id :: Sends(w.log, id) == 0;
    assert forall t: nat :: Count(w.server.acct.requests, InWindow(t)) == 0;
  }
}
