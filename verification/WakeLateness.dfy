/** How long a helper may take between its last look at the clock and the packet: exactly 49
    milliseconds and one nanosecond if its monotonic clock is honest, and no time at all if only its
    wall clock is. The runs that are late are built step by step. */
module WakeLateness {
  import opened Wrappers
  import opened Seqs
  import opened WakeModel
  import opened WakeRoutes
  import opened WakeLedger
  import opened HelperMachine
  import opened WakeProtocol
  import opened WakeTheorems

  // ---- Longer runs --------------------------------------------------------------------------

  lemma {:induction false} RunsAppend(w: World, steps: seq<WakeProtocol.Step>, step: WakeProtocol.Step)
    requires Runs(w, steps) && StepOk(Reached(w, steps), step)
    ensures Runs(w, steps + [step]) && Reached(w, steps + [step]) == After(Reached(w, steps), step)
    decreases |steps|
  {
    if steps == [] {
      assert [step][1..] == [];
      assert Runs(After(w, step), []);
    } else {
      RunsAppend(After(w, steps[0]), steps[1..], step);
      assert (steps + [step])[1..] == steps[1..] + [step];
    }
  }

  lemma Goes(v: World, step: WakeProtocol.Step, u: World)
    requires Reachable(v) && StepOk(v, step) && After(v, step) == u
    ensures Reachable(u)
  {
    var w, steps :| Init(w) && Runs(w, steps) && Reached(w, steps) == v;
    RunsAppend(w, steps, step);
  }

  lemma GoesAccount(v: World, act: AccountAct, d: WakeModel.Account, s: Server, l: Ledger)
    requires Reachable(v) && FreshIds(v.log, v.server, act)
    requires Mutate(v.server, act, ServerMs(v.now)) == Done(d, ())
    requires s == Committed(v.server, act, d, ServerMs(v.now)) && l == LogAct(v.log, act, d)
    ensures Reachable(v.(server := s, log := l))
  {
    Goes(v, Step.Account(act), v.(server := s, log := l));
  }

  lemma GoesTime(v: World, d: nat)
    requires Reachable(v)
    ensures Reachable(v.(now := v.now + d))
  {
    Goes(v, Elapse(d), v.(now := v.now + d));
  }

  /** One action of the only helper, given what it does to the helper. */
  lemma GoesRun(v: World, node: Node, a: Act, h: Helper)
    requires Reachable(v) && v.nodes == [node] && RunOk(v, 0, a) && !Emits(a) && Next(node.h, a) == h
    ensures Reachable(v.(nodes := [Node(h, node.agentId, node.hash, node.clock,
                                        if a.SendPoll? || a.SendAuth? then v.now else node.asked,
                                        if a.Check? then v.now else node.checked)],
                         net := v.net + Outgoing(node, 0, a)))
  {
    var k := NodeAfter(node, a, v.now, node.clock);
    assert v.nodes[0 := k] == [k];
    Goes(v, Step.Run(0, a, node.clock), v.(nodes := [k], net := v.net + Outgoing(node, 0, a)));
  }

  // ---- The cast -------------------------------------------------------------------------------

  const MAC: Mac := [2, 0, 0, 0, 0, 1]
  const AGENT := WakeAgent("a", "", "h", true)
  const TARGET := WakeTarget(true, "t", "", "d", MAC, "a", 1, "k", 0)
  const QUEUED := WakeRequest("r", "t", "a", 1, 0, 30_000, 120_000, Queued, None, None, None, None, None)
  const CLAIMED := QUEUED.(phase := Claimed, claimedAt := Some(0))
  const GRANTED := CLAIMED.(authorizedAt := Some(28_000))
  const JOB := Job("r", MAC, 30_000, true)

  /** The last instants of the millisecond of the request, and of that two seconds before it expires:
      when the helper polls, and when it asks. */
  const POLLED: nat := 999_999
  const ASKED: nat := 28_000_999_999

  /** A helper's clock as it is read at the poll, at the question and at the check, and when that is. */
  datatype Tale = Tale(clock: Clock, start: Reading, asking: Reading, looking: Reading, checked: nat)
  {
    function Limit(): Reading { Plus(start, 30_000) }

    function Leased(): Reading {
      var lease := Plus(asking, 1_950);
      if Before(lease, Limit()) then lease else Limit()
    }

    /** The readings are the honest clock's, and the check passes. */
    predicate Told() {
      ReadAt(clock, POLLED, start) && ReadAt(clock, ASKED, asking) && ReadAt(clock, checked, looking)
      && ASKED <= checked && WithinDeadline(looking, Leased())
    }
  }

  /** The latest check on an honest monotonic clock, 49,000,002 nanoseconds before the request expires. */
  const STEADY := Tale(Monotonic(0), Reading(POLLED, 0), Reading(ASKED, 0), Reading(29_950_999_998, 0), 29_950_999_998)

  /** The latest check with only the wall clock honest, 999,998 nanoseconds after: the monotonic clock,
      first a little fast and then slow, makes the poll's deadline pass for the sooner one. */
  const ASTRAY := Tale(WallClock(1), Reading(0, POLLED + 1), Reading(28_050_000_000, ASKED + 1),
                       Reading(29_000_000_000, 30_000_999_999), 30_000_999_998)

  lemma BothTold()
    ensures STEADY.Told() && ASTRAY.Told()
  {
  }

  function Serving(reqs: seq<WakeRequest>): Server {
    Server(WakeModel.Account([TARGET], [AGENT], reqs), map["a" := 0], map[])
  }

  function HelperAt(pc: Pc, journal: Journal, calls: nat): Helper { Helper(pc, journal, journal, calls) }

  function NodeAt(x: Tale, h: Helper, asked: int, checked: int): Node { Node(h, "a", "h", x.clock, asked, checked) }

  const EMPTY := Ledger(map[], map[], map[], {}, [])
  const CONFIGURED := EMPTY.(config := map[("t", 1) := Config(MAC, "a")])
  const REQUESTED := CONFIGURED.(requests := map["r" := QUEUED])

  const POLL_REQ := PollReq(Call(0, 0), "a", "h")
  const POLL_REP := PollRep(Call(0, 0), JOB)
  const AUTH_REQ := AuthReq(Call(0, 1), "r", "h")
  const AUTH_REP := AuthRep(Call(0, 1), "r", 2000)
  const PERMITTED := REQUESTED.(permits := map["r" := Permit(Call(0, 1), MAC)])

  function Packets(): seq<bv8> { MagicPacket(MAC).value }

  lemma MacWakes()
    ensures MagicPacket(MAC).Some?
  {
    assert (2 as bv8) & 1 == 0;
    assert MAC != [0, 0, 0, 0, 0, 0] by {
      assert MAC[0] == 2;
    }
  }

  lemma PruneOne(r: WakeRequest, now: nat)
    requires Recent(now)(r)
    ensures PruneRequests([r], now) == [r]
  {
    assert [r][..0] == [];
    assert Filter([r], Recent(now)) == [r];
    assert NewestFirst([r]) == [r];
  }

  lemma PruneNone(now: nat)
    ensures PruneRequests([], now) == []
  {
  }

  lemma One<T>(x: T, y: T)
    ensures [x][0 := y] == [y]
  {
  }

  // ---- The account -------------------------------------------------------------------------------

  const BARE := WakeModel.Account([], [AGENT], [])
  const READY := WakeModel.Account([TARGET], [AGENT], [])

  function WithRequest(r: WakeRequest): WakeModel.Account { READY.(requests := [r]) }

  lemma AgentEnabled(d: WakeModel.Account)
    requires d.agents == [AGENT]
    ensures EnabledAgent(d, "a") && Authentic(d, "a", "h")
  {
    assert d.agents[0].id == "a";
  }

  lemma FirstTarget(p: WakeTarget -> bool)
    requires p(TARGET)
    ensures Find([TARGET], p) == 0
  {
  }

  lemma NoTarget(p: WakeTarget -> bool)
    ensures Find([], p) == 0
  {
  }

  lemma FirstRequest(r: WakeRequest, p: WakeRequest -> bool)
    requires p(r)
    ensures Find([r], p) == 0
  {
  }

  lemma TargetAdded()
    ensures CreateTarget(BARE, "t", "k", "", "d", MAC, "a", 0) == Done(READY, ())
  {
    AgentEnabled(BARE);
    assert [] + [TARGET] == [TARGET];
  }

  lemma TargetNoted()
    ensures NoteTarget(EMPTY, READY, "t") == CONFIGURED
  {
    FirstTarget(TargetIs("t"));
  }

  lemma RequestMade()
    ensures CreateRequest(READY, "t", "r", 0, map["a" := 0], map[]) == Done(WithRequest(QUEUED), QUEUED)
  {
    FirstTarget(TargetIs("t"));
    AgentEnabled(READY);
    assert [] + [QUEUED] == [QUEUED];
    assert NewRequest("r", TARGET, 0) == QUEUED;
  }

  lemma RequestNoted()
    ensures NoteRequest(CONFIGURED, WithRequest(QUEUED), "r") == REQUESTED
  {
    FirstRequest(QUEUED, RequestIs("r"));
  }

  lemma RequestPolled()
    ensures Poll(WithRequest(QUEUED), "a", 0) == Done(WithRequest(CLAIMED), JOB)
  {
    AgentEnabled(WithRequest(QUEUED));
    FirstRequest(QUEUED, Claimable("a", 0));
    FirstTarget(ServedBy(QUEUED, "a"));
    assert [QUEUED][0 := CLAIMED] == [CLAIMED];
  }

  lemma RequestGranted()
    ensures Authorize(WithRequest(CLAIMED), "r", "a", 28_000) == Done(WithRequest(GRANTED), 2000)
    ensures OwnRequest(WithRequest(CLAIMED), "r", "h") == Some(CLAIMED)
    ensures AddressNow(WithRequest(CLAIMED), CLAIMED) == MAC
  {
    AgentEnabled(WithRequest(CLAIMED));
    FirstRequest(CLAIMED, RequestIs("r"));
    FirstTarget(ServedBy(CLAIMED, "a"));
    assert [CLAIMED][0 := GRANTED] == [GRANTED];
  }

  // ---- The run ----------------------------------------------------------------------------------

  function Scene(x: Tale, s: Server, h: Helper, asked: int, checked: int, net: set<Msg>, log: Ledger, now: nat): World {
    World(now, s, [NodeAt(x, h, asked, checked)], net, log)
  }

  const DOWN := HelperAt(Down, map[], 0)

  lemma Started(x: Tale)
    ensures Reachable(Scene(x, Server(WakeModel.Account([], [], []), map[], map[]), DOWN, 0, 0, {}, EMPTY, 0))
  {
    var w := Scene(x, Server(WakeModel.Account([], [], []), map[], map[]), DOWN, 0, 0, {}, EMPTY, 0);
    assert Init(w) && Runs(w, []) && Reached(w, []) == w;
  }

  lemma Enrolled(x: Tale)
    ensures Reachable(Scene(x, Server(BARE, map[], map[]), DOWN, 0, 0, {}, EMPTY, 0))
  {
    Started(x);
    PruneNone(0);
    var w := Scene(x, Server(WakeModel.Account([], [], []), map[], map[]), DOWN, 0, 0, {}, EMPTY, 0);
    assert [] + [AGENT] == [AGENT];
    GoesAccount(w, AddAgent("a", "", "h"), BARE, Server(BARE, map[], map[]), EMPTY);
  }

  lemma Configured(x: Tale)
    ensures Reachable(Scene(x, Server(READY, map[], map[]), DOWN, 0, 0, {}, CONFIGURED, 0))
  {
    Enrolled(x);
    PruneNone(0);
    TargetAdded();
    TargetNoted();
    GoesAccount(Scene(x, Server(BARE, map[], map[]), DOWN, 0, 0, {}, EMPTY, 0), AddTarget("t", "k", "", "d", MAC, "a"),
                READY, Server(READY, map[], map[]), CONFIGURED);
  }

  lemma Seen(x: Tale)
    ensures Reachable(Scene(x, Serving([]), DOWN, 0, 0, {}, CONFIGURED, 0))
  {
    Configured(x);
    AgentEnabled(READY);
    var w := Scene(x, Server(READY, map[], map[]), DOWN, 0, 0, {}, CONFIGURED, 0);
    assert map[]["a" := 0] == map["a" := 0];
    Goes(w, HelperSeen("a", "h"), Scene(x, Serving([]), DOWN, 0, 0, {}, CONFIGURED, 0));
  }

  lemma Requested(x: Tale)
    ensures Reachable(Scene(x, Serving([QUEUED]), DOWN, 0, 0, {}, REQUESTED, 0))
  {
    Seen(x);
    RequestMade();
    RequestNoted();
    PruneOne(QUEUED, 0);
    GoesAccount(Scene(x, Serving([]), DOWN, 0, 0, {}, CONFIGURED, 0), Ask("t", "r"), WithRequest(QUEUED),
                Serving([QUEUED]), REQUESTED);
  }

  // ---- The helper's part ---------------------------------------------------------------------------

  function JournalOf(x: Tale): Journal {
    map["r" := Entry(UnixMilli(x.Limit()), EntryPhase.Reserved, "", 0, false)]
  }

  const IDLE := HelperAt(Idle, map[], 0)

  function PollingNow(x: Tale): Helper { HelperAt(Polling(0, x.start), map[], 1) }
  function HoldingNow(x: Tale): Helper { HelperAt(Pc.Holding(JOB, x.start), map[], 1) }
  function ReadyNow(x: Tale): Helper { HelperAt(Ready(JOB, x.Limit()), JournalOf(x), 1) }
  function AskingNow(x: Tale): Helper {
    HelperAt(Asking("r", Packets(), x.Limit(), 1, x.asking), JournalOf(x), 2)
  }
  function SendingNow(x: Tale): Helper { HelperAt(Sending("r", Packets(), x.Leased(), 1, 0), JournalOf(x), 2) }
  function ArmedNow(x: Tale): Helper { HelperAt(Armed("r", Packets(), x.Leased(), 1, 0), JournalOf(x), 2) }

  lemma Boots()
    ensures Enabled(DOWN, Boot) && Next(DOWN, Boot) == IDLE
  {
  }

  lemma Polls(x: Tale)
    ensures Enabled(IDLE, SendPoll(x.start)) && Next(IDLE, SendPoll(x.start)) == PollingNow(x)
  {
  }

  lemma Takes(x: Tale)
    ensures Enabled(PollingNow(x), PollJob(JOB)) && Next(PollingNow(x), PollJob(JOB)) == HoldingNow(x)
  {
  }

  lemma Reserves(x: Tale)
    ensures Enabled(HoldingNow(x), Act.Reserve(x.start, map[], Saved))
            && Next(HoldingNow(x), Act.Reserve(x.start, map[], Saved)) == ReadyNow(x)
  {
    assert Identifier("r");
    var none: map<string, int> := map[];
    assert HoldingNow(x).mem - none.Keys == map[];
  }

  lemma Asks(x: Tale)
    ensures Enabled(ReadyNow(x), SendAuth(x.asking)) && Next(ReadyNow(x), SendAuth(x.asking)) == AskingNow(x)
  {
    MacWakes();
  }

  lemma Granted(x: Tale)
    ensures Enabled(AskingNow(x), AuthGranted(2000, Saved))
            && Next(AskingNow(x), AuthGranted(2000, Saved)) == SendingNow(x)
  {
  }

  lemma Looks(x: Tale)
    requires x.Told()
    ensures Enabled(SendingNow(x), Check(x.looking, Saved))
            && Next(SendingNow(x), Check(x.looking, Saved)) == ArmedNow(x)
  {
  }

  // ---- The run, continued --------------------------------------------------------------------------

  lemma Booted(x: Tale)
    ensures Reachable(Scene(x, Serving([QUEUED]), IDLE, 0, 0, {}, REQUESTED, POLLED))
  {
    Requested(x);
    GoesTime(Scene(x, Serving([QUEUED]), DOWN, 0, 0, {}, REQUESTED, 0), POLLED);
    Boots();
    var w := Scene(x, Serving([QUEUED]), DOWN, 0, 0, {}, REQUESTED, POLLED);
    assert w.net + {} == {};
    GoesRun(w, NodeAt(x, DOWN, 0, 0), Boot, IDLE);
  }

  lemma Polled(x: Tale)
    requires x.Told()
    ensures Reachable(Scene(x, Serving([QUEUED]), PollingNow(x), POLLED, 0, {POLL_REQ}, REQUESTED, POLLED))
  {
    Booted(x);
    Polls(x);
    var v := Scene(x, Serving([QUEUED]), IDLE, 0, 0, {}, REQUESTED, POLLED);
    assert v.net + {POLL_REQ} == {POLL_REQ};
    GoesRun(v, NodeAt(x, IDLE, 0, 0), SendPoll(x.start), PollingNow(x));
  }

  lemma Answered(x: Tale)
    requires x.Told()
    ensures Reachable(Scene(x, Serving([CLAIMED]), PollingNow(x), POLLED, 0, {POLL_REQ, POLL_REP}, REQUESTED, POLLED))
  {
    Polled(x);
    RequestPolled();
    AgentEnabled(WithRequest(QUEUED));
    PruneOne(CLAIMED, 0);
    assert ServerMs(POLLED) == 0;
    var w := Scene(x, Serving([QUEUED]), PollingNow(x), POLLED, 0, {POLL_REQ}, REQUESTED, POLLED);
    assert w.net + {POLL_REP} == {POLL_REQ, POLL_REP};
    Goes(w, ServePoll(POLL_REQ),
         Scene(x, Serving([CLAIMED]), PollingNow(x), POLLED, 0, {POLL_REQ, POLL_REP}, REQUESTED, POLLED));
  }

  lemma Taken(x: Tale)
    requires x.Told()
    ensures Reachable(Scene(x, Serving([CLAIMED]), HoldingNow(x), POLLED, 0, {POLL_REQ, POLL_REP}, REQUESTED, POLLED))
  {
    Answered(x);
    Takes(x);
    var w := Scene(x, Serving([CLAIMED]), PollingNow(x), POLLED, 0, {POLL_REQ, POLL_REP}, REQUESTED, POLLED);
    assert w.net + {} == w.net;
    GoesRun(w, NodeAt(x, PollingNow(x), POLLED, 0), PollJob(JOB), HoldingNow(x));
  }

  lemma Secured(x: Tale)
    requires x.Told()
    ensures Reachable(Scene(x, Serving([CLAIMED]), ReadyNow(x), POLLED, 0, {POLL_REQ, POLL_REP}, REQUESTED, ASKED))
  {
    Taken(x);
    Reserves(x);
    var v := Scene(x, Serving([CLAIMED]), HoldingNow(x), POLLED, 0, {POLL_REQ, POLL_REP}, REQUESTED, POLLED);
    assert v.net + {} == v.net;
    GoesRun(v, NodeAt(x, HoldingNow(x), POLLED, 0), Act.Reserve(x.start, map[], Saved), ReadyNow(x));
    GoesTime(Scene(x, Serving([CLAIMED]), ReadyNow(x), POLLED, 0, {POLL_REQ, POLL_REP}, REQUESTED, POLLED),
             ASKED - POLLED);
  }

  const ALL_MESSAGES := {POLL_REQ, POLL_REP, AUTH_REQ, AUTH_REP}

  lemma Questioned(x: Tale)
    requires x.Told()
    ensures Reachable(Scene(x, Serving([CLAIMED]), AskingNow(x), ASKED, 0, {POLL_REQ, POLL_REP, AUTH_REQ},
                            REQUESTED, ASKED))
  {
    Secured(x);
    Asks(x);
    var w := Scene(x, Serving([CLAIMED]), ReadyNow(x), POLLED, 0, {POLL_REQ, POLL_REP}, REQUESTED, ASKED);
    assert w.net + {AUTH_REQ} == {POLL_REQ, POLL_REP, AUTH_REQ};
    GoesRun(w, NodeAt(x, ReadyNow(x), POLLED, 0), SendAuth(x.asking), AskingNow(x));
  }

  lemma Allowed(x: Tale)
    requires x.Told()
    ensures Reachable(Scene(x, Serving([GRANTED]), AskingNow(x), ASKED, 0, ALL_MESSAGES, PERMITTED, ASKED))
  {
    Questioned(x);
    RequestGranted();
    PruneOne(GRANTED, 28_000);
    var w := Scene(x, Serving([CLAIMED]), AskingNow(x), ASKED, 0, {POLL_REQ, POLL_REP, AUTH_REQ}, REQUESTED, ASKED);
    assert ServerMs(ASKED) == 28_000;
    assert w.net + {AUTH_REP} == ALL_MESSAGES;
    assert map[]["r" := Permit(Call(0, 1), MAC)] == map["r" := Permit(Call(0, 1), MAC)];
    Goes(w, ServeAuth(AUTH_REQ),
         Scene(x, Serving([GRANTED]), AskingNow(x), ASKED, 0, ALL_MESSAGES, PERMITTED, ASKED));
  }

  lemma Leased(x: Tale)
    requires x.Told()
    ensures Reachable(Scene(x, Serving([GRANTED]), SendingNow(x), ASKED, 0, ALL_MESSAGES, PERMITTED, x.checked))
  {
    Allowed(x);
    Granted(x);
    var w := Scene(x, Serving([GRANTED]), AskingNow(x), ASKED, 0, ALL_MESSAGES, PERMITTED, ASKED);
    assert w.net + {} == w.net;
    assert AuthRep(Call(0, 1), "r", 2000) in w.net;
    GoesRun(w, NodeAt(x, AskingNow(x), ASKED, 0), AuthGranted(2000, Saved), SendingNow(x));
    GoesTime(Scene(x, Serving([GRANTED]), SendingNow(x), ASKED, 0, ALL_MESSAGES, PERMITTED, ASKED),
             x.checked - ASKED);
  }

  lemma Checked(x: Tale)
    requires x.Told()
    ensures Reachable(Scene(x, Serving([GRANTED]), ArmedNow(x), ASKED, x.checked, ALL_MESSAGES, PERMITTED, x.checked))
  {
    Leased(x);
    Looks(x);
    var w := Scene(x, Serving([GRANTED]), SendingNow(x), ASKED, 0, ALL_MESSAGES, PERMITTED, x.checked);
    assert w.net + {} == w.net;
    GoesRun(w, NodeAt(x, SendingNow(x), ASKED, 0), Check(x.looking, Saved), ArmedNow(x));
  }

  lemma Looked(x: Tale, d: nat)
    requires x.Told()
    ensures Reachable(Scene(x, Serving([GRANTED]), ArmedNow(x), ASKED, x.checked, ALL_MESSAGES, PERMITTED,
                            x.checked + d))
  {
    Checked(x);
    GoesTime(Scene(x, Serving([GRANTED]), ArmedNow(x), ASKED, x.checked, ALL_MESSAGES, PERMITTED, x.checked), d);
  }

  function Late(x: Tale, d: nat): Packet {
    Packet("r", Call(0, 1), Packets(), x.checked, x.checked + d, x.clock.Monotonic?)
  }

  lemma Writes(w: World, clock: Clock)
    requires |w.nodes| == 1 && w.nodes[0].h.pc.Armed? && Enabled(w.nodes[0].h, Write)
    ensures StepOk(w, Step.Run(0, Write, clock))
    ensures After(w, Step.Run(0, Write, clock)).log == w.log.(packets := w.log.packets + [Emitted(w, 0)])
  {
  }

  lemma GoesWrite(w: World, clock: Clock) returns (v: World)
    requires Reachable(w) && |w.nodes| == 1 && w.nodes[0].h.pc.Armed? && Enabled(w.nodes[0].h, Write)
    ensures Reachable(v) && v.log == w.log.(packets := w.log.packets + [Emitted(w, 0)])
  {
    Writes(w, clock);
    v := After(w, Step.Run(0, Write, clock));
    Goes(w, Step.Run(0, Write, clock), v);
  }

  lemma MayWrite(x: Tale)
    ensures ArmedNow(x).pc.Armed? && Enabled(ArmedNow(x), Write)
  {
  }

  /** From the first state to a packet written d after the check, for any such clock. */
  lemma Written(x: Tale, d: nat) returns (v: World)
    requires x.Told()
    ensures Reachable(v) && v.log.packets == [Late(x, d)] && v.log.requests == map["r" := QUEUED]
  {
    Looked(x, d);
    MayWrite(x);
    var w := Scene(x, Serving([GRANTED]), ArmedNow(x), ASKED, x.checked, ALL_MESSAGES, PERMITTED, x.checked + d);
    v := GoesWrite(w, x.clock);
    assert Emitted(w, 0) == Late(x, d);
    assert [] + [Late(x, d)] == [Late(x, d)];
  }

  // ---- The bounds, both ways ----------------------------------------------------------------------

  /** Every packet of every run that is written this long after its check, by a helper of the kind,
      is out before this much after its request expires. */
  ghost predicate OutBefore(mono: bool, d: nat, after: int) {
    forall v, p :: Reachable(v) && p in v.log.packets && p.mono == mono && p.writtenAt == p.checkedAt + d ==>
      p.id in v.log.requests && p.writtenAt < v.log.requests[p.id].expiresAt * NS_PER_MS + after
  }

  /** With an honest monotonic clock a packet d after its check is out before the request expires, in
      every run, exactly when d is at most 49 milliseconds and one nanosecond: one of the fifty
      milliseconds held back pays for the server's whole milliseconds. */
  lemma SafeDelays(d: nat)
    ensures OutBefore(true, d, 0) <==> d <= 49 * NS_PER_MS + 1
  {
    if d <= 49 * NS_PER_MS + 1 {
      forall v, p | Reachable(v) && p in v.log.packets && p.mono && p.writtenAt == p.checkedAt + d
        ensures p.id in v.log.requests && p.writtenAt < v.log.requests[p.id].expiresAt * NS_PER_MS + 0
      {
        PacketsBeatTheDeadline(v, p);
      }
    } else {
      BothTold();
      var v := Written(STEADY, d);
      assert Late(STEADY, d) in v.log.packets;
      assert Late(STEADY, d).writtenAt >= v.log.requests["r"].expiresAt * NS_PER_MS + 0;
    }
  }

  /** With only the wall clock honest even a packet written at once can be late, by less than a
      millisecond: the bound after the expiry is exactly 999,999 nanoseconds more than the delay. */
  lemma WallClockLateness(d: nat, after: int)
    ensures OutBefore(false, d, after) <==> after >= d + NS_PER_MS - 1
  {
    if after >= d + NS_PER_MS - 1 {
      forall v, p | Reachable(v) && p in v.log.packets && !p.mono && p.writtenAt == p.checkedAt + d
        ensures p.id in v.log.requests && p.writtenAt < v.log.requests[p.id].expiresAt * NS_PER_MS + after
      {
        ChecksBeatTheDeadline(v, p);
      }
    } else {
      BothTold();
      var v := Written(ASTRAY, d);
      assert Late(ASTRAY, d) in v.log.packets;
      assert Late(ASTRAY, d).writtenAt >= v.log.requests["r"].expiresAt * NS_PER_MS + after;
    }
  }
}
