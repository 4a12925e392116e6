/** The world around the helper's engine (tools/wake-helper/core.go, main.go): clocks, network, disk,
    server and stop signal, free to answer as they like. Everything they are asked and answer is
    kept, and an action of HelperMachine happens only when what was asked and answered since the
    action before is exactly what that action is made of. */
module HelperWorld {
  import opened Wrappers
  import opened Seqs
  import opened WakeModel
  import opened WakeRoutes
  import opened HelperMachine

  datatype Fault = Http(status: nat) | Code(code: string) | Stopped

  const STORAGE := Code("storage_failed")
  const FULL := Code("journal_full")
  const NETWORK := Code("network_or_tls")
  const GIVEN_UP := {Http(404), Http(409), Http(410)}

  /** What the helper looks at or waits for, which changes nothing. */
  datatype Sight = Clock(at: Reading) | Network(same: bool) | Stopping(stopped: bool) | Paused(ms: nat)

  /** What it does to the world, and the answer. */
  datatype Deed =
    | Polled(reply: Result<Option<Job>, Fault>)
    | Asked(id: string, permit: Result<int, Fault>)
    | Told(id: string, sent: bool, code: string, trouble: Option<Fault>)
    | Handed(id: string, packet: seq<bv8>, ok: bool)
    | Filed(items: Journal, save: Save)

  datatype Doings = Doings(did: seq<Deed>, saw: set<Sight>)

  const NOTHING := Doings([], {})

  // ---- What an action is made of -----------------------------------------------------------------------

  /** The journal an action writes. */
  function Filing(h: Helper, a: Act): seq<Deed>
    requires Enabled(h, a)
  {
    if a.Reserve? then
      var entry := Entry(UnixMilli(JobDeadline(h.pc)), Reserved, "", 0, false);
      [Filed((h.mem - a.stale.Keys)[h.pc.job.id := entry], a.save)]
    else
      match Rewritten(h, a)
      case Some(w) => [Filed(h.mem[w.id := w.entry], SaveOf(a))]
      case None => []
  }

  /** The server is told what the entry says. */
  predicate TellsEntry(h: Helper, d: Deed) {
    h.pc.Awaiting? && h.pc.id in h.mem && d.Told? && d.id == h.pc.id
    && (d.sent <==> h.mem[h.pc.id].phase == EntryPhase.Sent) && d.code == h.mem[h.pc.id].error
  }

  /** Calls, packets and saves, none more and none fewer. */
  predicate Does(h: Helper, a: Act, did: seq<Deed>)
    requires Enabled(h, a)
  {
    match a
    case PollEmpty => |did| == 1 && did[0].Polled? && !(did[0].reply.Ok? && did[0].reply.value.Some?)
    case PollJob(job) => did == [Polled(Ok(Some(job)))]
    case AuthLost(_) =>
      |did| == 2 && did[0].Asked? && did[0].id == h.pc.id && did[0].permit.Err? && did[1..] == Filing(h, a)
    case AuthGranted(remaining, _) => did == [Asked(h.pc.id, Ok(remaining))] + Filing(h, a)
    case Write => did == [Handed(h.pc.id, h.pc.packet, true)]
    case WriteFailed(_, _) => did == [Handed(h.pc.id, h.pc.packet, false)] + Filing(h, a)
    case ReceiptDone(_) =>
      |did| == 2 && TellsEntry(h, did[0]) && (did[0].trouble.Some? ==> did[0].trouble.value in GIVEN_UP)
      && did[1..] == Filing(h, a)
    case ReceiptFailed =>
      |did| == 1 && TellsEntry(h, did[0]) && did[0].trouble.Some? && did[0].trouble.value !in GIVEN_UP
    case _ => did == Filing(h, a)
  }

  /** The settled entry was compared with a clock: it is forgotten exactly when a week past its expiry. */
  ghost predicate Weighed(j: Journal, stale: map<string, int>, saw: set<Sight>, id: string)
    requires id in j
  {
    exists at :: Clock(at) in saw && (id in stale <==> UnixMilli(at) - j[id].expires > 604_800_000)
                 && (id in stale ==> stale[id] == UnixMilli(at))
  }

  /** The helper has just seen that it may go on: nobody stopped it, the network is the same. */
  predicate MayGoOn(saw: set<Sight>, at: Reading) {
    Stopping(false) in saw && Network(true) in saw && Clock(at) in saw
  }

  ghost predicate Saw(h: Helper, a: Act, saw: set<Sight>)
    requires Enabled(h, a)
  {
    match a
    case SendPoll(at) => Clock(at) in saw
    case SendReceipt(at) => Clock(at) in saw
    case ReceiptLate(at, _) => Clock(at) in saw
    case DropJob(at) => Identifier(h.pc.job.id) && 0 < h.pc.job.remaining <= 30_000 ==> Clock(at) in saw
    case Reserve(at, stale, _) =>
      Clock(at) in saw && forall id :: id in h.mem && h.mem[id].ack ==> Weighed(h.mem, stale, saw, id)
    case Reject(code, _) => code == "network_changed" ==> Network(false) in saw
    case SendAuth(at) => MayGoOn(saw, at)
    case Check(at, _) => MayGoOn(saw, at) && (h.pc.count > 0 ==> Paused(200) in saw)
    case _ => true
  }

  ghost predicate Witnessed(h: Helper, a: Act, d: Doings) {
    Enabled(h, a) && Does(h, a, d.did) && Saw(h, a, d.saw)
  }

  ghost predicate Leads(g: Helper, a: Act, d: Doings, h: Helper) { Witnessed(g, a, d) && h == Next(g, a) }

  predicate JoinedAt<S(!new), A(!new), D(!new)>(
    joins: (S, A, D, S) -> bool, states: seq<S>, acts: seq<A>, doings: seq<D>, i: nat)
  {
    i < |acts| && i < |doings| && i + 1 < |states| && joins(states[i], acts[i], doings[i], states[i + 1])
  }

  /** States joined by acts, each with its doings. */
  ghost predicate Chain<S(!new), A(!new), D(!new)>(
    joins: (S, A, D, S) -> bool, states: seq<S>, acts: seq<A>, doings: seq<D>)
  {
    |acts| == |doings| && |states| == |acts| + 1
    && forall i :: 0 <= i < |acts| ==> JoinedAt(joins, states, acts, doings, i)
  }

  lemma ChainAppend<S(!new), A(!new), D(!new)>(
      joins: (S, A, D, S) -> bool, states: seq<S>, acts: seq<A>, doings: seq<D>, a: A, d: D, k: S)
    requires Chain(joins, states, acts, doings) && joins(states[|acts|], a, d, k)
    ensures Chain(joins, states + [k], acts + [a], doings + [d])
  {
    var more, further, deeds := states + [k], acts + [a], doings + [d];
    forall i | 0 <= i < |further|
      ensures JoinedAt(joins, more, further, deeds, i)
    {
      if i < |acts| {
        assert JoinedAt(joins, states, acts, doings, i);
      }
    }
  }

  ghost function Leading(): (Helper, Act, Doings, Helper) -> bool {
    (g: Helper, a: Act, d: Doings, h: Helper) => Leads(g, a, d, h)
  }

  /** A run of the machine, by the states it goes through, in which every action was witnessed. */
  ghost predicate Traced(states: seq<Helper>, acts: seq<Act>, doings: seq<Doings>) {
    Chain(Leading(), states, acts, doings)
  }

  lemma LedAt(states: seq<Helper>, acts: seq<Act>, doings: seq<Doings>, i: nat)
    requires Traced(states, acts, doings) && i < |acts|
    ensures Leads(states[i], acts[i], doings[i], states[i + 1])
  {
    assert JoinedAt(Leading(), states, acts, doings, i);
  }

  lemma TracedAppend(states: seq<Helper>, acts: seq<Act>, doings: seq<Doings>, a: Act, d: Doings, k: Helper)
    requires Traced(states, acts, doings) && Leads(states[|acts|], a, d, k)
    ensures Traced(states + [k], acts + [a], doings + [d])
  {
    assert Leading()(states[|acts|], a, d, k);
    ChainAppend(Leading(), states, acts, doings, a, d, k);
  }

  // ---- Packets handed over --------------------------------------------------------------------------------

  function Packets(did: seq<Deed>): seq<Deed> {
    if did != [] && did[0].Handed? then [did[0]] else []
  }

  /** Every packet handed over, in order, with the answer. */
  function Handovers(doings: seq<Doings>): seq<Deed> {
    if doings == [] then [] else Handovers(doings[..|doings| - 1]) + Packets(doings[|doings| - 1].did)
  }

  lemma PacketsKept(did: seq<Deed>, d: Deed)
    requires !d.Handed?
    ensures Packets(did + [d]) == Packets(did)
  {
    if did != [] {
      assert (did + [d])[0] == did[0];
    }
  }

  lemma HandoversAppend(doings: seq<Doings>, d: Doings)
    ensures Handovers(doings + [d]) == Handovers(doings) + Packets(d.did)
  {
    assert (doings + [d])[..|doings|] == doings;
  }

  function Accepted(id: string): Deed -> bool { (d: Deed) => d.Handed? && d.id == id && d.ok }

  /** Packets of the request the network took. */
  function Taken(handed: seq<Deed>, id: string): nat { Count(handed, Accepted(id)) }

  /** The machine's packet counts are packets the network took. */
  ghost predicate Backed(handed: seq<Deed>, h: Helper) {
    && (h.pc.Sending? || h.pc.Armed? ==> h.pc.count <= Taken(handed, h.pc.id))
    && forall id :: id in h.disk && h.disk[id].phase == EntryPhase.Sent ==> 3 <= Taken(handed, id)
  }

  lemma TakenGrows(handed: seq<Deed>, more: seq<Deed>, id: string)
    requires |more| <= 1
    ensures Taken(handed + more, id)
            == Taken(handed, id) + (if more != [] && Accepted(id)(more[0]) then 1 else 0)
  {
    if more == [] {
      assert handed + more == handed;
    } else {
      assert handed + more == handed + [more[0]];
      CountAppend(handed, more[0], Accepted(id));
    }
  }

  lemma TakenStays(handed: seq<Deed>, did: seq<Deed>)
    ensures forall id :: Taken(handed, id) <= Taken(handed + Packets(did), id)
  {
    forall id
      ensures Taken(handed, id) <= Taken(handed + Packets(did), id)
    {
      TakenGrows(handed, Packets(did), id);
    }
  }

  lemma BackedReserve(handed: seq<Deed>, after: seq<Deed>, h: Helper, a: Act)
    requires Healthy(h) && Backed(handed, h) && Enabled(h, a) && a.Reserve?
    requires forall id :: Taken(handed, id) <= Taken(after, id)
    ensures Backed(after, Next(h, a))
  {
    var entry := Entry(UnixMilli(JobDeadline(h.pc)), Reserved, "", 0, false);
    BackedNew(handed, after, h, h.mem - a.stale.Keys, h.pc.job, entry, a.save, JobDeadline(h.pc));
  }

  lemma BackedNew(handed: seq<Deed>, after: seq<Deed>, h: Helper, j: Journal, job: Job, entry: Entry, save: Save,
                  deadline: Reading)
    requires Backed(handed, h) && entry.phase == Reserved
    requires forall id :: id in j ==> id in h.disk && j[id] == h.disk[id]
    requires forall id :: Taken(handed, id) <= Taken(after, id)
    ensures Backed(after, Commit(h, j[job.id := entry], save, Ready(job, deadline)))
  {
  }

  lemma BackedRewrite(handed: seq<Deed>, after: seq<Deed>, h: Helper, a: Act)
    requires Healthy(h) && Backed(handed, h) && Enabled(h, a) && !a.Reserve? && Rewritten(h, a).Some?
    requires forall id :: Taken(handed, id) <= Taken(after, id)
    ensures Backed(after, Next(h, a))
  {
    RewriteShape(h, a);
    RewriteReleases(h, a);
    RewriteNext(h, a);
    BackedCommit(handed, after, h, Rewritten(h, a).value, SaveOf(a));
  }

  lemma BackedCommit(handed: seq<Deed>, after: seq<Deed>, h: Helper, w: Rewrite, save: Save)
    requires Backed(handed, h) && h.mem == h.disk && w.id in h.mem && (w.onto.Idle? || w.onto.Reporting?)
    requires w.entry.phase == EntryPhase.Sent && h.mem[w.id].phase != EntryPhase.Sent ==> 3 <= Taken(after, w.id)
    requires forall id :: Taken(handed, id) <= Taken(after, id)
    ensures Backed(after, Commit(h, h.mem[w.id := w.entry], save, w.onto))
  {
  }

  lemma BackedMove(handed: seq<Deed>, after: seq<Deed>, h: Helper, a: Act)
    requires Healthy(h) && Backed(handed, h) && Enabled(h, a) && !a.Reserve? && Rewritten(h, a).None?
    requires forall id :: Taken(handed, id) <= Taken(after, id)
    requires a.Write? ==> h.pc.count + 1 <= Taken(after, h.pc.id)
    ensures Backed(after, Next(h, a))
  {
    MoveNext(h, a);
    MovedSends(h, a);
    assert Next(h, a).disk == h.disk;
  }

  lemma BackedStep(handed: seq<Deed>, h: Helper, a: Act, d: Doings)
    requires Healthy(h) && Backed(handed, h) && Witnessed(h, a, d)
    ensures Backed(handed + Packets(d.did), Next(h, a))
  {
    var after := handed + Packets(d.did);
    TakenStays(handed, d.did);
    if a.Reserve? {
      BackedReserve(handed, after, h, a);
    } else if Rewritten(h, a).Some? {
      BackedRewrite(handed, after, h, a);
    } else {
      if a.Write? {
        TakenGrows(handed, Packets(d.did), h.pc.id);
      }
      BackedMove(handed, after, h, a);
    }
  }

  lemma LedOn(handed: seq<Deed>, g: Helper, a: Act, d: Doings, h: Helper)
    requires Healthy(g) && Backed(handed, g) && Leads(g, a, d, h)
    ensures Healthy(h) && Backed(handed + Packets(d.did), h)
  {
    HealthyStep(g, a);
    BackedStep(handed, g, a, d);
  }

  lemma HandoversTake(handed: seq<Deed>, doings: seq<Doings>, n: nat)
    requires n < |doings|
    ensures handed + Handovers(doings[..n + 1]) == handed + Handovers(doings[..n]) + Packets(doings[n].did)
  {
    HandoversAppend(doings[..n], doings[n]);
    assert doings[..n] + [doings[n]] == doings[..n + 1];
  }

  lemma TakenAlong(handed: seq<Deed>, states: seq<Helper>, acts: seq<Act>, doings: seq<Doings>, n: nat)
    requires Traced(states, acts, doings) && n < |acts| && Healthy(states[n]) && Backed(handed, states[n])
    ensures Healthy(states[n + 1]) && Backed(handed + Packets(doings[n].did), states[n + 1])
  {
    LedAt(states, acts, doings, n);
    LedOn(handed, states[n], acts[n], doings[n], states[n + 1]);
  }

  /** However the run goes, an entry is sent only after the network took three packets for it. */
  lemma {:induction false} SentMeansTaken(handed: seq<Deed>, states: seq<Helper>, acts: seq<Act>, doings: seq<Doings>,
                                          n: nat)
    requires Traced(states, acts, doings) && n <= |acts| && Healthy(states[0]) && Backed(handed, states[0])
    ensures Healthy(states[n]) && Backed(handed + Handovers(doings[..n]), states[n])
  {
    if n == 0 {
      assert handed + [] == handed;
    } else {
      SentMeansTaken(handed, states, acts, doings, n - 1);
      HandoversTake(handed, doings, n - 1);
      TakenAlong(handed + Handovers(doings[..n - 1]), states, acts, doings, n - 1);
    }
  }

  /** The machine's own tally of a traced run: its emissions since each reservation. */
  ghost function TallyAt(t: Tally, states: seq<Helper>, acts: seq<Act>, doings: seq<Doings>, n: nat): Tally
    requires Traced(states, acts, doings) && n <= |acts|
  {
    if n == 0 then t else Counted(TallyAt(t, states, acts, doings, n - 1), states[n - 1], acts[n - 1])
  }

  ghost function Counted(t: Tally, h: Helper, a: Act): Tally {
    if Enabled(h, a) then TallyAfter(t, h, a) else t
  }

  lemma TallyAlong(t: Tally, states: seq<Helper>, acts: seq<Act>, doings: seq<Doings>, n: nat)
    requires Traced(states, acts, doings) && n < |acts| && Healthy(states[n]) && TallyOk(t, states[n])
    ensures Healthy(states[n + 1]) && TallyOk(Counted(t, states[n], acts[n]), states[n + 1])
  {
    LedAt(states, acts, doings, n);
    HealthyStep(states[n], acts[n]);
    TallyStep(t, states[n], acts[n]);
  }

  /** At most three emissions since the reservation of any entry in the file. */
  lemma {:induction false} TalliedAlong(t: Tally, states: seq<Helper>, acts: seq<Act>, doings: seq<Doings>, n: nat)
    requires Traced(states, acts, doings) && n <= |acts| && Healthy(states[0]) && TallyOk(t, states[0])
    ensures Healthy(states[n]) && TallyOk(TallyAt(t, states, acts, doings, n), states[n])
  {
    if n > 0 {
      TalliedAlong(t, states, acts, doings, n - 1);
      TallyAlong(TallyAt(t, states, acts, doings, n - 1), states, acts, doings, n - 1);
    }
  }

  // ---- The world ----------------------------------------------------------------------------------------

  ghost predicate HealthyAt(states: seq<Helper>, i: nat) { i < |states| && Healthy(states[i]) }

  ghost predicate Proper(states: seq<Helper>, acts: seq<Act>, doings: seq<Doings>) {
    Traced(states, acts, doings) && forall i :: 0 <= i < |states| ==> HealthyAt(states, i)
  }

  lemma FirstAndLast(states: seq<Helper>, acts: seq<Act>, doings: seq<Doings>)
    requires Proper(states, acts, doings)
    ensures Healthy(states[0]) && Healthy(states[|acts|])
  {
    assert HealthyAt(states, 0) && HealthyAt(states, |acts|);
  }

  lemma HealthyAppend(states: seq<Helper>, k: Helper)
    requires Healthy(k) && forall i :: 0 <= i < |states| ==> HealthyAt(states, i)
    ensures forall i :: 0 <= i < |states + [k]| ==> HealthyAt(states + [k], i)
  {
    forall i | 0 <= i < |states + [k]|
      ensures HealthyAt(states + [k], i)
    {
      if i < |states| {
        assert HealthyAt(states, i);
      }
    }
  }

  lemma Acted(states: seq<Helper>, acts: seq<Act>, doings: seq<Doings>, a: Act, d: Doings, k: Helper)
    requires Proper(states, acts, doings) && Leading()(states[|acts|], a, d, k)
    ensures Proper(states + [k], acts + [a], doings + [d])
    ensures Handovers(doings + [d]) == Handovers(doings) + Packets(d.did) + Packets([])
  {
    assert Leads(states[|acts|], a, d, k);
    TracedAppend(states, acts, doings, a, d, k);
    HandoversAppend(doings, d);
    FirstAndLast(states, acts, doings);
    HealthyStep(states[|acts|], a);
    HealthyAppend(states, k);
  }

  // ---- Faults -------------------------------------------------------------------------------------------

  function Last(doings: seq<Doings>): seq<Deed> { if doings == [] then [] else doings[|doings| - 1].did }

  /** The fault is the answer got: to the last of the deeds for a save, to the first for a call. */
  predicate Blames(did: seq<Deed>, f: Fault) {
    did != []
    && if f == STORAGE then did[|did| - 1].Filed? && did[|did| - 1].save != Saved
       else match did[0]
            case Told(_, _, _, trouble) => trouble == Some(f)
            case Asked(_, permit) => permit == Err(f)
            case Polled(reply) => reply == Err(f)
            case _ => false
  }

  /** What a turn of the main loop came to. */
  datatype Turn = NoNetwork | NotSettled(fault: Fault) | PollSent(reply: Result<Option<Job>, Fault>)

  class Home {
    var file: Journal
    var cancelled: bool
    ghost var h: Helper
    ghost var states: seq<Helper>
    ghost var acts: seq<Act>
    ghost var doings: seq<Doings>
    /** What has been done and seen since the last action. */
    ghost var since: Doings
    /** Every packet handed over. */
    ghost var handed: seq<Deed>
    /** The turns of the main loop. */
    ghost var turns: seq<Turn>

    ghost predicate Valid()
      reads this
    {
      Grounded() && file == h.disk
    }

    /** Every action so far was witnessed; the file may be ahead of the machine by a save. */
    ghost predicate Grounded()
      reads this
    {
      |states| == |acts| + 1 && h == states[|acts|] && forall i :: 0 <= i <= |acts| ==> KeptAt(i)
    }

    /** The state i was healthy and led to the next; at the end, everything handed over is on record. */
    ghost predicate KeptAt(i: nat)
      reads this
    {
      |acts| == |doings| && HealthyAt(states, i)
      && if i < |acts| then JoinedAt(Leading(), states, acts, doings, i)
         else handed == Handovers(doings) + Packets(since.did)
    }

    /** The record, opened. */
    lemma Recorded()
      requires Grounded()
      ensures Proper(states, acts, doings) && handed == Handovers(doings) + Packets(since.did)
    {
      assert KeptAt(|acts|);
      forall i | 0 <= i < |acts|
        ensures JoinedAt(Leading(), states, acts, doings, i)
      {
        assert KeptAt(i);
      }
      forall i | 0 <= i < |states|
        ensures HealthyAt(states, i)
      {
        assert KeptAt(i);
      }
    }

    lemma Closed()
      requires Proper(states, acts, doings) && h == states[|acts|]
      requires handed == Handovers(doings) + Packets(since.did)
      ensures Grounded()
    {
    }

    ghost constructor (start: Helper)
      requires Healthy(start)
      ensures Valid() && h == start && states == [start] && acts == [] && since == NOTHING && handed == []
    {
      HealthyAppend([], start);
      states, h, acts, doings, file := [] + [start], start, [], [], start.disk;
      since, handed, turns := NOTHING, [], [];
      cancelled := false;
      new;
      Closed();
    }

    /** The action a happens and leads to k: it is what was done and seen since the last one. */
    ghost method Do(a: Act, k: Helper)
      requires Grounded() && Leading()(h, a, since, k) && file == k.disk
      modifies this`h, this`states, this`acts, this`doings, this`since
      ensures Valid() && h == k && acts == old(acts) + [a] && states == old(states) + [h]
      ensures doings == old(doings) + [old(since)] && since == NOTHING
    {
      Recorded();
      Acted(states, acts, doings, a, since, k);
      h, states, acts, doings, since := k, states + [k], acts + [a], doings + [since], NOTHING;
      Closed();
    }

    /** The file loads, and the execution in progress owns a fresh reservation. */
    lemma Health()
      requires Grounded()
      ensures Healthy(h)
    {
      Recorded();
      FirstAndLast(states, acts, doings);
    }

    method Now() returns (r: Reading)
      requires Valid()
      modifies this`since
      ensures Valid() && since == old(since).(saw := old(since).saw + {Clock(r)})
    {
      var mono: int, wall: int := *, *;
      r := Reading(mono, wall);
      Recorded();
      since := since.(saw := since.saw + {Clock(r)});
      Closed();
    }

    /** checkNetwork: is this still the configured network? */
    method SameNetwork() returns (same: bool)
      requires Valid()
      modifies this`since
      ensures Valid() && since == old(since).(saw := old(since).saw + {Network(same)})
    {
      same := *;
      Recorded();
      since := since.(saw := since.saw + {Network(same)});
      Closed();
    }

    /** The check at the start of a turn; without the network the turn is over. */
    method NetworkUp() returns (same: bool)
      requires Valid()
      modifies this`since, this`turns
      ensures Valid() && since == old(since).(saw := old(since).saw + {Network(same)})
      ensures turns == if same then old(turns) else old(turns) + [NoNetwork]
    {
      Recorded();
      same := *;
      since := since.(saw := since.saw + {Network(same)});
      turns := if same then turns else turns + [NoNetwork];
      Closed();
    }

    /** The turn ends with owed receipts still owed, for the fault last answered or the stop signal. */
    ghost method LeavesOwed(f: Fault)
      requires Valid() && if f == Stopped then cancelled else Blames(Last(doings), f)
      modifies this`turns
      ensures Valid() && turns == old(turns) + [NotSettled(f)]
    {
      Recorded();
      turns := turns + [NotSettled(f)];
      Closed();
    }

    /** Has the user stopped the helper? Once true, true for good. */
    method Interrupted() returns (c: bool)
      requires Valid()
      modifies this`cancelled, this`since
      ensures c == cancelled && (old(cancelled) ==> c)
      ensures Valid() && since == old(since).(saw := old(since).saw + {Stopping(c)})
    {
      Recorded();
      var now: bool := *;
      cancelled := cancelled || now;
      c := cancelled;
      since := since.(saw := since.saw + {Stopping(c)});
      Closed();
    }

    /** Wait, unless stopped meanwhile. */
    method Pause(ms: nat) returns (c: bool)
      requires Valid()
      modifies this`cancelled, this`since
      ensures c == cancelled && (old(cancelled) ==> c)
      ensures Valid() && since == old(since).(saw := old(since).saw + {Paused(ms)})
    {
      Recorded();
      var now: bool := *;
      cancelled := cancelled || now;
      c := cancelled;
      since := since.(saw := since.saw + {Paused(ms)});
      Closed();
    }

    /** Replace the journal file; a failure may come before or after the rename. */
    method Replace(items: Journal) returns (ok: bool, ghost save: Save)
      requires Valid()
      modifies this`file, this`since
      ensures Grounded() && (ok <==> save == Saved)
      ensures file == if save == Kept then old(file) else items
      ensures since == old(since).(did := old(since).did + [Filed(items, save)])
    {
      var renamed: bool, synced: bool := *, *;
      save := if !renamed then Kept else if synced then Saved else Replaced;
      Recorded();
      PacketsKept(since.did, Filed(items, save));
      since := since.(did := since.did + [Filed(items, save)]);
      Closed();
      if renamed {
        file := items;
      }
      ok := renamed && synced;
    }

    /** How a request to the server fails, if it does: an HTTP error, a broken connection or a stop signal. */
    method Trouble() returns (t: Option<Fault>)
      modifies this`cancelled
      ensures (old(cancelled) ==> cancelled) && (t == Some(Stopped) ==> cancelled)
      ensures t.Some? && t.value.Code? ==> t.value == NETWORK
    {
      var stopped: bool, ok: bool, status: nat := *, *, *;
      cancelled := cancelled || stopped;
      t := if cancelled then Some(Stopped) else if ok then None
           else if status == 0 then Some(NETWORK) else Some(Http(status));
    }

    method PollServer() returns (r: Result<Option<Job>, Fault>)
      requires Valid()
      modifies this`cancelled, this`since, this`turns
      ensures (old(cancelled) ==> cancelled) && (r == Err(Stopped) ==> cancelled)
      ensures r.Err? && r.error.Code? ==> r.error == NETWORK
      ensures Valid() && since == old(since).(did := old(since).did + [Polled(r)])
      ensures turns == old(turns) + [PollSent(r)]
    {
      Recorded();
      var t := Trouble();
      var job: Option<Job> := *;
      r := if t.Some? then Err(t.value) else Ok(job);
      PacketsKept(since.did, Polled(r));
      since := since.(did := since.did + [Polled(r)]);
      turns := turns + [PollSent(r)];
      Closed();
    }

    method AskPermit(id: string) returns (r: Result<int, Fault>)
      requires Valid()
      modifies this`cancelled, this`since
      ensures (old(cancelled) ==> cancelled) && (r == Err(Stopped) ==> cancelled)
      ensures r.Err? && r.error.Code? ==> r.error == NETWORK
      ensures Valid() && since == old(since).(did := old(since).did + [Asked(id, r)])
    {
      Recorded();
      var t := Trouble();
      var remaining: int := *;
      r := if t.Some? then Err(t.value) else Ok(remaining);
      PacketsKept(since.did, Asked(id, r));
      since := since.(did := since.did + [Asked(id, r)]);
      Closed();
    }

    method TellServer(id: string, sent: bool, code: string) returns (t: Option<Fault>)
      requires Valid()
      modifies this`cancelled, this`since
      ensures (old(cancelled) ==> cancelled) && (t == Some(Stopped) ==> cancelled)
      ensures t.Some? && t.value.Code? ==> t.value == NETWORK
      ensures Valid() && since == old(since).(did := old(since).did + [Told(id, sent, code, t)])
    {
      Recorded();
      t := Trouble();
      PacketsKept(since.did, Told(id, sent, code, t));
      since := since.(did := since.did + [Told(id, sent, code, t)]);
      Closed();
    }

    /** Hand a packet to the network, allowed only under a reservation already on disk. An error
        does not say that nothing was sent. */
    method Send(ghost id: string, packet: seq<bv8>) returns (ok: bool, ghost leaked: bool)
      requires Valid() && h.pc.Armed? && h.pc.id == id && h.pc.packet == packet
      requires id in file && file[id].phase == Reserved && !file[id].ack && file[id].packets == 0
      requires since.did == []
      modifies this`since, this`handed
      ensures Valid() && since == old(since).(did := [Handed(id, packet, ok)])
      ensures handed == old(handed) + [Handed(id, packet, ok)]
    {
      ok, leaked := *, *;
      Recorded();
      since := since.(did := [Handed(id, packet, ok)]);
      handed := handed + [Handed(id, packet, ok)];
      Closed();
    }
  }
}
