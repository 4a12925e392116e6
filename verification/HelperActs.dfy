/** Each action of HelperMachine as the engine takes it: what must have been done and seen for it,
    and where it leads. */
module HelperActs {
  import opened Wrappers
  import opened WakeModel
  import opened WakeRoutes
  import opened HelperMachine
  import opened HelperWorld

  /** The file after a save of j. */
  function OnDisk(h: Helper, j: Journal, save: Save): Journal { if save == Kept then h.disk else j }

  /** The action a, which d is made of, leads to k. */
  ghost predicate Brings(h: Helper, a: Act, d: Doings, k: Helper) { Witnessed(h, a, d) && Next(h, a) == k }

  /** The action a happens and leads to k. */
  ghost method Happens(home: Home, a: Act, k: Helper)
    requires home.Grounded() && Brings(home.h, a, home.since, k) && home.file == k.disk
    modifies home`h, home`states, home`acts, home`doings, home`since
    ensures home.Valid() && home.h == k && home.since == NOTHING
    ensures home.acts == old(home.acts) + [a] && home.doings == old(home.doings) + [old(home.since)]
  {
    assert Leads(home.h, a, home.since, k);
    home.Do(a, k);
  }

  // ---- The run and the poll ----------------------------------------------------------------------------

  lemma BootBrings(h: Helper, d: Doings)
    requires h.pc.Down? && Loadable(h.disk) && d.did == []
    ensures Brings(h, Boot, d, h.(pc := Idle, mem := h.disk))
  {
  }

  ghost method Boots(home: Home)
    requires home.Valid() && home.h.pc.Down? && home.since.did == []
    modifies home`h, home`states, home`acts, home`doings, home`since
    ensures home.Valid() && home.h == old(home.h).(pc := Idle, mem := old(home.h.disk)) && home.since == NOTHING
    ensures home.acts == old(home.acts) + [Boot]
  {
    home.Health();
    BootBrings(home.h, home.since);
    Happens(home, Boot, home.h.(pc := Idle, mem := home.h.disk));
  }

  lemma ExitBrings(h: Helper, d: Doings)
    requires d.did == []
    ensures Brings(h, Exit, d, h.(pc := Down, mem := map[]))
  {
  }

  ghost method Exits(home: Home)
    requires home.Valid() && home.since.did == []
    modifies home`h, home`states, home`acts, home`doings, home`since
    ensures home.Valid() && home.h.pc.Down? && home.h.disk == old(home.h.disk) && home.since == NOTHING
  {
    ExitBrings(home.h, home.since);
    Happens(home, Exit, home.h.(pc := Down, mem := map[]));
  }

  lemma PollBrings(h: Helper, at: Reading, d: Doings)
    requires h.pc.Idle? && AllAcknowledged(h.mem) && d.did == [] && Clock(at) in d.saw
    ensures Brings(h, SendPoll(at), d, h.(pc := Polling(h.calls, at), calls := h.calls + 1))
  {
  }

  ghost method Polls(home: Home, at: Reading)
    requires home.Valid() && home.h.pc.Idle? && AllAcknowledged(home.h.mem)
    requires home.since.did == [] && Clock(at) in home.since.saw
    modifies home`h, home`states, home`acts, home`doings, home`since
    ensures home.Valid() && home.since == NOTHING
    ensures home.h == old(home.h).(pc := Polling(old(home.h.calls), at), calls := old(home.h.calls) + 1)
  {
    PollBrings(home.h, at, home.since);
    Happens(home, SendPoll(at), home.h.(pc := Polling(home.h.calls, at), calls := home.h.calls + 1));
  }

  lemma EmptyBrings(h: Helper, reply: Result<Option<Job>, Fault>, d: Doings)
    requires h.pc.Polling? && d.did == [Polled(reply)] && !(reply.Ok? && reply.value.Some?)
    ensures Brings(h, PollEmpty, d, h.(pc := Idle))
  {
  }

  ghost method FindsNothing(home: Home, reply: Result<Option<Job>, Fault>)
    requires home.Valid() && home.h.pc.Polling? && home.since.did == [Polled(reply)]
    requires !(reply.Ok? && reply.value.Some?)
    modifies home`h, home`states, home`acts, home`doings, home`since
    ensures home.Valid() && home.since == NOTHING && home.h == old(home.h).(pc := Idle)
    ensures home.doings == old(home.doings) + [old(home.since)]
  {
    EmptyBrings(home.h, reply, home.since);
    Happens(home, PollEmpty, home.h.(pc := Idle));
  }

  lemma JobBrings(h: Helper, job: Job, d: Doings)
    requires h.pc.Polling? && d.did == [Polled(Ok(Some(job)))]
    ensures Brings(h, PollJob(job), d, h.(pc := Holding(job, h.pc.start)))
  {
  }

  ghost method FindsJob(home: Home, job: Job)
    requires home.Valid() && home.h.pc.Polling? && home.since.did == [Polled(Ok(Some(job)))]
    modifies home`h, home`states, home`acts, home`doings, home`since
    ensures home.Valid() && home.since == NOTHING
    ensures home.h == old(home.h).(pc := Holding(job, old(home.h.pc.start)))
  {
    JobBrings(home.h, job, home.since);
    Happens(home, PollJob(job), home.h.(pc := Holding(job, home.h.pc.start)));
  }

  // ---- A job polled -------------------------------------------------------------------------------------

  lemma DropBrings(h: Helper, job: Job, start: Reading, at: Reading, d: Doings)
    requires h.pc == Holding(job, start) && d.did == []
    requires !Identifier(job.id)
             || (job.id !in h.mem
                 && (!(0 < job.remaining <= 30_000)
                     || (Clock(at) in d.saw && !WithinDeadline(at, Plus(start, job.remaining)))))
    ensures Brings(h, DropJob(at), d, h.(pc := Idle))
  {
  }

  ghost method Drops(home: Home, job: Job, start: Reading, at: Reading)
    requires home.Valid() && home.h.pc == Holding(job, start) && home.since.did == []
    requires !Identifier(job.id)
             || (job.id !in home.h.mem
                 && (!(0 < job.remaining <= 30_000)
                     || (Clock(at) in home.since.saw && !WithinDeadline(at, Plus(start, job.remaining)))))
    modifies home`h, home`states, home`acts, home`doings, home`since
    ensures home.Valid() && home.since == NOTHING && home.h == old(home.h).(pc := Idle)
    ensures home.acts == old(home.acts) + [DropJob(at)]
  {
    DropBrings(home.h, job, start, at, home.since);
    Happens(home, DropJob(at), home.h.(pc := Idle));
  }

  /** An entry is found again in a journal: by a poll, or by the loop over owed receipts. */
  predicate Finds(h: Helper, id: string, polled: bool) {
    id in h.mem
    && if polled then h.pc.Holding? && h.pc.job.id == id && Identifier(id) else h.pc.Idle? && !h.mem[id].ack
  }

  function Finding(id: string, polled: bool, save: Save): Act {
    if polled then KnownJob(save) else Act.Recover(id, save)
  }

  lemma FoundBrings(h: Helper, id: string, polled: bool, d: Doings)
    requires Finds(h, id, polled) && h.mem[id].phase != Reserved && d.did == []
    ensures Brings(h, Finding(id, polled, Saved), d, h.(pc := Reporting(id)))
  {
  }

  ghost method FindsSettled(home: Home, id: string, polled: bool)
    requires home.Valid() && Finds(home.h, id, polled) && home.h.mem[id].phase != Reserved && home.since.did == []
    modifies home`h, home`states, home`acts, home`doings, home`since
    ensures home.Valid() && home.since == NOTHING && home.h == old(home.h).(pc := Reporting(id))
  {
    FoundBrings(home.h, id, polled, home.since);
    Happens(home, Finding(id, polled, Saved), home.h.(pc := Reporting(id)));
  }

  lemma UncertainBrings(h: Helper, id: string, polled: bool, save: Save, d: Doings)
    requires Finds(h, id, polled) && h.mem[id].phase == Reserved
    requires d.did == [Filed(h.mem[id := Uncertain(h.mem[id])], save)]
    ensures Brings(h, Finding(id, polled, save), d, Commit(h, h.mem[id := Uncertain(h.mem[id])], save, Reporting(id)))
  {
  }

  ghost method FindsReserved(home: Home, id: string, polled: bool, save: Save)
    requires home.Grounded() && Finds(home.h, id, polled) && home.h.mem[id].phase == Reserved
    requires home.since.did == [Filed(home.h.mem[id := Uncertain(home.h.mem[id])], save)]
    requires home.file == OnDisk(home.h, home.h.mem[id := Uncertain(home.h.mem[id])], save)
    modifies home`h, home`states, home`acts, home`doings, home`since
    ensures var j := old(home.h.mem);
            home.Valid() && home.since == NOTHING
            && home.h == Commit(old(home.h), j[id := Uncertain(j[id])], save, Reporting(id))
    ensures home.doings == old(home.doings) + [old(home.since)]
  {
    UncertainBrings(home.h, id, polled, save, home.since);
    Happens(home, Finding(id, polled, save),
            Commit(home.h, home.h.mem[id := Uncertain(home.h.mem[id])], save, Reporting(id)));
  }

  function Reservation(job: Job, start: Reading): Entry {
    Entry(UnixMilli(Plus(start, job.remaining)), Reserved, "", 0, false)
  }

  /** What the loop over old entries has settled: every acknowledged entry it passed was weighed. */
  ghost predicate Sorted(j: Journal, stale: map<string, int>, saw: set<Sight>, todo: set<string>) {
    Stale(j, stale)
    && forall id {:trigger Weighed(j, stale, saw, id)} :: id in j && id !in todo && j[id].ack ==>
         Weighed(j, stale, saw, id)
  }

  lemma ReserveBrings(h: Helper, job: Job, start: Reading, now: Reading, stale: map<string, int>, save: Save,
                      d: Doings)
    requires h.pc == Holding(job, start) && Identifier(job.id) && job.id !in h.mem && 0 < job.remaining <= 30_000
    requires WithinDeadline(now, Plus(start, job.remaining)) && Sorted(h.mem, stale, d.saw, {})
    requires |h.mem - stale.Keys| < JOURNAL_CAP && Clock(now) in d.saw
    requires d.did == [Filed((h.mem - stale.Keys)[job.id := Reservation(job, start)], save)]
    ensures Brings(h, Act.Reserve(now, stale, save), d,
                   Commit(h, (h.mem - stale.Keys)[job.id := Reservation(job, start)], save,
                          Ready(job, Plus(start, job.remaining))))
  {
  }

  ghost method Reserves(home: Home, job: Job, start: Reading, now: Reading, stale: map<string, int>, kept: Journal,
                        save: Save)
    requires home.Grounded() && home.h.pc == Holding(job, start) && Identifier(job.id) && job.id !in home.h.mem
    requires 0 < job.remaining <= 30_000 && WithinDeadline(now, Plus(start, job.remaining))
    requires Sorted(home.h.mem, stale, home.since.saw, {}) && kept == home.h.mem - stale.Keys && |kept| < JOURNAL_CAP
    requires Clock(now) in home.since.saw
    requires home.since.did == [Filed(kept[job.id := Reservation(job, start)], save)]
    requires home.file == OnDisk(home.h, kept[job.id := Reservation(job, start)], save)
    modifies home`h, home`states, home`acts, home`doings, home`since
    ensures home.Valid() && home.since == NOTHING
    ensures home.h == Commit(old(home.h), kept[job.id := Reservation(job, start)], save,
                             Ready(job, Plus(start, job.remaining)))
    ensures home.doings == old(home.doings) + [old(home.since)]
  {
    ReserveBrings(home.h, job, start, now, stale, save, home.since);
    Happens(home, Act.Reserve(now, stale, save),
            Commit(home.h, kept[job.id := Reservation(job, start)], save, Ready(job, Plus(start, job.remaining))));
  }

  // ---- Failing ---------------------------------------------------------------------------------------------

  function Failed(item: Entry, code: string): Entry { item.(phase := EntryPhase.Failed, error := code) }

  /** Why the entry of id fails with the code, after did. */
  ghost predicate Fails(h: Helper, a: Act, id: string, code: string, did: seq<Deed>, saw: set<Sight>) {
    match a
    case Reject(c, _) =>
      c == code && did == [] && (code == "network_changed" ==> Network(false) in saw)
      && if h.pc.Ready? then
           h.pc.job.id == id && code == if MagicPacket(h.pc.job.mac).None? then "invalid_mac"
                                        else if !h.pc.job.setupComplete then "setup_incomplete" else "network_changed"
         else h.pc.Sending? && h.pc.id == id && h.pc.count < 3 && code == "network_changed"
    case AuthGranted(remaining, _) =>
      h.pc.Asking? && h.pc.id == id && code == "invalid_permit" && !(0 < remaining <= 2000)
      && did == [Asked(id, Ok(remaining))]
    case Check(at, _) =>
      h.pc.Sending? && h.pc.id == id && h.pc.count < 3 && code == "permit_expired" && did == []
      && MayGoOn(saw, at) && (h.pc.count > 0 ==> Paused(200) in saw) && !WithinDeadline(at, h.pc.deadline)
    case WriteFailed(_, _) =>
      h.pc.Armed? && h.pc.id == id && code == "send_failed" && did == [Handed(id, h.pc.packet, false)]
    case _ => false
  }

  /** The same action with its save ended as given. */
  function Saving(a: Act, save: Save): Act {
    match a
    case Reject(code, _) => Reject(code, save)
    case AuthGranted(remaining, _) => AuthGranted(remaining, save)
    case Check(at, _) => Check(at, save)
    case WriteFailed(leaked, _) => WriteFailed(leaked, save)
    case _ => a
  }

  lemma FailBrings(h: Helper, a: Act, id: string, item: Entry, code: string, did: seq<Deed>, save: Save, d: Doings)
    requires Fails(h, a, id, code, did, d.saw) && id in h.mem && item == h.mem[id].(packets := Written(h.pc))
    requires d.did == did + [Filed(h.mem[id := Failed(item, code)], save)]
    ensures Brings(h, Saving(a, save), d, Commit(h, h.mem[id := Failed(item, code)], save, Reporting(id)))
  {
  }

  ghost method FailsWith(home: Home, a: Act, id: string, item: Entry, code: string, did: seq<Deed>, save: Save)
    requires home.Grounded() && Fails(home.h, a, id, code, did, home.since.saw) && id in home.h.mem
    requires item == home.h.mem[id].(packets := Written(home.h.pc))
    requires home.since.did == did + [Filed(home.h.mem[id := Failed(item, code)], save)]
    requires home.file == OnDisk(home.h, home.h.mem[id := Failed(item, code)], save)
    modifies home`h, home`states, home`acts, home`doings, home`since
    ensures home.Valid() && home.since == NOTHING
    ensures home.h == Commit(old(home.h), old(home.h.mem)[id := Failed(item, code)], save, Reporting(id))
    ensures home.doings == old(home.doings) + [old(home.since)]
  {
    FailBrings(home.h, a, id, item, code, did, save, home.since);
    Happens(home, Saving(a, save), Commit(home.h, home.h.mem[id := Failed(item, code)], save, Reporting(id)));
  }

  // ---- The permit ------------------------------------------------------------------------------------------

  lemma AskBrings(h: Helper, job: Job, deadline: Reading, at: Reading, d: Doings)
    requires h.pc == Ready(job, deadline) && MagicPacket(job.mac).Some? && job.setupComplete
    requires d.did == [] && MayGoOn(d.saw, at)
    ensures Brings(h, SendAuth(at), d, h.(pc := Asking(job.id, MagicPacket(job.mac).value, deadline, h.calls, at),
                                          calls := h.calls + 1))
  {
  }

  ghost method Asks(home: Home, job: Job, deadline: Reading, at: Reading)
    requires home.Valid() && home.h.pc == Ready(job, deadline) && MagicPacket(job.mac).Some? && job.setupComplete
    requires home.since.did == [] && MayGoOn(home.since.saw, at)
    modifies home`h, home`states, home`acts, home`doings, home`since
    ensures home.Valid() && home.since == NOTHING && home.acts == old(home.acts) + [SendAuth(at)]
    ensures home.h
            == old(home.h).(pc := Asking(job.id, MagicPacket(job.mac).value, deadline, old(home.h.calls), at),
                            calls := old(home.h.calls) + 1)
  {
    AskBrings(home.h, job, deadline, at, home.since);
    Happens(home, SendAuth(at), home.h.(pc := Asking(job.id, MagicPacket(job.mac).value, deadline, home.h.calls, at),
                                        calls := home.h.calls + 1));
  }

  lemma LostBrings(h: Helper, id: string, fault: Fault, save: Save, d: Doings)
    requires h.pc.Asking? && h.pc.id == id && id in h.mem && h.mem[id].packets == 0
    requires var lost := Failed(h.mem[id], "authorization_uncertain");
             d.did == [Asked(id, Err(fault))] + [Filed(h.mem[id := lost], save)]
    ensures var lost := Failed(h.mem[id], "authorization_uncertain");
            Brings(h, AuthLost(save), d, Commit(h, h.mem[id := lost], save, Idle))
  {
    assert d.did[1..] == [Filed(h.mem[id := Failed(h.mem[id], "authorization_uncertain")], save)];
  }

  ghost method LosesPermit(home: Home, id: string, item: Entry, fault: Fault, save: Save)
    requires home.Grounded() && home.h.pc.Asking? && home.h.pc.id == id && id in home.h.mem
    requires home.h.mem[id].packets == 0 && item == Failed(home.h.mem[id], "authorization_uncertain")
    requires home.since.did == [Asked(id, Err(fault))] + [Filed(home.h.mem[id := item], save)]
    requires home.file == OnDisk(home.h, home.h.mem[id := item], save)
    modifies home`h, home`states, home`acts, home`doings, home`since
    ensures home.Valid() && home.since == NOTHING
    ensures home.h == Commit(old(home.h), old(home.h.mem)[id := item], save, Idle)
    ensures home.doings == old(home.doings) + [old(home.since)]
  {
    LostBrings(home.h, id, fault, save, home.since);
    Happens(home, AuthLost(save), Commit(home.h, home.h.mem[id := item], save, Idle));
  }

  lemma GrantBrings(h: Helper, id: string, remaining: int, d: Doings)
    requires h.pc.Asking? && h.pc.id == id && id in h.mem && 0 < remaining <= 2000
    requires d.did == [Asked(id, Ok(remaining))]
    ensures Brings(h, AuthGranted(remaining, Saved), d,
                   h.(pc := Sending(id, h.pc.packet, Lease(h.pc, remaining), h.pc.call, 0)))
  {
    assert d.did + [] == d.did;
  }

  ghost method GetsPermit(home: Home, id: string, remaining: int)
    requires home.Valid() && home.h.pc.Asking? && home.h.pc.id == id && id in home.h.mem && 0 < remaining <= 2000
    requires home.since.did == [Asked(id, Ok(remaining))]
    modifies home`h, home`states, home`acts, home`doings, home`since
    ensures home.Valid() && home.since == NOTHING && home.acts == old(home.acts) + [AuthGranted(remaining, Saved)]
    ensures var pc := old(home.h.pc);
            home.h == old(home.h).(pc := Sending(id, pc.packet, Lease(pc, remaining), pc.call, 0))
  {
    GrantBrings(home.h, id, remaining, home.since);
    Happens(home, AuthGranted(remaining, Saved),
            home.h.(pc := Sending(id, home.h.pc.packet, Lease(home.h.pc, remaining), home.h.pc.call, 0)));
  }

  // ---- The packets -----------------------------------------------------------------------------------------

  lemma CheckBrings(h: Helper, id: string, at: Reading, d: Doings)
    requires h.pc.Sending? && h.pc.id == id && id in h.mem && h.pc.count < 3 && d.did == [] && MayGoOn(d.saw, at)
    requires WithinDeadline(at, h.pc.deadline) && (h.pc.count > 0 ==> Paused(200) in d.saw)
    ensures Brings(h, Check(at, Saved), d,
                   h.(pc := Armed(id, h.pc.packet, h.pc.deadline, h.pc.call, h.pc.count)))
  {
  }

  ghost method Checks(home: Home, id: string, at: Reading)
    requires home.Valid() && home.h.pc.Sending? && home.h.pc.id == id && id in home.h.mem && home.h.pc.count < 3
    requires home.since.did == [] && MayGoOn(home.since.saw, at) && WithinDeadline(at, home.h.pc.deadline)
    requires home.h.pc.count > 0 ==> Paused(200) in home.since.saw
    modifies home`h, home`states, home`acts, home`doings, home`since
    ensures home.Valid() && home.since == NOTHING
    ensures var pc := old(home.h.pc);
            home.h == old(home.h).(pc := Armed(id, pc.packet, pc.deadline, pc.call, pc.count))
  {
    CheckBrings(home.h, id, at, home.since);
    Happens(home, Check(at, Saved),
            home.h.(pc := Armed(id, home.h.pc.packet, home.h.pc.deadline, home.h.pc.call, home.h.pc.count)));
  }

  lemma WriteBrings(h: Helper, id: string, d: Doings)
    requires h.pc.Armed? && h.pc.id == id && d.did == [Handed(id, h.pc.packet, true)]
    ensures Brings(h, Write, d, h.(pc := Sending(id, h.pc.packet, h.pc.deadline, h.pc.call, h.pc.count + 1)))
  {
  }

  ghost method Writes(home: Home, id: string)
    requires home.Valid() && home.h.pc.Armed? && home.h.pc.id == id
    requires home.since.did == [Handed(id, home.h.pc.packet, true)]
    modifies home`h, home`states, home`acts, home`doings, home`since
    ensures home.Valid() && home.since == NOTHING
    ensures var pc := old(home.h.pc);
            home.h == old(home.h).(pc := Sending(id, pc.packet, pc.deadline, pc.call, pc.count + 1))
  {
    WriteBrings(home.h, id, home.since);
    Happens(home, Write,
            home.h.(pc := Sending(id, home.h.pc.packet, home.h.pc.deadline, home.h.pc.call, home.h.pc.count + 1)));
  }

  lemma SentBrings(h: Helper, id: string, item: Entry, save: Save, d: Doings)
    requires h.pc.Sending? && h.pc.id == id && id in h.mem && h.pc.count == 3
    requires item == h.mem[id].(phase := EntryPhase.Sent, packets := 3) && d.did == [Filed(h.mem[id := item], save)]
    ensures Brings(h, RecordSent(save), d, Commit(h, h.mem[id := item], save, Reporting(id)))
  {
    assert Filing(h, RecordSent(save)) == [Filed(h.mem[id := item], save)];
    assert Does(h, RecordSent(save), d.did);
  }

  ghost method RecordsSent(home: Home, id: string, item: Entry, save: Save)
    requires home.Grounded() && home.h.pc.Sending? && home.h.pc.id == id && id in home.h.mem && home.h.pc.count == 3
    requires item == home.h.mem[id].(phase := EntryPhase.Sent, packets := 3)
    requires home.since.did == [Filed(home.h.mem[id := item], save)]
    requires home.file == OnDisk(home.h, home.h.mem[id := item], save)
    modifies home`h, home`states, home`acts, home`doings, home`since
    ensures home.Valid() && home.since == NOTHING
    ensures home.h == Commit(old(home.h), old(home.h.mem)[id := item], save, Reporting(id))
    ensures home.doings == old(home.doings) + [old(home.since)]
  {
    SentBrings(home.h, id, item, save, home.since);
    Happens(home, RecordSent(save), Commit(home.h, home.h.mem[id := item], save, Reporting(id)));
  }

  // ---- The receipt -----------------------------------------------------------------------------------------

  lemma SkipBrings(h: Helper, id: string, d: Doings)
    requires h.pc == Reporting(id) && id in h.mem && h.mem[id].ack && d.did == []
    ensures Brings(h, SkipReceipt, d, h.(pc := Idle))
  {
  }

  ghost method SkipsReceipt(home: Home, id: string)
    requires home.Valid() && home.h.pc == Reporting(id) && id in home.h.mem && home.h.mem[id].ack
    requires home.since.did == []
    modifies home`h, home`states, home`acts, home`doings, home`since
    ensures home.Valid() && home.since == NOTHING && home.h == old(home.h).(pc := Idle)
  {
    SkipBrings(home.h, id, home.since);
    Happens(home, SkipReceipt, home.h.(pc := Idle));
  }

  lemma LateBrings(h: Helper, id: string, at: Reading, save: Save, d: Doings)
    requires h.pc == Reporting(id) && id in h.mem && !h.mem[id].ack && UnixMilli(at) >= h.mem[id].expires
    requires Clock(at) in d.saw && d.did == [Filed(h.mem[id := h.mem[id].(ack := true)], save)]
    ensures Brings(h, ReceiptLate(at, save), d, Commit(h, h.mem[id := h.mem[id].(ack := true)], save, Idle))
  {
    assert Filing(h, ReceiptLate(at, save)) == [Filed(h.mem[id := h.mem[id].(ack := true)], save)];
    assert Does(h, ReceiptLate(at, save), d.did);
  }

  ghost method GivesUpReceipt(home: Home, id: string, item: Entry, at: Reading, save: Save)
    requires home.Grounded() && home.h.pc == Reporting(id) && id in home.h.mem && !home.h.mem[id].ack
    requires UnixMilli(at) >= home.h.mem[id].expires && Clock(at) in home.since.saw
    requires item == home.h.mem[id].(ack := true)
    requires home.since.did == [Filed(home.h.mem[id := item], save)]
    requires home.file == OnDisk(home.h, home.h.mem[id := item], save)
    modifies home`h, home`states, home`acts, home`doings, home`since
    ensures home.Valid() && home.since == NOTHING
    ensures home.h == Commit(old(home.h), old(home.h.mem)[id := item], save, Idle)
    ensures home.doings == old(home.doings) + [old(home.since)]
  {
    LateBrings(home.h, id, at, save, home.since);
    Happens(home, ReceiptLate(at, save), Commit(home.h, home.h.mem[id := item], save, Idle));
  }

  lemma TellBrings(h: Helper, id: string, at: Reading, d: Doings)
    requires h.pc == Reporting(id) && id in h.mem && !h.mem[id].ack && UnixMilli(at) < h.mem[id].expires
    requires d.did == [] && Clock(at) in d.saw
    ensures Brings(h, SendReceipt(at), d, h.(pc := Awaiting(id, h.calls), calls := h.calls + 1))
  {
  }

  ghost method SendsReceipt(home: Home, id: string, at: Reading)
    requires home.Valid() && home.h.pc == Reporting(id) && id in home.h.mem && !home.h.mem[id].ack
    requires UnixMilli(at) < home.h.mem[id].expires && Clock(at) in home.since.saw && home.since.did == []
    modifies home`h, home`states, home`acts, home`doings, home`since
    ensures home.Valid() && home.since == NOTHING
    ensures home.h == old(home.h).(pc := Awaiting(id, old(home.h.calls)), calls := old(home.h.calls) + 1)
  {
    TellBrings(home.h, id, at, home.since);
    Happens(home, SendReceipt(at), home.h.(pc := Awaiting(id, home.h.calls), calls := home.h.calls + 1));
  }

  lemma RefusedBrings(h: Helper, t: Deed, d: Doings)
    requires TellsEntry(h, t) && d.did == [t] && t.trouble.Some? && t.trouble.value !in GIVEN_UP
    ensures Brings(h, ReceiptFailed, d, h.(pc := Idle))
  {
  }

  ghost method ReceiptIsRefused(home: Home, t: Deed)
    requires home.Valid() && TellsEntry(home.h, t) && home.since.did == [t]
    requires t.trouble.Some? && t.trouble.value !in GIVEN_UP
    modifies home`h, home`states, home`acts, home`doings, home`since
    ensures home.Valid() && home.since == NOTHING && home.h == old(home.h).(pc := Idle)
    ensures home.doings == old(home.doings) + [old(home.since)]
  {
    RefusedBrings(home.h, t, home.since);
    Happens(home, ReceiptFailed, home.h.(pc := Idle));
  }

  lemma TakenBrings(h: Helper, id: string, t: Deed, save: Save, d: Doings)
    requires TellsEntry(h, t) && h.pc.id == id && (t.trouble.Some? ==> t.trouble.value in GIVEN_UP)
    requires d.did == [t] + [Filed(h.mem[id := h.mem[id].(ack := true)], save)]
    ensures Brings(h, ReceiptDone(save), d, Commit(h, h.mem[id := h.mem[id].(ack := true)], save, Idle))
  {
    var filed := Filed(h.mem[id := h.mem[id].(ack := true)], save);
    assert Filing(h, ReceiptDone(save)) == [filed];
    assert |d.did| == 2 && d.did[0] == t && d.did[1..] == [filed];
    assert Does(h, ReceiptDone(save), d.did);
  }

  ghost method ReceiptIsTaken(home: Home, id: string, item: Entry, t: Deed, save: Save)
    requires home.Grounded() && TellsEntry(home.h, t) && home.h.pc.id == id && item == home.h.mem[id].(ack := true)
    requires t.trouble.Some? ==> t.trouble.value in GIVEN_UP
    requires home.since.did == [t] + [Filed(home.h.mem[id := item], save)]
    requires home.file == OnDisk(home.h, home.h.mem[id := item], save)
    modifies home`h, home`states, home`acts, home`doings, home`since
    ensures home.Valid() && home.since == NOTHING
    ensures home.h == Commit(old(home.h), old(home.h.mem)[id := item], save, Idle)
    ensures home.doings == old(home.doings) + [old(home.since)]
  {
    TakenBrings(home.h, id, t, save, home.since);
    Happens(home, ReceiptDone(save), Commit(home.h, home.h.mem[id := item], save, Idle));
  }
}
