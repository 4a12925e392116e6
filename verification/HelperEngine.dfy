/** The helper's engine and main loop as they run (tools/wake-helper/core.go, main.go): an
    in-memory journal changed entry by entry, saved whole, around network calls and packets.
    Everything the engine does is one of the machine's actions, witnessed by what the world was
    asked and answered, so every run of this code is a run of HelperMachine that did what it says. */
module HelperEngine {
  import opened Wrappers
  import opened WakeModel
  import opened WakeRoutes
  import opened HelperMachine
  import opened HelperWorld
  import opened HelperActs

  // ---- What a call of the engine may end with ------------------------------------------------------------

  /** The journal is full even without what was old enough to forget. */
  ghost predicate Crowded(j: Journal, saw: set<Sight>) {
    exists stale: map<string, int> ::
      Sorted(j, stale, saw, {}) && JOURNAL_CAP <= |j - stale.Keys|
  }

  lemma IsCrowded(j: Journal, stale: map<string, int>, saw: set<Sight>)
    requires Sorted(j, stale, saw, {}) && JOURNAL_CAP <= |j - stale.Keys|
    ensures Crowded(j, saw)
  {
  }

  lemma SaveBlamed(doings: seq<Doings>, before: seq<Doings>, d: Doings, did: seq<Deed>, j: Journal, save: Save)
    requires doings == before + [d] && d.did == did + [Filed(j, save)] && save != Saved
    ensures Blames(Last(doings), STORAGE)
  {
    assert d.did[|d.did| - 1] == Filed(j, save);
  }

  /** Errors that end the main loop. */
  const FATAL := {Some(STORAGE), Some(FULL), Some(Http(401)), Some(Http(403)), Some(Http(404))}

  /** n copies of a packet, each taken by the network. */
  function Takes(id: string, packet: seq<bv8>, n: nat): seq<Deed> {
    if n == 0 then [] else Takes(id, packet, n - 1) + [Handed(id, packet, true)]
  }

  // ---- The engine -------------------------------------------------------------------------------------------

  /** Only the entry of id may differ. */
  ghost predicate OnlyChanges(before: Journal, after: Journal, id: string) {
    after.Keys == before.Keys && forall k :: k in before && k != id ==> after[k] == before[k]
  }

  ghost predicate AcknowledgedBut(j: Journal, todo: set<string>) {
    todo <= j.Keys && forall id :: id in j && id !in todo ==> j[id].ack
  }

  lemma OneFewer(before: Journal, after: Journal, id: string, todo: set<string>)
    requires AcknowledgedBut(before, todo) && id in todo && OnlyChanges(before, after, id) && after[id].ack
    ensures AcknowledgedBut(after, todo - {id})
  {
  }

  lemma OnlyChangesTwice(a: Journal, b: Journal, c: Journal, id: string)
    requires OnlyChanges(a, b, id) && OnlyChanges(b, c, id)
    ensures OnlyChanges(a, c, id)
  {
  }

  lemma OneUpdate(j: Journal, id: string, item: Entry)
    requires id in j
    ensures OnlyChanges(j, j[id := item], id)
  {
  }

  lemma SortOne(j: Journal, stale: map<string, int>, saw: set<Sight>, todo: set<string>, id: string, at: Reading)
    requires Sorted(j, stale, saw, todo) && id in todo && id in j && j[id].ack && id !in stale
    ensures var more := saw + {Clock(at)};
            var wall := UnixMilli(at);
            if wall - j[id].expires > 604_800_000 then
              Sorted(j, stale[id := wall], more, todo - {id}) && j - stale[id := wall].Keys == j - stale.Keys - {id}
            else Sorted(j, stale, more, todo - {id})
  {
    var more, wall := saw + {Clock(at)}, UnixMilli(at);
    var then_ := if wall - j[id].expires > 604_800_000 then stale[id := wall] else stale;
    forall k | k in j && k !in todo - {id} && j[k].ack
      ensures Weighed(j, then_, more, k)
    {
      if k == id {
        assert Clock(at) in more;
      } else {
        assert Weighed(j, stale, saw, k);
        var was :| Clock(was) in saw && (k in stale <==> UnixMilli(was) - j[k].expires > 604_800_000)
                   && (k in stale ==> stale[k] == UnixMilli(was));
        assert Clock(was) in more;
      }
    }
  }

  class Engine {
    const home: Home
    var items: Journal

    /** The engine runs: its journal is the machine's memory and the file. */
    ghost predicate Running()
      reads this, home
    {
      home.Valid() && !home.h.pc.Down? && items == home.h.mem
    }

    /** Nothing done since the last action. */
    ghost predicate Resting()
      reads this, home
    {
      Running() && home.since.did == []
    }

    /** After a call: running again between two requests, or the run must end. An error is the
        stop signal or the answer to the last deed. */
    ghost predicate Settled(err: Option<Fault>)
      reads this, home
    {
      home.Valid() && home.since.did == []
      && match err
         case None => Running() && home.h.pc.Idle?
         case Some(f) =>
           if f == Stopped then home.cancelled
           else Blames(Last(home.doings), f) && (f == STORAGE || (Running() && home.h.pc.Idle?))
    }

    /** After a turn: running again between two requests, unless the run must end. */
    ghost predicate Over(err: Option<Fault>)
      reads this, home
    {
      home.Valid() && home.since.did == []
      && if err == Some(Stopped) then home.cancelled
         else err !in {Some(STORAGE), Some(FULL)} ==> Running() && home.h.pc.Idle?
    }

    /** loadJournal on a file the machine can load. */
    constructor (home: Home)
      requires home.Valid() && home.h.pc.Down? && home.since.did == []
      modifies home`h, home`states, home`acts, home`doings, home`since
      ensures this.home == home && Resting() && home.h.pc.Idle? && home.acts == old(home.acts) + [Boot]
    {
      this.home := home;
      this.items := home.file;
      new;
      Boots(home);
    }

    /** An entry is set and the whole journal saved; the action it belongs to is the caller's. */
    method Record(id: string, item: Entry) returns (ok: bool, ghost save: Save)
      requires home.Valid()
      modifies this`items, home`file, home`since
      ensures items == old(items)[id := item] && home.Grounded() && (ok <==> save == Saved)
      ensures home.file == OnDisk(home.h, items, save)
      ensures home.since == old(home.since).(did := old(home.since.did) + [Filed(items, save)])
    {
      items := items[id := item];
      ok, save := home.Replace(items);
    }

    method Receipt(id: string) returns (err: Option<Fault>)
      requires Resting() && home.h.pc == Reporting(id) && id in items
      modifies this`items, home`file, home`cancelled, home`h, home`states, home`acts, home`doings, home`since,
               home`handed
      ensures Settled(err)
      ensures OnlyChanges(old(items), items, id) && items[id].phase == old(items)[id].phase
      ensures err.None? ==> items[id].ack
      ensures old(home.cancelled) ==> home.cancelled
      ensures home.handed == old(home.handed)
    {
      var item := items[id];
      if item.ack {
        SkipsReceipt(home, id);
        return None;
      }
      var now := home.Now();
      if UnixMilli(now) >= item.expires {
        item := item.(ack := true);
        ghost var save;
        var ok;
        ok, save := Record(id, item);
        GivesUpReceipt(home, id, item, now, save);
        return if ok then None else Some(STORAGE);
      }
      SendsReceipt(home, id, now);
      err := Tell(id);
    }

    /** The receipt goes out; only an answer that will never change settles the entry. */
    method Tell(id: string) returns (err: Option<Fault>)
      requires Resting() && home.h.pc.Awaiting? && home.h.pc.id == id && id in items
      modifies this`items, home`file, home`cancelled, home`h, home`states, home`acts, home`doings, home`since,
               home`handed
      ensures Settled(err)
      ensures OnlyChanges(old(items), items, id) && items[id].phase == old(items)[id].phase
      ensures err.None? ==> items[id].ack
      ensures old(home.cancelled) ==> home.cancelled
      ensures home.handed == old(home.handed)
    {
      var item := items[id];
      var trouble := home.TellServer(id, item.phase == EntryPhase.Sent, item.error);
      ghost var told := Told(id, item.phase == EntryPhase.Sent, item.error, trouble);
      if trouble.Some? && trouble.value !in GIVEN_UP {
        ReceiptIsRefused(home, told);
        return trouble;
      }
      item := item.(ack := true);
      ghost var save;
      var ok;
      ok, save := Record(id, item);
      ReceiptIsTaken(home, id, item, told, save);
      return if ok then None else Some(STORAGE);
    }

    /** Turn a reserved entry found again into a failure; the machine is then reporting it. */
    method Settle(id: string, ghost polled: bool) returns (ok: bool)
      requires Resting() && Finds(home.h, id, polled)
      modifies this`items, home`file, home`h, home`states, home`acts, home`doings, home`since
      ensures OnlyChanges(old(items), items, id)
      ensures ok ==> Resting() && home.h.pc == Reporting(id)
      ensures !ok ==> Settled(Some(STORAGE))
    {
      var item := items[id];
      ok := true;
      if item.phase == Reserved {
        item := item.(phase := EntryPhase.Failed, error := "execution_uncertain");
        ghost var save;
        ok, save := Record(id, item);
        FindsReserved(home, id, polled, save);
      } else {
        FindsSettled(home, id, polled);
      }
    }

    /** Settle and report every entry whose receipt is still owed. */
    method Recover() returns (err: Option<Fault>)
      requires Resting() && home.h.pc.Idle?
      modifies this`items, home`file, home`cancelled, home`h, home`states, home`acts, home`doings, home`since,
               home`handed
      ensures Settled(err)
      ensures err.None? ==> AllAcknowledged(items)
      ensures old(home.cancelled) ==> home.cancelled
      ensures home.handed == old(home.handed)
    {
      var todo := items.Keys;
      while todo != {}
        invariant Resting() && home.h.pc.Idle?
        invariant AcknowledgedBut(items, todo)
        invariant old(home.cancelled) ==> home.cancelled
        invariant home.handed == old(home.handed)
        decreases |todo|
      {
        var id :| id in todo;
        ghost var before := items;
        if !items[id].ack {
          var ok := Settle(id, false);
          if !ok {
            return Some(STORAGE);
          }
          ghost var settled := items;
          err := Receipt(id);
          if err.Some? {
            return;
          }
          OnlyChangesTwice(before, settled, items, id);
        }
        OneFewer(before, items, id, todo);
        todo := todo - {id};
      }
      return None;
    }

    /** Record a failure of the execution in progress after did, and report it. */
    method Fail(id: string, item: Entry, code: string, ghost why: Act, ghost did: seq<Deed>)
      returns (err: Option<Fault>)
      requires Running() && id in items && Fails(home.h, why, id, code, did, home.since.saw) && home.since.did == did
      requires item == items[id].(packets := Written(home.h.pc))
      modifies this`items, home`file, home`cancelled, home`h, home`states, home`acts, home`doings, home`since,
               home`handed
      ensures Settled(err) && id in items && items[id].phase == EntryPhase.Failed
      ensures old(home.cancelled) ==> home.cancelled
      ensures home.handed == old(home.handed)
    {
      ghost var save;
      var ok;
      ok, save := Record(id, item.(phase := EntryPhase.Failed, error := code));
      FailsWith(home, why, id, item, code, did, save);
      if !ok {
        return Some(STORAGE);
      }
      err := Receipt(id);
    }

    /** Forget exactly the settled entries a week past their expiry by the clock as read for each of
        the settled ones; the file follows with the next save. */
    method Forget() returns (ghost stale: map<string, int>)
      requires Resting()
      modifies this`items, home`since
      ensures home.Valid() && home.since.did == [] && old(home.since.saw) <= home.since.saw
      ensures Sorted(home.h.mem, stale, home.since.saw, {}) && items == home.h.mem - stale.Keys
    {
      stale := map[];
      var todo := items.Keys;
      while todo != {}
        invariant home.Valid() && home.since.did == [] && old(home.since.saw) <= home.since.saw
        invariant Sorted(home.h.mem, stale, home.since.saw, todo) && items == home.h.mem - stale.Keys
        invariant todo <= items.Keys
        decreases |todo|
      {
        var id :| id in todo;
        if items[id].ack {
          ghost var saw := home.since.saw;
          var at := home.Now();
          SortOne(home.h.mem, stale, saw, todo, id, at);
          if UnixMilli(at) - items[id].expires > 7 * 24 * 60 * 60 * 1000 {
            items := items - {id};
            stale := stale[id := UnixMilli(at)];
          }
        }
        todo := todo - {id};
      }
    }

    /** Make room, then reserve the job on disk. */
    method Reserve(job: Job, start: Reading, now: Reading) returns (err: Option<Fault>, ghost full: bool)
      requires Resting() && home.h.pc == Holding(job, start) && Clock(now) in home.since.saw
      requires Identifier(job.id) && job.id !in items && 0 < job.remaining <= 30_000
      requires WithinDeadline(now, Plus(start, job.remaining))
      modifies this`items, home`file, home`h, home`states, home`acts, home`doings, home`since
      ensures err.None? ==> !full && Resting() && home.h.pc == Ready(job, Plus(start, job.remaining)) && job.id in items
                            && items[job.id] == Entry(UnixMilli(home.h.pc.deadline), Reserved, "", 0, false)
      ensures err.Some? && !full ==>
                err == Some(STORAGE) && Settled(err) && job.id in items && items[job.id].phase == Reserved
      ensures full ==> err == Some(FULL) && home.Valid() && home.since.did == [] && job.id !in items
                       && home.h == old(home.h) && Crowded(home.h.mem, home.since.saw)
    {
      ghost var stale := Forget();
      if |items| >= JOURNAL_CAP {
        IsCrowded(home.h.mem, stale, home.since.saw);
        return Some(FULL), true;
      }
      var ok := Claim(job, start, now, stale);
      return if ok then None else Some(STORAGE), false;
    }

    /** The reservation, written to the journal with room for it. */
    method Claim(job: Job, start: Reading, now: Reading, ghost stale: map<string, int>) returns (ok: bool)
      requires home.Valid() && home.since.did == [] && home.h.pc == Holding(job, start)
      requires Sorted(home.h.mem, stale, home.since.saw, {}) && items == home.h.mem - stale.Keys
      requires |items| < JOURNAL_CAP && Clock(now) in home.since.saw
      requires Identifier(job.id) && job.id !in home.h.mem && 0 < job.remaining <= 30_000
      requires WithinDeadline(now, Plus(start, job.remaining))
      modifies this`items, home`file, home`h, home`states, home`acts, home`doings, home`since
      ensures items == old(items)[job.id := Reservation(job, start)]
      ensures if ok then Resting() && home.h.pc == Ready(job, Plus(start, job.remaining))
              else Settled(Some(STORAGE))
    {
      ghost var kept := items;
      ghost var save;
      ok, save := Record(job.id, Reservation(job, start));
      ghost var before, d := home.doings, home.since;
      assert d.did == [Filed(items, save)];
      Reserves(home, job, start, now, stale, kept, save);
      if !ok {
        SaveBlamed(home.doings, before, d, [], items, save);
      }
    }

    /** Even a lost answer is never asked for again: the entry fails for good. */
    method Lost(id: string, reserved: Entry, fault: Fault) returns (err: Option<Fault>)
      requires Running() && home.h.pc.Asking? && home.h.pc.id == id && id in items
      requires reserved == items[id] && reserved.packets == 0 && home.since.did == [Asked(id, Err(fault))]
      requires (fault == Stopped ==> home.cancelled) && (fault.Code? ==> fault == NETWORK)
      modifies this`items, home`file, home`h, home`states, home`acts, home`doings, home`since
      ensures Settled(err) && id in items && items[id].phase == EntryPhase.Failed
    {
      var item := reserved.(phase := EntryPhase.Failed, error := "authorization_uncertain");
      ghost var save;
      var ok;
      ok, save := Record(id, item);
      LosesPermit(home, id, item, fault, save);
      err := Some(if ok then fault else STORAGE);
    }

    /** The question goes out after a look at the clock. */
    method Ask(job: Job, packet: seq<bv8>, deadline: Reading) returns (answer: Result<int, Fault>, started: Reading)
      requires Resting() && home.h.pc == Ready(job, deadline)
      requires MagicPacket(job.mac) == Some(packet) && job.setupComplete
      requires Stopping(false) in home.since.saw && Network(true) in home.since.saw
      modifies home`cancelled, home`h, home`states, home`acts, home`doings, home`since
      ensures Running() && home.h.pc == Asking(job.id, packet, deadline, old(home.h.calls), started)
      ensures home.acts == old(home.acts) + [SendAuth(started)] && home.since.did == [Asked(job.id, answer)]
      ensures answer == Err(Stopped) ==> home.cancelled
      ensures answer.Err? && answer.error.Code? ==> answer.error == NETWORK
      ensures old(home.cancelled) ==> home.cancelled
    {
      started := home.Now();
      Asks(home, job, deadline, started);
      answer := home.AskPermit(job.id);
    }

    /** Ask the server for the permit. Only a reply of up to two seconds grants anything: a lease that
        ends 50 ms before the permit does, counted from before the request went out, and no later
        than the request. */
    method Authorize(job: Job, reserved: Entry, packet: seq<bv8>, deadline: Reading)
      returns (granted: bool, err: Option<Fault>, lease: Reading, ghost started: Reading, ghost remaining: int)
      requires Resting() && home.h.pc == Ready(job, deadline) && job.id in items && reserved == items[job.id]
      requires reserved.packets == 0 && MagicPacket(job.mac) == Some(packet) && job.setupComplete
      requires Stopping(false) in home.since.saw && Network(true) in home.since.saw
      modifies this`items, home`file, home`cancelled, home`h, home`states, home`acts, home`doings, home`since,
               home`handed
      ensures granted ==> Resting() && items == old(items) && home.h.pc.Sending? && home.h.pc.id == job.id
                          && home.h.pc.packet == packet && home.h.pc.deadline == lease && home.h.pc.count == 0
      ensures granted ==> home.acts == old(home.acts) + [SendAuth(started)] + [AuthGranted(remaining, Saved)]
      ensures granted ==> 0 < remaining <= 2000 && lease in {Plus(started, remaining - 50), deadline}
                          && !Before(Plus(started, remaining - 50), lease) && !Before(deadline, lease)
      ensures !granted ==> Settled(err) && job.id in items && items[job.id].phase == EntryPhase.Failed
      ensures old(home.cancelled) ==> home.cancelled
      ensures home.handed == old(home.handed)
    {
      var item := reserved;
      var answer, now := Ask(job, packet, deadline);
      granted, lease, started, remaining := false, deadline, now, 0;
      if answer.Err? {
        err := Lost(job.id, item, answer.error);
        return;
      }
      if answer.value <= 0 || answer.value > 2000 {
        err := Fail(job.id, item, "invalid_permit", AuthGranted(answer.value, Saved), home.since.did);
        return;
      }
      remaining := answer.value;
      lease := Plus(now, answer.value - 50);
      lease := if Before(lease, deadline) then lease else deadline;
      assert lease == Lease(home.h.pc, remaining);
      GetsPermit(home, job.id, answer.value);
      granted, err := true, None;
    }

    /** One packet, after a network check and a look at both clocks, and two hundred milliseconds after
        the one before. */
    method SendOne(job: Job, item: Entry, packet: seq<bv8>, deadline: Reading)
      returns (sent: bool, err: Option<Fault>)
      requires Resting() && home.h.pc.Sending? && home.h.pc.id == job.id && home.h.pc.packet == packet
      requires home.h.pc.deadline == deadline && home.h.pc.count < 3
      requires home.h.pc.count > 0 ==> Paused(200) in home.since.saw
      requires job.id in items && item == items[job.id].(packets := home.h.pc.count)
      requires item.phase == Reserved && !item.ack && items[job.id].packets == 0
      modifies this`items, home`file, home`cancelled, home`h, home`states, home`acts, home`doings, home`since,
               home`handed
      ensures sent ==> Resting() && items == old(items)
                       && home.h.pc == Sending(job.id, packet, deadline, old(home.h.pc.call), old(home.h.pc.count) + 1)
      ensures sent ==> home.handed == old(home.handed) + [Handed(job.id, packet, true)]
      ensures !sent ==> home.handed == old(home.handed)
                        || home.handed == old(home.handed) + [Handed(job.id, packet, false)]
      ensures !sent ==> Settled(err) && job.id in items && items[job.id].phase != EntryPhase.Sent
      ensures old(home.cancelled) ==> home.cancelled
    {
      sent := false;
      var stopped := home.Interrupted();
      if stopped {
        err := Some(Stopped);
        return;
      }
      var sameNetwork := home.SameNetwork();
      if !sameNetwork {
        err := Fail(job.id, item, "network_changed", Reject("network_changed", Saved), []);
        return;
      }
      var now := home.Now();
      if !WithinDeadline(now, deadline) {
        err := Fail(job.id, item, "permit_expired", Check(now, Saved), []);
        return;
      }
      Checks(home, job.id, now);
      sent, err := Emit(job, item, packet);
    }

    /** The packet is handed over once, and counted as sent exactly when the network took it. */
    method Emit(job: Job, item: Entry, packet: seq<bv8>) returns (sent: bool, err: Option<Fault>)
      requires Resting() && home.h.pc.Armed? && home.h.pc.id == job.id && home.h.pc.packet == packet
      requires job.id in items && item == items[job.id].(packets := home.h.pc.count)
      requires item.phase == Reserved && !item.ack && items[job.id].packets == 0
      modifies this`items, home`file, home`cancelled, home`h, home`states, home`acts, home`doings, home`since,
               home`handed
      ensures home.handed == old(home.handed) + [Handed(job.id, packet, sent)]
      ensures sent ==> Resting() && items == old(items)
                       && home.h.pc
                            == Sending(job.id, packet, old(home.h.pc.deadline), old(home.h.pc.call), item.packets + 1)
      ensures !sent ==> Settled(err) && job.id in items && items[job.id].phase == EntryPhase.Failed
      ensures old(home.cancelled) ==> home.cancelled
    {
      ghost var leaked;
      err := None;
      home.Health();
      sent, leaked := home.Send(job.id, packet);
      if sent {
        Writes(home, job.id);
      } else {
        err := Fail(job.id, item, "send_failed", WriteFailed(leaked, Saved), home.since.did);
      }
    }

    /** The entry says sent only after the network took the packet three times. */
    method SendThree(job: Job, reserved: Entry, packet: seq<bv8>, deadline: Reading)
      returns (err: Option<Fault>)
      requires Resting() && home.h.pc.Sending? && home.h.pc.id == job.id && home.h.pc.packet == packet
      requires home.h.pc.deadline == deadline && home.h.pc.count == 0
      requires job.id in items && items[job.id] == reserved
      requires reserved.phase == Reserved && !reserved.ack && reserved.packets == 0
      modifies this`items, home`file, home`cancelled, home`h, home`states, home`acts, home`doings, home`since,
               home`handed
      ensures Settled(err) && job.id in items
      ensures items[job.id].phase == EntryPhase.Sent ==>
                home.handed == old(home.handed) + Takes(job.id, packet, 3)
      ensures old(home.cancelled) ==> home.cancelled
    {
      var item := reserved;
      for i := 0 to 3
        invariant Resting() && items == old(items) && item == reserved.(packets := i)
        invariant home.h.pc.Sending? && home.h.pc.id == job.id && home.h.pc.packet == packet
        invariant home.h.pc.deadline == deadline && home.h.pc.count == i
        invariant 0 < i < 3 ==> Paused(200) in home.since.saw
        invariant home.handed == old(home.handed) + Takes(job.id, packet, i)
        invariant old(home.cancelled) ==> home.cancelled
      {
        var sent;
        sent, err := SendOne(job, item, packet, deadline);
        if !sent {
          return;
        }
        item := item.(packets := item.packets + 1);
        if i < 2 {
          var stopped := home.Pause(200);
          if stopped {
            return Some(Stopped);
          }
        }
      }
      item := item.(phase := EntryPhase.Sent);
      ghost var save;
      var ok;
      ok, save := Record(job.id, item);
      RecordsSent(home, job.id, item, save);
      if !ok {
        return Some(STORAGE);
      }
      err := Receipt(job.id);
    }

    /** A job found in the journal is reported, never sent. */
    method Repeat(job: Job, start: Reading) returns (err: Option<Fault>)
      requires Resting() && home.h.pc == Holding(job, start) && job.id in items && Identifier(job.id)
      modifies this`items, home`file, home`cancelled, home`h, home`states, home`acts, home`doings, home`since,
               home`handed
      ensures Settled(err) && home.handed == old(home.handed) && job.id in items
      ensures old(home.cancelled) ==> home.cancelled
    {
      var ok := Settle(job.id, true);
      if !ok {
        return Some(STORAGE);
      }
      err := Receipt(job.id);
    }

    /** A new job ends as sent only after the network took its address's magic packet three times;
        a job found in the journal is reported, never sent. */
    method Execute(job: Job, start: Reading) returns (err: Option<Fault>, ghost refused: bool)
      requires Resting() && home.h.pc == Holding(job, start)
      modifies this`items, home`file, home`cancelled, home`h, home`states, home`acts, home`doings, home`since,
               home`handed
      ensures Over(err) && (!refused ==> Settled(err))
      ensures !Identifier(job.id) || (job.id !in old(items) && !(0 < job.remaining <= 30_000)) ==>
                refused && err == Some(Code("invalid_job"))
      ensures Identifier(job.id) && job.id in old(items) ==> !refused
      ensures Identifier(job.id) && refused && 0 < job.remaining <= 30_000 ==>
                err == Some(Code("request_expired"))
                || (err == Some(FULL) && home.h == old(home.h) && Crowded(home.h.mem, home.since.saw))
      ensures job.id !in old(items) && job.id in items && items[job.id].phase == EntryPhase.Sent ==>
                MagicPacket(job.mac).Some?
                && home.handed == old(home.handed) + Takes(job.id, MagicPacket(job.mac).value, 3)
      ensures job.id in old(items) || refused ==> home.handed == old(home.handed)
      ensures old(home.cancelled) ==> home.cancelled
    {
      if !Identifier(job.id) {
        Drops(home, job, start, start);
        return Some(Code("invalid_job")), true;
      }
      if job.id in items {
        err := Repeat(job, start);
        return err, false;
      }
      err, refused := ExecuteNew(job, start);
    }

    method ExecuteNew(job: Job, start: Reading) returns (err: Option<Fault>, ghost refused: bool)
      requires Resting() && home.h.pc == Holding(job, start) && Identifier(job.id) && job.id !in items
      modifies this`items, home`file, home`cancelled, home`h, home`states, home`acts, home`doings, home`since,
               home`handed
      ensures if refused then Over(err) && home.handed == old(home.handed) && job.id !in items else Settled(err)
      ensures !(0 < job.remaining <= 30_000) ==> refused && err == Some(Code("invalid_job"))
      ensures refused && 0 < job.remaining <= 30_000 ==>
                err == Some(Code("request_expired"))
                || (err == Some(FULL) && home.h == old(home.h) && Crowded(home.h.mem, home.since.saw))
      ensures job.id in items && items[job.id].phase == EntryPhase.Sent ==>
                MagicPacket(job.mac).Some?
                && home.handed == old(home.handed) + Takes(job.id, MagicPacket(job.mac).value, 3)
      ensures old(home.cancelled) ==> home.cancelled
    {
      if job.remaining <= 0 || job.remaining > 30_000 {
        Drops(home, job, start, start);
        return Some(Code("invalid_job")), true;
      }
      var deadline := Plus(start, job.remaining);
      var now := home.Now();
      if !WithinDeadline(now, deadline) {
        Drops(home, job, start, now);
        return Some(Code("request_expired")), true;
      }
      err, refused := Proceed(job, start, now);
    }

    /** Reserve, then carry out. */
    method Proceed(job: Job, start: Reading, now: Reading) returns (err: Option<Fault>, ghost full: bool)
      requires Resting() && home.h.pc == Holding(job, start) && Clock(now) in home.since.saw
      requires Identifier(job.id) && job.id !in items && 0 < job.remaining <= 30_000
      requires WithinDeadline(now, Plus(start, job.remaining))
      modifies this`items, home`file, home`cancelled, home`h, home`states, home`acts, home`doings, home`since,
               home`handed
      ensures full ==> err == Some(FULL) && home.Valid() && home.since.did == [] && job.id !in items
                       && home.h == old(home.h) && Crowded(home.h.mem, home.since.saw)
                       && home.handed == old(home.handed)
      ensures !full ==> Settled(err)
      ensures job.id in items && items[job.id].phase == EntryPhase.Sent ==>
                MagicPacket(job.mac).Some?
                && home.handed == old(home.handed) + Takes(job.id, MagicPacket(job.mac).value, 3)
      ensures old(home.cancelled) ==> home.cancelled
    {
      err, full := Reserve(job, start, now);
      if err.None? {
        err := Carry(job, Plus(start, job.remaining));
      }
    }

    /** The part of the execution that follows the reservation. */
    method Carry(job: Job, deadline: Reading) returns (err: Option<Fault>)
      requires Resting() && home.h.pc == Ready(job, deadline) && job.id in items
      requires items[job.id] == Entry(UnixMilli(deadline), Reserved, "", 0, false)
      modifies this`items, home`file, home`cancelled, home`h, home`states, home`acts, home`doings, home`since,
               home`handed
      ensures Settled(err) && job.id in items
      ensures items[job.id].phase == EntryPhase.Sent ==>
                MagicPacket(job.mac).Some?
                && home.handed == old(home.handed) + Takes(job.id, MagicPacket(job.mac).value, 3)
      ensures old(home.cancelled) ==> home.cancelled
    {
      var item := items[job.id];
      var packet := MagicPacket(job.mac);
      if packet.None? {
        err := Fail(job.id, item, "invalid_mac", Reject("invalid_mac", Saved), []);
        return;
      }
      if !job.setupComplete {
        err := Fail(job.id, item, "setup_incomplete", Reject("setup_incomplete", Saved), []);
        return;
      }
      var stopped := home.Interrupted();
      if stopped {
        return Some(Stopped);
      }
      var sameNetwork := home.SameNetwork();
      if !sameNetwork {
        err := Fail(job.id, item, "network_changed", Reject("network_changed", Saved), []);
        return;
      }
      var granted, lease;
      ghost var started, remaining;
      granted, err, lease, started, remaining := Authorize(job, item, packet.value, deadline);
      if granted {
        err := SendThree(job, item, packet.value, lease);
      }
    }

    /** The loop of main.go for a number of turns: owed receipts first, then one poll. It goes on
        only while the journal in memory is the one on disk, and unless it is stopped or meets an error
        that ends it, every turn finds no network, is left owing a receipt for a reason, or polls. */
    method Turns(turns: nat) returns (err: Option<Fault>)
      requires Resting() && home.h.pc.Idle?
      modifies this`items, home`file, home`cancelled, home`h, home`states, home`acts, home`doings, home`since,
               home`handed, home`turns
      ensures home.Valid() && home.h.pc.Down?
      ensures home.cancelled || err in FATAL || |home.turns| == |old(home.turns)| + turns
      ensures Traced(home.states, home.acts, home.doings)
      ensures forall t :: TallyOk(t, home.states[0]) ==>
                TallyOk(TallyAt(t, home.states, home.acts, home.doings, |home.acts|), home.h)
      ensures forall before :: Backed(before, home.states[0]) ==> Backed(before + home.handed, home.h)
    {
      err := None;
      for turn := 0 to turns
        invariant Resting() && home.h.pc.Idle?
        invariant |home.turns| == |old(home.turns)| + turn
      {
        var stopped := home.Interrupted();
        if stopped {
          break;
        }
        var sameNetwork := home.NetworkUp();
        if !sameNetwork {
          continue;
        }
        err := Recover();
        if err.None? {
          ghost var reply;
          err, reply := PollOnce();
        } else {
          home.LeavesOwed(err.value);
        }
        stopped := home.Interrupted();
        if stopped {
          err := None;
          break;
        }
        if err in FATAL {
          break;
        }
      }
      Exits(home);
      home.Recorded();
      AfterAnyRun(home.states, home.acts, home.doings);
      assert home.handed == Handovers(home.doings);
    }

    /** One poll, and the execution of the job it brings. */
    method PollOnce() returns (err: Option<Fault>, ghost reply: Result<Option<Job>, Fault>)
      requires Resting() && home.h.pc.Idle? && AllAcknowledged(items)
      modifies this`items, home`file, home`cancelled, home`h, home`states, home`acts, home`doings, home`since,
               home`handed, home`turns
      ensures Over(err) && home.turns == old(home.turns) + [PollSent(reply)]
      ensures reply.Err? ==> err == Some(reply.error)
      ensures reply == Ok(None) ==> err == None
      ensures old(home.cancelled) ==> home.cancelled
    {
      var start := home.Now();
      Polls(home, start);
      var answer := home.PollServer();
      reply := answer;
      if answer.Err? || answer.value.None? {
        FindsNothing(home, answer);
        return if answer.Err? then Some(answer.error) else None, reply;
      }
      FindsJob(home, answer.value.value);
      ghost var refused;
      err, refused := Execute(answer.value.value, start);
    }
  }

  /** However the run went, at most three emissions for each reservation, and nothing recorded as
      sent without three packets the network took. */
  lemma AfterAnyRun(states: seq<Helper>, acts: seq<Act>, doings: seq<Doings>)
    requires Proper(states, acts, doings)
    ensures forall t :: TallyOk(t, states[0]) ==> TallyOk(TallyAt(t, states, acts, doings, |acts|), states[|acts|])
    ensures forall before :: Backed(before, states[0]) ==> Backed(before + Handovers(doings), states[|acts|])
  {
    FirstAndLast(states, acts, doings);
    forall t | TallyOk(t, states[0])
      ensures TallyOk(TallyAt(t, states, acts, doings, |acts|), states[|acts|])
    {
      TalliedAlong(t, states, acts, doings, |acts|);
    }
    forall before | Backed(before, states[0])
      ensures Backed(before + Handovers(doings), states[|acts|])
    {
      SentMeansTaken(before, states, acts, doings, |acts|);
      assert doings[..|acts|] == doings;
    }
  }
}
