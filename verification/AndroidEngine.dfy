/** The phone as home helper (WakeRelayEngine.kt): a worker that polls, reserves, asks for a
    permit and sends, while another thread may stop it between any two of its atomic steps. */
module AndroidEngine {
  import opened Wrappers
  import opened WakeModel
  import Seqs
  import HelperMachine

  datatype WakeJob = WakeJob(id: string, mac: Mac, remaining: int)

  /** What the engine still owes the server. */
  datatype Note = Note(id: string, sent: bool, code: Option<string>)

  /** A journal row; an id whose row is Uncertain was reserved and nothing more is known. */
  datatype Mark = Uncertain | MarkedSent | MarkedFailed

  /** What an observer of the phone sees happen, in order, however often the app is started. */
  datatype Event =
    | Started
    | Began(owed: Option<Note>)
    | Saw(stopped: bool)
    | Tick(at: int)
    | Polled(job: WakeJob)
    | Unpolled(why: Option<Thrown>)
    | Reserved(id: string)
    | Known(id: string, sent: bool)
    | Unreserved
    | Dropped(ids: set<string>)
    | Asked(id: string)
    | Granted(remaining: int)
    | Denied
    | Packet(bytes: seq<bv8>)
    | Handed(ok: bool)
    | Paused(ms: nat, ok: bool)
    | Finished(id: string, sent: bool, saved: bool)
    | Told(note: Note)
    | Answered(thrown: Option<Thrown>)
    | Halted

  datatype Thrown = Status(code: int) | Other

  const GIVEN_UP := {401, 404, 409, 410}

  // ---- What is allowed to happen --------------------------------------------------------

  /** What the events so far amount to: the last clock reading, the job last polled with both its
      deadlines, the packets sent for it, the jobs that ever had all three, and those whose row has
      been there since it was reserved. */
  datatype Trail = Trail(
    tick: int, job: Option<WakeJob>, deadline: int, reserved: bool, asked: Option<int>, permit: Option<int>,
    packets: nat, full: set<string>, rows: set<string>, halted: bool)

  function Extend(t: Trail, e: Event): Trail {
    match e
    case Started => t.(job := None, reserved := false, asked := None, permit := None, packets := 0, halted := false)
    case Tick(at) => t.(tick := at)
    case Polled(job) =>
      t.(job := Some(job), deadline := t.tick + job.remaining, reserved := false, asked := None, permit := None,
         packets := 0)
    case Reserved(id) => t.(reserved := true, rows := t.rows + {id})
    case Dropped(ids) => t.(rows := t.rows - ids)
    case Asked(_) => t.(asked := Some(t.tick))
    case Granted(remaining) => if t.asked.Some? then t.(permit := Some(t.asked.value + remaining)) else t
    case Packet(_) =>
      t.(packets := t.packets + 1,
         full := if t.packets == 2 && t.job.Some? then t.full + {t.job.value.id} else t.full)
    case Halted => t.(halted := true)
    case _ => t
  }

  function TrailOf(log: seq<Event>): Trail {
    if log == [] then Trail(0, None, 0, false, None, None, 0, {}, {}, false)
    else Extend(TrailOf(log[..|log| - 1]), log[|log| - 1])
  }

  predicate InTime(t: Trail) {
    t.permit.Some? && t.tick < t.deadline && t.tick < t.permit.value
  }

  /** A packet goes out only while nothing has stopped the phone, for a job reserved first, under its
      one permit, before both deadlines and at most three times; nothing is reserved while its row is
      there; a job is reported as sent only when some batch of it had all three packets. */
  predicate Allowed(t: Trail, e: Event) {
    match e
    case Reserved(id) => t.job.Some? && t.job.value.id == id && !t.reserved && id !in t.rows
    case Asked(id) => t.job.Some? && t.job.value.id == id && t.reserved && t.asked.None?
    case Granted(_) => t.asked.Some? && t.permit.None?
    case Packet(bytes) =>
      !t.halted && t.job.Some? && t.reserved && InTime(t) && t.packets < 3
      && HelperMachine.MagicPacket(t.job.value.mac) == Some(bytes)
    case Told(note) => note.sent ==> note.id in t.full
    case Saw(stopped) => stopped == t.halted
    case _ => true
  }

  predicate Good(log: seq<Event>) {
    log == [] || (Good(log[..|log| - 1]) && Allowed(TrailOf(log[..|log| - 1]), log[|log| - 1]))
  }

  lemma Append(log: seq<Event>, e: Event)
    ensures TrailOf(log + [e]) == Extend(TrailOf(log), e)
    ensures Good(log + [e]) <==> Good(log) && Allowed(TrailOf(log), e)
  {
    assert (log + [e])[..|log|] == log;
  }

  lemma {:induction false} GoodAt(log: seq<Event>, i: nat)
    requires Good(log) && i < |log|
    ensures Good(log[..i]) && Allowed(TrailOf(log[..i]), log[i])
    ensures TrailOf(log[..i + 1]) == Extend(TrailOf(log[..i]), log[i])
    decreases |log|
  {
    assert log[..i + 1][..i] == log[..i];
    if i == |log| - 1 {
      assert log[..i + 1] == log;
    } else {
      GoodAt(log[..|log| - 1], i);
      assert log[..|log| - 1][..i] == log[..i];
      assert log[..|log| - 1][..i + 1] == log[..i + 1];
    }
  }

  lemma {:induction false} HaltLasts(log: seq<Event>, i: nat, j: nat)
    requires Good(log) && i < j <= |log| && log[i] == Halted && forall k :: i < k < j ==> log[k] != Started
    ensures TrailOf(log[..j]).halted
    decreases j
  {
    GoodAt(log, j - 1);
    if i < j - 1 {
      HaltLasts(log, i, j - 1);
    }
  }

  /** Once stop has left its critical section no packet is sent until an engine is started anew. */
  lemma NothingAfterStop(log: seq<Event>, i: nat, j: nat)
    requires Good(log) && i < j < |log| && log[i] == Halted && forall k :: i < k < j ==> log[k] != Started
    ensures !log[j].Packet?
  {
    HaltLasts(log, i, j);
    GoodAt(log, j);
  }

  /** The first n packets of the batch running at the end of the log. */
  ghost predicate Batch(log: seq<Event>, id: string, shots: seq<nat>) {
    (forall k :: 0 <= k < |shots| ==>
       shots[k] < |log| && log[shots[k]].Packet? && PacketOf(log, shots[k], id))
    && (forall k :: 0 < k < |shots| ==> shots[k - 1] < shots[k])
  }

  /** The packet at i was sent for this job, before its poll deadline and its permit ran out. */
  ghost predicate PacketOf(log: seq<Event>, i: nat, id: string)
    requires i < |log|
  {
    var t := TrailOf(log[..i]);
    t.job.Some? && t.job.value.id == id && t.reserved && InTime(t) && !t.halted
    && log[i].Packet? && HelperMachine.MagicPacket(t.job.value.mac) == Some(log[i].bytes)
  }

  lemma PacketOfPrefix(log: seq<Event>, n: nat, i: nat, id: string)
    requires i < n <= |log|
    ensures PacketOf(log[..n], i, id) <==> PacketOf(log, i, id)
  {
    assert log[..n][..i] == log[..i];
  }

  lemma BatchGrows(log: seq<Event>, n: nat, id: string, shots: seq<nat>)
    requires n <= |log| && Batch(log[..n], id, shots)
    ensures Batch(log, id, shots)
  {
    forall k | 0 <= k < |shots|
      ensures shots[k] < |log| && log[shots[k]].Packet? && PacketOf(log, shots[k], id)
    {
      PacketOfPrefix(log, n, shots[k], id);
    }
  }

  lemma OneMore(log: seq<Event>, id: string, shots: seq<nat>) returns (more: seq<nat>)
    requires log != [] && PacketOf(log, |log| - 1, id) && Batch(log, id, shots)
    requires forall k :: 0 <= k < |shots| ==> shots[k] < |log| - 1
    ensures |more| == |shots| + 1 && Batch(log, id, more)
  {
    more := shots + [|log| - 1];
  }

  /** The packets counted for the current job are there to be found. */
  lemma {:induction false} CurrentBatch(log: seq<Event>) returns (shots: seq<nat>)
    requires Good(log)
    ensures |shots| == TrailOf(log).packets <= 3
    ensures shots != [] ==> TrailOf(log).job.Some? && Batch(log, TrailOf(log).job.value.id, shots)
  {
    shots := [];
    if log != [] {
      var n := |log| - 1;
      GoodAt(log, n);
      assert log[..n + 1] == log;
      var before := TrailOf(log[..n]);
      if !log[n].Polled? && !log[n].Started? {
        shots := CurrentBatch(log[..n]);
        if shots != [] {
          BatchGrows(log, n, before.job.value.id, shots);
        }
        if log[n].Packet? {
          shots := OneMore(log, before.job.value.id, shots);
        }
      }
    }
  }

  lemma {:induction false} FullBatch(log: seq<Event>, id: string) returns (shots: seq<nat>)
    requires Good(log) && id in TrailOf(log).full
    ensures |shots| == 3 && Batch(log, id, shots)
  {
    var n := |log| - 1;
    GoodAt(log, n);
    assert log[..n + 1] == log;
    if id in TrailOf(log[..n]).full {
      shots := FullBatch(log[..n], id);
      BatchGrows(log, n, id, shots);
    } else {
      shots := CurrentBatch(log);
    }
  }

  /** A job reported as sent had three packets, each sent before both of its deadlines. */
  lemma SentMeansThreePackets(log: seq<Event>, i: nat) returns (shots: seq<nat>)
    requires Good(log) && i < |log| && log[i].Told? && log[i].note.sent
    ensures |shots| == 3 && shots[2] < i && Batch(log, log[i].note.id, shots)
  {
    GoodAt(log, i);
    shots := FullBatch(log[..i], log[i].note.id);
    BatchGrows(log, i, log[i].note.id, shots);
  }

  /** The packets sent for the job from i on, whichever poll or start they belong to. */
  ghost function PacketsFor(log: seq<Event>, i: nat, id: string): nat {
    if |log| <= i then 0
    else
      var n := |log| - 1;
      var job := TrailOf(log[..n]).job;
      PacketsFor(log[..n], i, id) + (if log[n].Packet? && job.Some? && job.value.id == id then 1 else 0)
  }

  ghost predicate RowStays(log: seq<Event>, i: nat, id: string) {
    forall k :: i < k < |log| && log[k].Dropped? ==> id !in log[k].ids
  }

  ghost predicate Sending(t: Trail, id: string) { t.job.Some? && t.job.value.id == id && t.reserved }

  lemma {:induction false} RowHolds(log: seq<Event>, i: nat, id: string)
    requires Good(log) && i < |log| && log[i] == Reserved(id) && RowStays(log, i, id)
    ensures var t := TrailOf(log);
            id in t.rows && PacketsFor(log, i, id) <= 3 && (Sending(t, id) ==> PacketsFor(log, i, id) <= t.packets)
    decreases |log|
  {
    var n := |log| - 1;
    GoodAt(log, n);
    assert log[..n + 1] == log;
    if i == n {
      assert PacketsFor(log[..n], i, id) == 0;
    } else {
      assert forall k :: i < k < n ==> log[..n][k] == log[k];
      RowHolds(log[..n], i, id);
      RowStep(TrailOf(log[..n]), log[n], id, PacketsFor(log[..n], i, id));
    }
  }

  lemma RowStep(t: Trail, e: Event, id: string, count: nat)
    requires Allowed(t, e) && id in t.rows && count <= 3 && (Sending(t, id) ==> count <= t.packets)
    requires e.Dropped? ==> id !in e.ids
    ensures var u := Extend(t, e);
            var more := count + (if e.Packet? && t.job.Some? && t.job.value.id == id then 1 else 0);
            id in u.rows && more <= 3 && (Sending(u, id) ==> more <= u.packets)
  {
  }

  /** From its reservation on, for as long as its row is there, a job gets at most three packets over any
      number of polls, permits, stops and starts. */
  lemma AtMostThreeWhileTheRowStays(log: seq<Event>, i: nat, id: string)
    requires Good(log) && i < |log| && log[i] == Reserved(id) && RowStays(log, i, id)
    ensures PacketsFor(log, i, id) <= 3
  {
    RowHolds(log, i, id);
  }

  // ---- One step of the engine --------------------------------------------------------------

  /** Where a step stands: each stage names what comes next. Only stop and lost rows may come at
      any time; everything else is in the one order. */
  datatype Stage =
    | Off
    | Starting
    | Polling(start: int)
    | Holding(job: WakeJob, deadline: int)
    | Timing(job: WakeJob, deadline: int)
    | Reserving(job: WakeJob, deadline: int)
    | Permitting(job: WakeJob, deadline: int)
    | Asking(job: WakeJob, deadline: int, start: int)
    | Waiting(job: WakeJob, deadline: int, start: int)
    | Permitted(job: WakeJob, until: int)
    | Lasting(job: WakeJob, until: int)
    | Ready(job: WakeJob, until: int, n: nat)
    | Gated(job: WakeJob, until: int, n: nat)
    | Armed(job: WakeJob, until: int, n: nat, left: bool)
    | Resting(job: WakeJob, until: int, n: nat)
    | Failing(job: WakeJob)
    | Closing(job: WakeJob)
    | Owing(note: Note)
    | Telling(note: Note)
    | Hearing(note: Note)
    | End(owed: Option<Note>, thrown: Option<Thrown>)
    | Wrong

  const STOPPED := End(None, None)
  const BROKEN := End(None, Some(Other))

  function Moves(s: Stage, e: Event): Stage {
    if e.Halted? || e.Dropped? || s.Wrong? then s
    else if e.Started? then Off
    else
      match s
      case Off => Beginning(e)
      case End(_, _) => Beginning(e)
      case Starting => if e.Tick? then Polling(e.at) else Wrong
      case Polling(start) =>
        if e.Polled? then Holding(e.job, start + e.job.remaining)
        else if e.Unpolled? then End(None, e.why) else Wrong
      case Holding(job, deadline) => if e.Saw? then (if e.stopped then STOPPED else Timing(job, deadline)) else Wrong
      case Timing(job, deadline) =>
        if e.Tick? then (if e.at >= deadline then STOPPED else Reserving(job, deadline)) else Wrong
      case Reserving(job, deadline) => Reservation(job, deadline, e)
      case Permitting(job, deadline) => if e.Tick? then Asking(job, deadline, e.at) else Wrong
      case Asking(job, deadline, start) => if e == Asked(job.id) then Waiting(job, deadline, start) else Wrong
      case Waiting(job, deadline, start) =>
        if e.Granted? then
          var end := start + e.remaining;
          Permitted(job, if deadline < end then deadline else end)
        else if e.Denied? then BROKEN else Wrong
      case Permitted(job, until) => if e.Saw? then (if e.stopped then STOPPED else Lasting(job, until)) else Wrong
      case Lasting(job, until) =>
        if !e.Tick? then Wrong
        else if e.at >= until then Owing(Note(job.id, false, Some("permit_expired")))
        else if HelperMachine.MagicPacket(job.mac).None? then Failing(job)
        else Ready(job, until, 0)
      case Ready(job, until, n) => Shooting(job, until, n, e)
      case Gated(job, until, n) =>
        if e.Tick? then (if e.at >= until then Failing(job) else Armed(job, until, n, false)) else Wrong
      case Armed(job, until, n, left) => Shot(job, until, n, left, e)
      case Resting(job, until, n) =>
        if e.Paused? && e.ms == 200 then (if e.ok then Ready(job, until, n) else Failing(job)) else Wrong
      case Failing(job) => if e.Saw? then (if e.stopped then STOPPED else Closing(job)) else Wrong
      case Closing(job) =>
        if e == Finished(job.id, false, true) then Owing(Note(job.id, false, Some("send_failed")))
        else if e == Finished(job.id, false, false) then BROKEN else Wrong
      case Owing(note) => if e.Saw? then (if e.stopped then End(Some(note), None) else Telling(note)) else Wrong
      case Telling(note) => if e == Told(note) then Hearing(note) else Wrong
      case Hearing(note) => if e.Answered? then End(StillOwed(note, e.thrown), e.thrown) else Wrong
      case Wrong => Wrong
  }

  function Beginning(e: Event): Stage {
    if e.Began? then (if e.owed.Some? then Owing(e.owed.value) else Starting) else Wrong
  }

  /** A row found is reported as it says; a new one goes on to ask for a permit. */
  function Reservation(job: WakeJob, deadline: int, e: Event): Stage {
    if e == Reserved(job.id) then Permitting(job, deadline)
    else if e.Known? && e.id == job.id then Owing(Note(job.id, e.sent, Some("execution_uncertain")))
    else if e.Unreserved? then BROKEN else Wrong
  }

  /** Before each of three packets stop is looked for; after them the row is finished. */
  function Shooting(job: WakeJob, until: int, n: nat, e: Event): Stage {
    if n < 3 then (if e.Saw? then (if e.stopped then STOPPED else Gated(job, until, n)) else Wrong)
    else if e == Finished(job.id, true, true) then Owing(Note(job.id, true, None))
    else if e == Finished(job.id, true, false) then Failing(job)
    else Wrong
  }

  /** A packet is handed over once; an error does not say whether it left. */
  function Shot(job: WakeJob, until: int, n: nat, left: bool, e: Event): Stage {
    if e.Packet? && !left then Armed(job, until, n, true)
    else if e == Handed(true) && left then (if n < 2 then Resting(job, until, n + 1) else Ready(job, until, n + 1))
    else if e == Handed(false) then Failing(job)
    else Wrong
  }

  /** A note stays owed unless it was taken or the request is over for good. */
  function StillOwed(note: Note, thrown: Option<Thrown>): Option<Note> {
    if thrown.None? || (thrown.value.Status? && thrown.value.code in GIVEN_UP) then None else Some(note)
  }

  function Play(s: Stage, events: seq<Event>): Stage {
    if events == [] then s else Moves(Play(s, events[..|events| - 1]), events[|events| - 1])
  }

  lemma PlayAppend(s: Stage, events: seq<Event>, e: Event)
    ensures Play(s, events + [e]) == Moves(Play(s, events), e)
  {
    assert (events + [e])[..|events|] == events;
  }

  // What an undisturbed step does.

  /** The event is one of a step in which nothing goes wrong: nobody stops the phone, every call and
      write succeeds, every clock reading lies within one span, and poll and permit each leave the
      whole of it. */
  predicate Favourable(e: Event, from: int, to: int) {
    match e
    case Started => false
    case Began(_) => false
    case Saw(stopped) => !stopped
    case Tick(at) => from <= at < to
    case Polled(job) => to - from <= job.remaining && HelperMachine.Wakeable(job.mac)
    case Unpolled(_) => false
    case Known(_, _) => false
    case Unreserved => false
    case Granted(remaining) => to - from <= remaining
    case Denied => false
    case Handed(ok) => ok
    case Paused(_, ok) => ok
    case Finished(_, _, saved) => saved
    case Answered(thrown) => thrown.None?
    case _ => true
  }

  ghost predicate Calm(events: seq<Event>, from: int, to: int) {
    forall e :: e in events ==> Favourable(e, from, to)
  }

  function IsPacket(): Event -> bool { (e: Event) => e.Packet? }

  /** What a calm step has sent and told by each stage. */
  ghost predicate OnTheWay(s: Stage, events: seq<Event>, from: int, to: int) {
    var sent := Seqs.Count(events, IsPacket());
    match s
    case Starting => sent == 0
    case Polling(start) => sent == 0 && from <= start
    case Holding(_, deadline) => sent == 0 && to <= deadline
    case Timing(_, deadline) => sent == 0 && to <= deadline
    case Reserving(_, deadline) => sent == 0 && to <= deadline
    case Permitting(_, deadline) => sent == 0 && to <= deadline
    case Asking(_, deadline, start) => sent == 0 && to <= deadline && from <= start
    case Waiting(_, deadline, start) => sent == 0 && to <= deadline && from <= start
    case Permitted(_, until) => sent == 0 && to <= until
    case Lasting(_, until) => sent == 0 && to <= until
    case Ready(_, until, n) => sent == n <= 3 && to <= until
    case Gated(_, until, n) => sent == n < 3 && to <= until
    case Armed(_, until, n, left) => sent == n + (if left then 1 else 0) && n < 3 && to <= until
    case Resting(_, until, n) => sent == n < 3 && to <= until
    case Owing(note) => sent == 3 && note.sent
    case Telling(note) => sent == 3 && note.sent
    case Hearing(note) => sent == 3 && note.sent && Told(note) in events
    case End(owed, thrown) =>
      sent == 3 && owed.None? && thrown.None? && exists note: Note :: note.sent && Told(note) in events
    case _ => false
  }

  /** The address polled can be woken. */
  ghost predicate WakeableJob(s: Stage) {
    match s
    case Holding(job, _) => HelperMachine.Wakeable(job.mac)
    case Timing(job, _) => HelperMachine.Wakeable(job.mac)
    case Reserving(job, _) => HelperMachine.Wakeable(job.mac)
    case Permitting(job, _) => HelperMachine.Wakeable(job.mac)
    case Asking(job, _, _) => HelperMachine.Wakeable(job.mac)
    case Waiting(job, _, _) => HelperMachine.Wakeable(job.mac)
    case Permitted(job, _) => HelperMachine.Wakeable(job.mac)
    case Lasting(job, _) => HelperMachine.Wakeable(job.mac)
    case _ => true
  }

  lemma OnTheWayQuiet(s: Stage, events: seq<Event>, e: Event, from: int, to: int)
    requires OnTheWay(s, events, from, to) && WakeableJob(s) && (e.Halted? || e.Dropped?)
    ensures OnTheWay(Moves(s, e), events + [e], from, to) && WakeableJob(Moves(s, e))
  {
    Seqs.CountAppend(events, e, IsPacket());
    assert forall x :: x in events ==> x in events + [e];
  }

  lemma OnTheWayStep(s: Stage, events: seq<Event>, e: Event, from: int, to: int)
    requires OnTheWay(s, events, from, to) && WakeableJob(s) && Favourable(e, from, to) && from < to
    requires !Moves(s, e).Wrong?
    ensures OnTheWay(Moves(s, e), events + [e], from, to) && WakeableJob(Moves(s, e))
  {
    if e.Halted? || e.Dropped? {
      OnTheWayQuiet(s, events, e, from, to);
    } else {
      Seqs.CountAppend(events, e, IsPacket());
      assert forall x :: x in events ==> x in events + [e];
      assert e in events + [e];
    }
  }

  lemma WrongLasts(s: Stage, e: Event)
    ensures s.Wrong? ==> Moves(s, e).Wrong?
  {
  }

  lemma {:induction false} OnTheWayAlong(events: seq<Event>, from: int, to: int)
    requires Calm(events, from, to) && from < to && !Play(Starting, events).Wrong?
    ensures OnTheWay(Play(Starting, events), events, from, to) && WakeableJob(Play(Starting, events))
    decreases |events|
  {
    if events != [] {
      var n := |events| - 1;
      var e := events[n];
      WrongLasts(Play(Starting, events[..n]), e);
      OnTheWayAlong(events[..n], from, to);
      assert e in events && Favourable(e, from, to);
      OnTheWayStep(Play(Starting, events[..n]), events[..n], e, from, to);
      assert events[..n] + [e] == events;
    }
  }

  /** A step in which nothing goes wrong and that comes to an end has sent three packets and told
      the server so; it owes nothing. */
  lemma UndisturbedJobIsSent(events: seq<Event>, from: int, to: int)
    requires Calm(events, from, to) && from < to && Play(Starting, events).End?
    ensures Play(Starting, events) == End(None, None)
    ensures Seqs.Count(events, IsPacket()) == 3 && exists note: Note :: note.sent && Told(note) in events
  {
    OnTheWayAlong(events, from, to);
  }

  // ---- The engine -----------------------------------------------------------------------

  ghost predicate NoPacket(events: seq<Event>) {
    forall e :: e in events ==> !e.Packet? && !e.Polled?
  }

  /** Whatever the rows say was sent had its three packets. */
  ghost predicate Honest(journal: map<string, Mark>, full: set<string>) {
    forall id :: id in journal && journal[id] == MarkedSent ==> id in full
  }

  /** Both deadlines in one number, as the engine keeps them. */
  predicate Bounded(t: Trail, sendDeadline: int) {
    t.permit.Some? && sendDeadline == (if t.deadline < t.permit.value then t.deadline else t.permit.value)
  }

  /** All a packet needs besides the clock and a running phone. */
  predicate Cleared(t: Trail, packet: seq<bv8>, sendDeadline: int) {
    t.job.Some? && t.reserved && t.packets < 3 && HelperMachine.MagicPacket(t.job.value.mac) == Some(packet)
    && Bounded(t, sendDeadline)
  }

  ghost predicate SameJob(o: Trail, t: Trail) {
    t.job == o.job && t.reserved == o.reserved && t.permit == o.permit && t.deadline == o.deadline
    && o.full <= t.full
  }

  lemma GateOpens(t: Trail, packet: seq<bv8>, sendDeadline: int)
    requires Cleared(t, packet, sendDeadline) && !t.halted && t.tick < sendDeadline
    ensures Allowed(t, Packet(packet))
  {
  }

  /** A step's own events, after the one that begins it. */
  lemma {:induction false} PlayConcat(s: Stage, before: seq<Event>, after: seq<Event>)
    ensures Play(s, before + after) == Play(Play(s, before), after)
    decreases |after|
  {
    if after == [] {
      assert before + after == before;
    } else {
      var n := |after| - 1;
      PlayConcat(s, before, after[..n]);
      assert before + after == before + after[..n] + [after[n]];
      PlayAppend(s, before + after[..n], after[n]);
    }
  }

  /** Whatever the phone did before, a step that begins with nothing owed, runs into nothing that goes
      wrong and ends has sent three packets and told the server so. */
  lemma UndisturbedStepSends(log: seq<Event>, events: seq<Event>, from: int, to: int)
    requires Play(Off, log).Off? || Play(Off, log).End?
    requires Calm(events, from, to) && from < to && Play(Off, log + [Began(None)] + events).End?
    ensures Play(Off, log + [Began(None)] + events) == End(None, None)
    ensures Seqs.Count(events, IsPacket()) == 3 && exists note: Note :: note.sent && Told(note) in events
  {
    PlayAppend(Off, log, Began(None));
    PlayConcat(Off, log + [Began(None)], events);
    UndisturbedJobIsSent(events, from, to);
  }

  lemma Quiet(before: seq<Event>, after: seq<Event>, e: Event)
    requires before <= after && !e.Packet? && !e.Polled?
    requires NoPacket(after[|before|..])
    ensures before <= after + [e] && NoPacket((after + [e])[|before|..])
  {
    assert (after + [e])[|before|..] == after[|before|..] + [e];
  }

  lemma AfterTelling(before: seq<Event>, checked: seq<Event>, told: seq<Event>, after: seq<Event>, note: Note,
                     thrown: Option<Thrown>)
    requires before <= checked <= told && after == told + [Answered(thrown)]
    requires NoPacket(checked[|before|..]) && NoPacket(told[|checked|..]) && Told(note) in told[|checked|..]
    ensures before <= after && NoPacket(after[|before|..]) && Told(note) in after[|before|..]
  {
    assert after[|before|..] == checked[|before|..] + told[|checked|..] + [Answered(thrown)];
  }

  lemma ToldBetween(before: seq<Event>, asked: seq<Event>, after: seq<Event>, note: Note)
    requires asked == before || asked == before + [Halted]
    requires after == asked + [Told(note)] || after == asked + [Told(note)] + [Halted]
    ensures before <= after && NoPacket(after[|before|..]) && Told(note) in after[|before|..]
  {
    var tail := after[|before|..];
    assert after[|asked|] == Told(note) && tail[|asked| - |before|] == Told(note);
    assert forall k :: 0 <= k < |tail| ==> tail[k] == after[|before| + k] && tail[k] in {Told(note), Halted};
  }

  /** The stages in which the clock is read, and those in which stop is looked for. */
  predicate Timed(s: Stage) { s.Starting? || s.Timing? || s.Permitting? || s.Lasting? || s.Gated? }

  /** The row of the job may be finished: as sent after three packets, as failed in the handler. */
  predicate Finishing(s: Stage, id: string, sent: bool) {
    if sent then s.Ready? && s.n >= 3 && s.job.id == id else s.Closing? && s.job.id == id
  }

  predicate Checked(s: Stage) {
    s.Holding? || s.Permitted? || s.Failing? || s.Owing? || (s.Ready? && s.n < 3)
  }

  class WakeRelayEngine {
    var stopped: bool
    var pending: Option<Note>
    var journal: map<string, Mark>
    ghost var log: seq<Event>
    /** What the log amounts to. */
    ghost var trail: Trail
    /** Where the step stands. */
    ghost var stage: Stage

    ghost predicate Valid()
      reads this
    {
      && Kept() && !stage.Wrong?
      && stopped == trail.halted
      && (pending.Some? && pending.value.sent ==> pending.value.id in trail.full)
      && Honest(journal, trail.full) && trail.rows <= journal.Keys
    }

    /** The log is lawful, and trail and stage are what it amounts to. */
    ghost predicate Kept()
      reads this`log, this`trail, this`stage
    {
      forall n :: n == |log| ==> KeptTo(n)
    }

    ghost predicate KeptTo(n: nat)
      reads this`log, this`trail, this`stage
    {
      n == |log| && Good(log) && trail == TrailOf(log) && stage == Play(Off, log)
    }

    lemma Record()
      requires Kept()
      ensures Good(log) && trail == TrailOf(log) && stage == Play(Off, log)
    {
      assert KeptTo(|log|);
    }

    /** A new engine on the rows the store kept, after all that happened before, or nothing. What an
        earlier engine left meets the requires: its log is lawful, and its rows are there and honest. */
    constructor (ghost before: seq<Event>, stored: map<string, Mark>)
      requires Good(before) && Honest(stored, TrailOf(before).full) && TrailOf(before).rows <= stored.Keys
      requires !Play(Off, before).Wrong?
      ensures Valid() && log == before + [Started] && !stopped && pending.None? && journal == stored && stage == Off
    {
      stopped, pending, journal := false, None, stored;
      log, trail := before + [Started], Extend(TrailOf(before), Started);
      stage := Off;
      new;
      Append(before, Started);
      PlayAppend(Off, before, Started);
    }

    ghost method See(e: Event)
      requires Kept() && Allowed(trail, e) && !Moves(stage, e).Wrong?
      modifies this`log, this`trail, this`stage
      ensures Kept() && log == old(log) + [e] && trail == Extend(old(trail), e) && stage == Moves(old(stage), e)
    {
      Record();
      Append(log, e);
      PlayAppend(Off, log, e);
      log, trail, stage := log + [e], Extend(trail, e), Moves(stage, e);
    }

    /** The other thread: everything inside the gate is one step, the sender closed with it. */
    method Stop()
      requires Valid()
      modifies this`stopped, this`log, this`trail, this`stage
      ensures Valid() && stopped && log == old(log) + [Halted] && trail == old(trail).(halted := true)
      ensures stage == old(stage)
    {
      stopped := true;
      See(Halted);
    }

    /** The other thread may run here. */
    method Yield()
      requires Valid()
      modifies this`stopped, this`log, this`trail, this`stage
      ensures Valid() && trail == old(trail).(halted := stopped) && stage == old(stage)
      ensures if log == old(log) then stopped == old(stopped) else log == old(log) + [Halted]
    {
      var now: bool := *;
      if now {
        Stop();
      }
    }

    method ElapsedMs() returns (t: int)
      requires Kept() && Timed(stage)
      modifies this`log, this`trail, this`stage
      ensures Kept() && log == old(log) + [Tick(t)] && trail == old(trail).(tick := t)
      ensures stage == Moves(old(stage), Tick(t))
    {
      t := *;
      See(Tick(t));
    }

    /** The clock read outside the gate: stop may come before and after. */
    method Look() returns (t: int)
      requires Valid() && Timed(stage)
      modifies this`stopped, this`log, this`trail, this`stage
      ensures Valid() && old(log) <= log && trail == old(trail).(tick := t, halted := stopped)
      ensures stage == Moves(old(stage), Tick(t))
    {
      Yield();
      t := ElapsedMs();
      Yield();
    }

    /** Has stop been called? */
    method Check() returns (halt: bool)
      requires Valid() && Checked(stage)
      modifies this`log, this`trail, this`stage
      ensures Valid() && log == old(log) + [Saw(halt)] && trail == old(trail) && halt == stopped
      ensures stage == Moves(old(stage), Saw(halt))
    {
      halt := stopped;
      See(Saw(halt));
    }

    /** WakeRelayStore.reserve: None when the write fails. Beyond a hundred rows it drops some, possibly
        this one. */
    method Reserve(job: WakeJob, ghost deadline: int) returns (isNew: Option<bool>)
      requires Valid() && trail.job == Some(job) && !trail.reserved && stage == Reserving(job, deadline)
      modifies this`journal, this`log, this`trail, this`stage
      ensures Valid() && old(log) <= log
      ensures isNew == Some(false) ==>
                job.id in journal && stage == Owing(Note(job.id, journal[job.id] == MarkedSent,
                                                         Some("execution_uncertain")))
      ensures isNew == Some(true) ==>
                |old(log)| < |log| && log[|old(log)|] == Reserved(job.id)
                && trail == old(trail).(reserved := true, rows := trail.rows) && stage == Permitting(job, deadline)
      ensures isNew != Some(true) ==> trail == old(trail).(rows := trail.rows)
      ensures isNew == None ==> stage == BROKEN
    {
      if job.id in journal {
        See(Known(job.id, journal[job.id] == MarkedSent));
        return Some(false);
      }
      var saved: bool := *;
      journal := journal[job.id := Uncertain];
      if saved {
        See(Reserved(job.id));
      } else {
        See(Unreserved);
      }
      ghost var written := log;
      Trim();
      assert old(log) < written <= log;
      return if saved then Some(true) else None;
    }

    /** Beyond a hundred rows some are dropped. */
    method Trim()
      requires Valid()
      modifies this`journal, this`log, this`trail, this`stage
      ensures Valid() && trail == old(trail).(rows := trail.rows) && stage == old(stage)
      ensures old(log) <= log
    {
      if |journal| > 100 {
        var dropped: set<string> := *;
        journal := journal - dropped;
        See(Dropped(dropped));
      }
    }

    /** WakeRelayStore.finish: a failed commit may leave the row changed or not. */
    method Finish(id: string, sent: bool) returns (saved: bool)
      requires Valid() && (sent ==> id in trail.full)
      requires Finishing(stage, id, sent)
      modifies this`journal, this`log, this`trail, this`stage
      ensures Valid() && log == old(log) + [Finished(id, sent, saved)] && trail == old(trail)
      ensures stage == Moves(old(stage), Finished(id, sent, saved))
    {
      var changed: bool;
      saved, changed := *, *;
      if saved || changed {
        journal := journal[id := if sent then MarkedSent else MarkedFailed];
      }
      See(Finished(id, sent, saved));
    }

    method Tell(note: Note)
      requires Valid() && (note.sent ==> note.id in trail.full) && stage == Telling(note)
      modifies this`stopped, this`log, this`trail, this`stage
      ensures Valid() && old(log) <= log && trail == old(trail).(halted := stopped) && stage == Hearing(note)
      ensures NoPacket(log[|old(log)|..]) && Told(note) in log[|old(log)|..]
    {
      Yield();
      ghost var asked := log;
      See(Told(note));
      Yield();
      ToldBetween(old(log), asked, log, note);
    }

    /** Tell the server; an exception keeps the note unless it says the request is over. */
    method Flush() returns (thrown: Option<Thrown>)
      requires Valid() && pending.Some? && stage == Owing(pending.value)
      modifies this`pending, this`stopped, this`log, this`trail, this`stage
      ensures Valid() && old(log) <= log && NoPacket(log[|old(log)|..]) && stage == End(pending, thrown)
      ensures old(stopped) ==> pending == old(pending) && thrown.None?
      ensures pending == old(pending)
              || (pending.None? && Told(old(pending).value) in log[|old(log)|..])
      ensures thrown.Some? ==> (pending.None? <==> thrown.value.Status? && thrown.value.code in GIVEN_UP)
    {
      ghost var before := log;
      var halt := Check();
      Quiet(before, before, Saw(halt));
      if halt {
        return None;
      }
      ghost var checked := log;
      Tell(pending.value);
      ghost var told := log;
      thrown := Hear();
      AfterTelling(before, checked, told, log, old(pending).value, thrown);
    }

    /** The server's answer to the note: taken, or an exception. */
    method Hear() returns (thrown: Option<Thrown>)
      requires Valid() && pending.Some? && stage == Hearing(pending.value)
      modifies this`pending, this`log, this`trail, this`stage
      ensures Valid() && log == old(log) + [Answered(thrown)] && stage == End(pending, thrown)
      ensures pending == if thrown.None? || (thrown.value.Status? && thrown.value.code in GIVEN_UP) then None
                         else old(pending)
    {
      thrown := *;
      See(Answered(thrown));
      if thrown.None? || (thrown.value.Status? && thrown.value.code in GIVEN_UP) {
        pending := None;
      }
    }

    /** Hand over a packet the checks allow; an exception may come before or after it left. */
    method Emit(packet: seq<bv8>) returns (sent: bool)
      requires Kept() && Allowed(trail, Packet(packet)) && stage.Armed? && !stage.left
      modifies this`log, this`trail, this`stage
      ensures Kept() && old(log) <= log
      ensures trail == Extend(old(trail), Packet(packet)) || (!sent && trail == old(trail))
      ensures stage == if !sent then Failing(old(stage).job)
                       else if old(stage).n < 2 then Resting(old(stage).job, old(stage).until, old(stage).n + 1)
                       else Ready(old(stage).job, old(stage).until, old(stage).n + 1)
    {
      var leaked: bool;
      sent, leaked := *, *;
      if sent || leaked {
        See(Packet(packet));
      }
      See(Handed(sent));
    }

    /** What the gate holds: stop cannot run between the checks and the send. */
    method SendInside(packet: seq<bv8>, sendDeadline: int) returns (sent: bool)
      requires Valid() && !stopped && Cleared(trail, packet, sendDeadline)
      requires stage.Gated? && stage.until == sendDeadline && stage.n < 3
      modifies this`log, this`trail, this`stage
      ensures Valid() && old(log) <= log && SameJob(old(trail), trail)
      ensures sent ==> trail.packets == old(trail).packets + 1
                       && (old(trail).packets == 2 ==> trail.job.value.id in trail.full)
      ensures stage == if !sent then Failing(old(stage).job)
                       else if old(stage).n < 2 then Resting(old(stage).job, sendDeadline, old(stage).n + 1)
                       else Ready(old(stage).job, sendDeadline, old(stage).n + 1)
    {
      sent := false;
      var now := ElapsedMs();
      if now < sendDeadline {
        GateOpens(trail, packet, sendDeadline);
        sent := Emit(packet);
      }
    }

    /** One packet, inside the gate; halt says that stop came first. */
    method SendGated(packet: seq<bv8>, sendDeadline: int) returns (sent: bool, halt: bool)
      requires Valid() && Cleared(trail, packet, sendDeadline)
      requires stage.Ready? && stage.until == sendDeadline && stage.n < 3
      modifies this`stopped, this`log, this`trail, this`stage
      ensures Valid() && old(log) <= log && SameJob(old(trail), trail)
      ensures halt ==> stopped && !sent && stage == STOPPED
      ensures sent ==> trail.packets == old(trail).packets + 1
                       && (old(trail).packets == 2 ==> trail.job.value.id in trail.full)
      ensures !halt ==>
                stage == if !sent then Failing(old(stage).job)
                         else if old(stage).n < 2 then Resting(old(stage).job, sendDeadline, old(stage).n + 1)
                         else Ready(old(stage).job, sendDeadline, old(stage).n + 1)
    {
      sent := false;
      Yield();
      halt := Check();
      if !halt {
        sent := SendInside(packet, sendDeadline);
      }
    }

    /** The pause between two packets; interrupted, it counts as a failure. */
    method Pause() returns (ok: bool)
      requires Valid() && stage.Resting?
      modifies this`stopped, this`log, this`trail, this`stage
      ensures Valid() && old(log) <= log && trail == old(trail).(halted := stopped)
      ensures stage == if ok then Ready(old(stage).job, old(stage).until, old(stage).n) else Failing(old(stage).job)
    {
      Yield();
      ok := *;
      See(Paused(200, ok));
      Yield();
    }

    /** Up to three packets; what to report, or nothing when stopped or the journal failed. */
    method SendBatch(job: WakeJob, sendDeadline: int) returns (note: Option<Note>, thrown: Option<Thrown>)
      requires Valid()
      requires var t := trail;
               t.job == Some(job) && t.reserved && t.packets == 0 && Bounded(t, sendDeadline)
      requires stage == if HelperMachine.MagicPacket(job.mac).None? then Failing(job) else Ready(job, sendDeadline, 0)
      modifies this`stopped, this`log, this`trail, this`journal, this`stage
      ensures Valid() && old(log) <= log
      ensures note.Some? ==> note.value.id == job.id && thrown.None? && (note.value.sent ==> job.id in trail.full)
      ensures stage == if note.Some? then Owing(note.value) else End(None, thrown)
    {
      note, thrown := None, None;
      var sent, halt := SendAll(job, sendDeadline);
      if halt {
        return;
      }
      if sent {
        var saved := Finish(job.id, true);
        if saved {
          note := Some(Note(job.id, true, None));
          return;
        }
      }
      note, thrown := GiveUp(job);
    }

    /** The exception handler: a failure is recorded unless the phone was stopped. */
    method GiveUp(job: WakeJob) returns (note: Option<Note>, thrown: Option<Thrown>)
      requires Valid() && stage == Failing(job)
      modifies this`stopped, this`log, this`trail, this`journal, this`stage
      ensures Valid() && old(log) <= log && (note.Some? ==> thrown.None? && note.value.id == job.id && !note.value.sent)
      ensures stage == if note.Some? then Owing(note.value) else End(None, thrown)
    {
      note, thrown := None, None;
      Yield();
      var halt := Check();
      if halt {
        return;
      }
      var saved := Finish(job.id, false);
      if saved {
        note := Some(Note(job.id, false, Some("send_failed")));
      } else {
        thrown := Some(Other);
      }
    }

    /** Three packets two hundred milliseconds apart, or as many as go. */
    method SendAll(job: WakeJob, sendDeadline: int) returns (sent: bool, halt: bool)
      requires Valid()
      requires var t := trail;
               t.job == Some(job) && t.reserved && t.packets == 0 && Bounded(t, sendDeadline)
      requires stage == if HelperMachine.MagicPacket(job.mac).None? then Failing(job) else Ready(job, sendDeadline, 0)
      modifies this`stopped, this`log, this`trail, this`stage
      ensures Valid() && old(log) <= log
      ensures sent ==> !halt && job.id in trail.full
      ensures stage == if halt then STOPPED else if sent then Ready(job, sendDeadline, 3) else Failing(job)
    {
      halt := false;
      var packet := HelperMachine.MagicPacket(job.mac);
      var failed := packet.None?;
      var i := 0;
      while i < 3 && !failed
        invariant 0 <= i <= 3 && Valid() && old(log) <= log
        invariant SameJob(old(trail), trail)
        invariant !failed ==> trail.packets == i && (i == 3 ==> job.id in trail.full)
        invariant !failed ==> packet.Some?
        invariant stage == if failed then Failing(job) else Ready(job, sendDeadline, i)
        decreases 3 - i, !failed
      {
        sent, halt := SendGated(packet.value, sendDeadline);
        if halt {
          return;
        }
        i := i + 1;
        failed := !sent;
        if sent && i < 3 {
          sent := Pause();
          failed := !sent;
        }
      }
      sent := !failed;
    }

    method Report(note: Note) returns (thrown: Option<Thrown>)
      requires Valid() && (note.sent ==> note.id in trail.full) && stage == Owing(note)
      modifies this`pending, this`stopped, this`log, this`trail, this`stage
      ensures Valid() && old(log) <= log && pending in {None, Some(note)} && stage == End(pending, thrown)
    {
      pending := Some(note);
      thrown := Flush();
    }

    /** What follows a successful poll. */
    method Work(job: WakeJob, deadline: int) returns (thrown: Option<Thrown>)
      requires Valid() && pending.None? && stage == Holding(job, deadline)
      requires var t := trail;
               t.job == Some(job) && t.deadline == deadline && !t.reserved
               && t.asked.None? && t.permit.None? && t.packets == 0
      modifies this
      ensures Valid() && old(log) <= log && stage == End(pending, thrown)
    {
      thrown := None;
      var halt := Check();
      if halt {
        return;
      }
      var now := Look();
      if now < deadline {
        thrown := Book(job, deadline);
      }
    }

    /** A new job is asked a permit for; one found in the rows is only reported. */
    method Book(job: WakeJob, deadline: int) returns (thrown: Option<Thrown>)
      requires Valid() && pending.None? && stage == Reserving(job, deadline)
      requires var t := trail;
               t.job == Some(job) && t.deadline == deadline && !t.reserved
               && t.asked.None? && t.permit.None? && t.packets == 0
      modifies this
      ensures Valid() && old(log) <= log && stage == End(pending, thrown)
    {
      var isNew := Reserve(job, deadline);
      if isNew.None? {
        return Some(Other);
      }
      if isNew.value {
        thrown := Ask(job, deadline);
      } else {
        var sent := job.id in journal && journal[job.id] == MarkedSent;
        thrown := Report(Note(job.id, sent, Some("execution_uncertain")));
      }
    }

    method Question(job: WakeJob, ghost deadline: int) returns (permitStart: int)
      requires Valid() && trail.job == Some(job) && trail.reserved && trail.asked.None?
      requires stage == Permitting(job, deadline)
      modifies this`stopped, this`log, this`trail, this`stage
      ensures Valid() && old(log) <= log
      ensures trail == old(trail).(tick := permitStart, asked := Some(permitStart), halted := stopped)
      ensures stage == Waiting(job, deadline, permitStart)
    {
      permitStart := Look();
      See(Asked(job.id));
    }

    method Answer() returns (remaining: Option<int>)
      requires Valid() && trail.asked.Some? && trail.permit.None? && stage.Waiting?
      modifies this`stopped, this`log, this`trail, this`stage
      ensures Valid() && old(log) <= log
      ensures remaining.Some? ==>
                trail == old(trail).(permit := Some(old(trail).asked.value + remaining.value), halted := stopped)
      ensures stage == if remaining.Some? then Moves(old(stage), Granted(remaining.value)) else BROKEN
    {
      Yield();
      var value: int, broken: bool := *, *;
      if broken {
        See(Denied);
        return None;
      }
      See(Granted(value));
      return Some(value);
    }

    /** The permit runs from before the question was sent: None when the call fails. */
    method Authorize(job: WakeJob, ghost deadline: int) returns (permit: Option<int>)
      requires Valid() && trail.job == Some(job) && trail.reserved && trail.asked.None? && trail.permit.None?
      requires stage == Permitting(job, deadline)
      modifies this`stopped, this`log, this`trail, this`stage
      ensures Valid() && old(log) <= log
      ensures permit.Some? ==> trail.permit == permit && trail.job == old(trail).job && trail.reserved
                               && trail.packets == old(trail).packets && trail.deadline == old(trail).deadline
      ensures stage == if permit.None? then BROKEN
                       else Permitted(job, if deadline < permit.value then deadline else permit.value)
    {
      var permitStart := Question(job, deadline);
      var remaining := Answer();
      return if remaining.Some? then Some(permitStart + remaining.value) else None;
    }

    method Ask(job: WakeJob, deadline: int) returns (thrown: Option<Thrown>)
      requires Valid() && pending.None? && stage == Permitting(job, deadline)
      requires var t := trail;
               t.job == Some(job) && t.deadline == deadline && t.reserved
               && t.asked.None? && t.permit.None? && t.packets == 0
      modifies this
      ensures Valid() && old(log) <= log && stage == End(pending, thrown)
    {
      var permit := Authorize(job, deadline);
      if permit.None? {
        return Some(Other);
      }
      thrown := Send(job, if deadline < permit.value then deadline else permit.value);
    }

    /** What follows the permit. */
    method Send(job: WakeJob, sendDeadline: int) returns (thrown: Option<Thrown>)
      requires Valid() && pending.None? && stage == Permitted(job, sendDeadline)
      requires var t := trail;
               t.job == Some(job) && t.reserved && t.packets == 0 && Bounded(t, sendDeadline)
      modifies this
      ensures Valid() && old(log) <= log && stage == End(pending, thrown)
    {
      thrown := None;
      var halt := Check();
      if !halt {
        thrown := Outlast(job, sendDeadline);
      }
    }

    /** A permit that has run out by now is only reported. */
    method Outlast(job: WakeJob, sendDeadline: int) returns (thrown: Option<Thrown>)
      requires Valid() && pending.None? && stage == Lasting(job, sendDeadline)
      requires var t := trail;
               t.job == Some(job) && t.reserved && t.packets == 0 && Bounded(t, sendDeadline)
      modifies this
      ensures Valid() && old(log) <= log && stage == End(pending, thrown)
    {
      var now := Look();
      if now >= sendDeadline {
        thrown := Report(Note(job.id, false, Some("permit_expired")));
      } else {
        thrown := SendReported(job, sendDeadline);
      }
    }

    /** The packets, and what they came to. */
    method SendReported(job: WakeJob, sendDeadline: int) returns (thrown: Option<Thrown>)
      requires Valid() && pending.None?
      requires var t := trail;
               t.job == Some(job) && t.reserved && t.packets == 0 && Bounded(t, sendDeadline)
      requires stage == if HelperMachine.MagicPacket(job.mac).None? then Failing(job) else Ready(job, sendDeadline, 0)
      modifies this
      ensures Valid() && old(log) <= log && stage == End(pending, thrown)
    {
      var note;
      note, thrown := SendBatch(job, sendDeadline);
      if note.Some? {
        thrown := Report(note.value);
      }
    }

    /** A step not stopped begins with what is owed, then does all that the stages ask for. */
    method Step() returns (thrown: Option<Thrown>)
      requires Valid() && (stage.Off? || stage.End?)
      modifies this
      ensures Valid() && old(log) <= log
      ensures old(stopped) ==> log == old(log) && pending == old(pending) && thrown.None?
      ensures !old(stopped) ==>
                old(log) + [Began(old(pending))] <= log && Play(Off, log) == stage == End(pending, thrown)
      ensures old(pending).Some? ==> NoPacket(log[|old(log)|..]) && pending in {None, old(pending)}
    {
      if stopped {
        return None;
      }
      See(Began(pending));
      if pending.Some? {
        ghost var began := log;
        thrown := Flush();
        assert log[|old(log)|..] == [Began(old(pending))] + log[|began|..];
      } else {
        thrown := Poll();
      }
      Record();
    }

    /** The poll itself: a job, nothing, or an exception. */
    method Fetch() returns (job: Option<WakeJob>, deadline: int, broken: Option<Thrown>)
      requires Valid() && stage == Starting
      modifies this`stopped, this`log, this`trail, this`stage
      ensures Valid() && old(log) <= log
      ensures job.Some? ==>
                trail.job == job && trail.deadline == deadline && !trail.reserved
                && trail.asked.None? && trail.permit.None? && trail.packets == 0
      ensures stage == if job.Some? then Holding(job.value, deadline) else End(None, broken)
    {
      var pollStart := Look();
      job, broken := *, *;
      deadline := pollStart;
      if job.Some? {
        broken := None;
        deadline := pollStart + job.value.remaining;
        See(Polled(job.value));
        Yield();
      } else {
        See(Unpolled(broken));
      }
    }

    method Poll() returns (thrown: Option<Thrown>)
      requires Valid() && pending.None? && stage == Starting
      modifies this
      ensures Valid() && old(log) <= log && stage == End(pending, thrown)
    {
      var job, deadline, broken := Fetch();
      if job.None? {
        return broken;
      }
      thrown := Work(job.value, deadline);
    }
  }
}
