/** The home helper as a labelled transition system: every durable write, network exchange,
    clock check and packet of tools/wake-helper/core.go and the loop of main.go. Network
    replies, clock readings, write failures and crashes are chosen by the environment. */
module HelperMachine {
  import opened Wrappers
  import opened WakeModel
  import opened WakeRoutes

  const NS_PER_MS: int := 1_000_000
  const JOURNAL_CAP: nat := 2048

  // ---- Clocks -------------------------------------------------------------------------

  /** One reading carries a monotonic and a wall clock, in nanoseconds with unrelated zeros. */
  datatype Reading = Reading(mono: int, wall: int)

  function Plus(r: Reading, ms: int): Reading {
    Reading(r.mono + ms * NS_PER_MS, r.wall + ms * NS_PER_MS)
  }

  function UnixMilli(r: Reading): int { r.wall / NS_PER_MS }

  predicate Before(a: Reading, b: Reading) { a.mono < b.mono }

  predicate WithinDeadline(now: Reading, deadline: Reading) {
    Before(now, deadline) && UnixMilli(now) < UnixMilli(deadline)
  }

  // ---- Magic packets --------------------------------------------------------------------

  predicate Wakeable(mac: Mac) {
    |mac| == 6 && mac[0] & 1 == 0 && mac != [0, 0, 0, 0, 0, 0]
  }

  function Repeat(s: seq<bv8>, n: nat): (r: seq<bv8>)
    ensures |r| == n * |s|
  {
    if n == 0 then [] else Repeat(s, n - 1) + s
  }

  function MagicPacket(mac: Mac): Option<seq<bv8>> {
    if Wakeable(mac) then Some(Repeat([255], 6) + Repeat(mac, 16)) else None
  }

  lemma {:induction false} RepeatAt(s: seq<bv8>, n: nat, i: nat)
    requires i < n
    ensures i * |s| + |s| <= n * |s|
    ensures Repeat(s, n)[i * |s|..i * |s| + |s|] == s
  {
    if i < n - 1 {
      RepeatAt(s, n - 1, i);
      assert n * |s| == (n - 1) * |s| + |s|;
      assert Repeat(s, n)[i * |s|..i * |s| + |s|] == Repeat(s, n - 1)[i * |s|..i * |s| + |s|];
    } else {
      assert i * |s| + |s| == n * |s|;
    }
  }

  lemma SixOnes()
    ensures Repeat([255], 6) == [255, 255, 255, 255, 255, 255]
  {
    assert Repeat([255], 6) == Repeat([255], 4) + [255] + [255];
    assert Repeat([255], 4) == Repeat([255], 2) + [255] + [255];
    assert Repeat([255], 2) == [255, 255];
  }

  lemma After6(head: seq<bv8>, copies: seq<bv8>, i: nat)
    requires |head| == 6 && |copies| == 96 && i < 16
    ensures var p := head + copies;
            |p| == 102 && p[..6] == head && p[6 + 6 * i..12 + 6 * i] == copies[i * 6..i * 6 + 6]
  {
  }

  /** A packet is six 255 bytes and sixteen copies of the address, so it determines the address. */
  lemma MagicPacketNamesAddress(mac: Mac, i: nat)
    requires Wakeable(mac) && i < 16
    ensures var p := MagicPacket(mac).value;
            |p| == 102 && p[..6] == [255, 255, 255, 255, 255, 255] && p[6 + 6 * i..12 + 6 * i] == mac
  {
    RepeatAt(mac, 16, i);
    SixOnes();
    After6(Repeat([255], 6), Repeat(mac, 16), i);
  }

  lemma MagicPacketInjective(a: Mac, b: Mac)
    requires MagicPacket(a).Some? && MagicPacket(a) == MagicPacket(b)
    ensures a == b
  {
    MagicPacketNamesAddress(a, 0);
    MagicPacketNamesAddress(b, 0);
  }

  // ---- Journal --------------------------------------------------------------------------

  datatype EntryPhase = Reserved | Sent | Failed

  datatype Entry = Entry(expires: int, phase: EntryPhase, error: string, packets: nat, ack: bool)

  type Journal = map<string, Entry>

  predicate IdentifierChar(c: char) {
    'A' <= c <= 'Z' || 'a' <= c <= 'z' || '0' <= c <= '9' || c == '_' || c == '-'
  }

  predicate Identifier(id: string) {
    1 <= |id| <= 128 && forall i :: 0 <= i < |id| ==> IdentifierChar(id[i])
  }

  /** What loadJournal accepts; the phase set is the type EntryPhase. */
  predicate Loadable(j: Journal) {
    |j| <= JOURNAL_CAP && forall id :: id in j ==> Identifier(id)
  }

  predicate AllAcknowledged(j: Journal) {
    forall id :: id in j ==> j[id].ack
  }

  /** A write either lands, or fails leaving the old file, or fails after the rename. */
  datatype Save = Saved | Kept | Replaced

  // ---- States and actions ------------------------------------------------------------------

  datatype Pc =
    | Down
    | Idle
    | Polling(call: nat, start: Reading)
    | Holding(job: Job, start: Reading)
    | Ready(job: Job, deadline: Reading)
    | Asking(id: string, packet: seq<bv8>, deadline: Reading, call: nat, started: Reading)
    | Sending(id: string, packet: seq<bv8>, deadline: Reading, call: nat, count: nat)
    | Armed(id: string, packet: seq<bv8>, deadline: Reading, call: nat, count: nat)
    | Reporting(id: string)
    | Awaiting(id: string, call: nat)

  datatype Helper = Helper(pc: Pc, mem: Journal, disk: Journal, calls: nat)

  datatype Act =
    | Boot
    | Exit
    | SendPoll(at: Reading)
    | PollEmpty
    | PollJob(job: Job)
    | DropJob(at: Reading)
    | KnownJob(save: Save)
    | Reserve(at: Reading, stale: map<string, int>, save: Save)
    | Reject(code: string, save: Save)
    | SendAuth(at: Reading)
    | AuthLost(save: Save)
    | AuthGranted(remaining: int, save: Save)
    | Check(at: Reading, save: Save)
    | Write
    | WriteFailed(leaked: bool, save: Save)
    | RecordSent(save: Save)
    | Recover(id: string, save: Save)
    | SkipReceipt
    | ReceiptLate(at: Reading, save: Save)
    | SendReceipt(at: Reading)
    | ReceiptDone(save: Save)
    | ReceiptFailed

  /** The request whose reserved entry the current execution owns. */
  function Owned(pc: Pc): Option<string> {
    match pc
    case Ready(job, _) => Some(job.id)
    case Asking(id, _, _, _, _) => Some(id)
    case Sending(id, _, _, _, _) => Some(id)
    case Armed(id, _, _, _, _) => Some(id)
    case _ => None
  }

  function Written(pc: Pc): nat {
    if pc.Sending? || pc.Armed? then pc.count else 0
  }

  function JobDeadline(pc: Pc): Reading
    requires pc.Holding?
  {
    Plus(pc.start, pc.job.remaining)
  }

  predicate Stale(j: Journal, stale: map<string, int>) {
    forall id :: id in stale ==> id in j && j[id].ack && stale[id] - j[id].expires > 604_800_000
  }

  predicate Enabled(h: Helper, a: Act) {
    match a
    case Boot => h.pc.Down? && Loadable(h.disk)
    case Exit => true
    case SendPoll(_) => h.pc.Idle? && AllAcknowledged(h.mem)
    case PollEmpty => h.pc.Polling?
    case PollJob(_) => h.pc.Polling?
    case DropJob(at) =>
      h.pc.Holding?
      && (!Identifier(h.pc.job.id)
          || (h.pc.job.id !in h.mem
              && (h.pc.job.remaining <= 0 || h.pc.job.remaining > 30_000 || !WithinDeadline(at, JobDeadline(h.pc)))))
    case KnownJob(_) => h.pc.Holding? && Identifier(h.pc.job.id) && h.pc.job.id in h.mem
    case Reserve(at, stale, _) =>
      h.pc.Holding? && Identifier(h.pc.job.id) && h.pc.job.id !in h.mem
      && 0 < h.pc.job.remaining <= 30_000 && WithinDeadline(at, JobDeadline(h.pc))
      && Stale(h.mem, stale) && |h.mem - stale.Keys| < JOURNAL_CAP
    case Reject(code, _) =>
      (h.pc.Ready? && h.pc.job.id in h.mem
       && code == if MagicPacket(h.pc.job.mac).None? then "invalid_mac"
                  else if !h.pc.job.setupComplete then "setup_incomplete" else "network_changed")
      || (h.pc.Sending? && h.pc.id in h.mem && h.pc.count < 3 && code == "network_changed")
    case SendAuth(_) => h.pc.Ready? && MagicPacket(h.pc.job.mac).Some? && h.pc.job.setupComplete
    case AuthLost(_) => h.pc.Asking? && h.pc.id in h.mem
    case AuthGranted(_, _) => h.pc.Asking? && h.pc.id in h.mem
    case Check(_, _) => h.pc.Sending? && h.pc.id in h.mem && h.pc.count < 3
    case Write => h.pc.Armed?
    case WriteFailed(_, _) => h.pc.Armed? && h.pc.id in h.mem
    case RecordSent(_) => h.pc.Sending? && h.pc.id in h.mem && h.pc.count == 3
    case Recover(id, _) => h.pc.Idle? && id in h.mem && !h.mem[id].ack
    case SkipReceipt => h.pc.Reporting? && h.pc.id in h.mem && h.mem[h.pc.id].ack
    case ReceiptLate(at, _) =>
      h.pc.Reporting? && h.pc.id in h.mem && !h.mem[h.pc.id].ack && UnixMilli(at) >= h.mem[h.pc.id].expires
    case SendReceipt(at) =>
      h.pc.Reporting? && h.pc.id in h.mem && !h.mem[h.pc.id].ack && UnixMilli(at) < h.mem[h.pc.id].expires
    case ReceiptDone(_) => h.pc.Awaiting? && h.pc.id in h.mem
    case ReceiptFailed => h.pc.Awaiting?
  }

  /** A save that fails ends the run, whether or not the new file replaced the old one. */
  function Commit(h: Helper, j: Journal, save: Save, pc: Pc): Helper {
    match save
    case Saved => h.(pc := pc, mem := j, disk := j)
    case Kept => h.(pc := Down, mem := map[])
    case Replaced => h.(pc := Down, mem := map[], disk := j)
  }

  function Lease(pc: Pc, remaining: int): Reading
    requires pc.Asking?
  {
    var lease := Plus(pc.started, remaining - 50);
    if Before(lease, pc.deadline) then lease else pc.deadline
  }

  /** One journal entry replaced by another, and where a successful save continues. */
  datatype Rewrite = Rewrite(id: string, entry: Entry, onto: Pc)

  function Uncertain(e: Entry): Entry { e.(phase := EntryPhase.Failed, error := "execution_uncertain") }

  function Failing(h: Helper, id: string, code: string, onto: Pc): Rewrite
    requires id in h.mem
  {
    Rewrite(id, h.mem[id].(phase := EntryPhase.Failed, error := code, packets := Written(h.pc)), onto)
  }

  /** A reserved entry found again becomes failed; any other keeps its outcome. */
  function Settling(h: Helper, id: string): Option<Rewrite>
    requires id in h.mem
  {
    if h.mem[id].phase == Reserved then Some(Rewrite(id, Uncertain(h.mem[id]), Reporting(id))) else None
  }

  /** The entry an action rewrites in place, if it does. */
  function Rewritten(h: Helper, a: Act): Option<Rewrite>
    requires Enabled(h, a)
  {
    var pc := h.pc;
    match a
    case KnownJob(_) => Settling(h, pc.job.id)
    case Recover(id, _) => Settling(h, id)
    case Reject(code, _) => var id := Owned(pc).value; Some(Failing(h, id, code, Reporting(id)))
    case AuthLost(_) => Some(Failing(h, pc.id, "authorization_uncertain", Idle))
    case AuthGranted(remaining, _) =>
      if 0 < remaining <= 2000 then None else Some(Failing(h, pc.id, "invalid_permit", Reporting(pc.id)))
    case Check(at, _) =>
      if WithinDeadline(at, pc.deadline) then None else Some(Failing(h, pc.id, "permit_expired", Reporting(pc.id)))
    case WriteFailed(_, _) => Some(Failing(h, pc.id, "send_failed", Reporting(pc.id)))
    case RecordSent(_) =>
      Some(Rewrite(pc.id, h.mem[pc.id].(phase := EntryPhase.Sent, packets := pc.count), Reporting(pc.id)))
    case ReceiptLate(_, _) => Some(Rewrite(pc.id, h.mem[pc.id].(ack := true), Idle))
    case ReceiptDone(_) => Some(Rewrite(pc.id, h.mem[pc.id].(ack := true), Idle))
    case _ => None
  }

  function SaveOf(a: Act): Save {
    match a
    case KnownJob(save) => save
    case Reserve(_, _, save) => save
    case Reject(_, save) => save
    case AuthLost(save) => save
    case AuthGranted(_, save) => save
    case Check(_, save) => save
    case WriteFailed(_, save) => save
    case RecordSent(save) => save
    case Recover(_, save) => save
    case ReceiptLate(_, save) => save
    case ReceiptDone(save) => save
    case _ => Saved
  }

  /** Where an action that does not touch the file continues. */
  function Moved(h: Helper, a: Act): Pc
    requires Enabled(h, a) && !a.Reserve? && Rewritten(h, a).None?
  {
    var pc := h.pc;
    match a
    case Boot => Idle
    case Exit => Down
    case SendPoll(at) => Polling(h.calls, at)
    case PollJob(job) => Holding(job, pc.start)
    case KnownJob(_) => Reporting(pc.job.id)
    case SendAuth(at) => Asking(pc.job.id, MagicPacket(pc.job.mac).value, pc.deadline, h.calls, at)
    case AuthGranted(remaining, _) => Sending(pc.id, pc.packet, Lease(pc, remaining), pc.call, 0)
    case Check(_, _) => Armed(pc.id, pc.packet, pc.deadline, pc.call, pc.count)
    case Write => Sending(pc.id, pc.packet, pc.deadline, pc.call, pc.count + 1)
    case Recover(id, _) => Reporting(id)
    case SendReceipt(_) => Awaiting(pc.id, h.calls)
    case _ => Idle
  }

  predicate OpensCall(a: Act) { a.SendPoll? || a.SendAuth? || a.SendReceipt? }

  function Next(h: Helper, a: Act): Helper
    requires Enabled(h, a)
  {
    if a.Reserve? then
      var entry := Entry(UnixMilli(JobDeadline(h.pc)), Reserved, "", 0, false);
      Commit(h, (h.mem - a.stale.Keys)[h.pc.job.id := entry], a.save, Ready(h.pc.job, JobDeadline(h.pc)))
    else
      match Rewritten(h, a)
      case Some(w) => Commit(h, h.mem[w.id := w.entry], SaveOf(a), w.onto)
      case None =>
        h.(pc := Moved(h, a),
           mem := if a.Boot? then h.disk else if a.Exit? then map[] else h.mem,
           calls := if OpensCall(a) then h.calls + 1 else h.calls)
  }

  // ---- The shape of a step ---------------------------------------------------------------------

  lemma ReserveShape(h: Helper, a: Act)
    requires Enabled(h, a) && a.Reserve?
    ensures Next(h, a).calls == h.calls && (Next(h, a).pc.Down? || Next(h, a).pc.Ready?)
  {
  }

  lemma RewriteNext(h: Helper, a: Act)
    requires Enabled(h, a) && !a.Reserve? && Rewritten(h, a).Some?
    ensures var w := Rewritten(h, a).value;
            Next(h, a).calls == h.calls && (Next(h, a).pc.Down? || Next(h, a).pc == w.onto)
  {
  }

  lemma MoveNext(h: Helper, a: Act)
    requires Enabled(h, a) && !a.Reserve? && Rewritten(h, a).None?
    ensures Next(h, a).pc == Moved(h, a) && Next(h, a).calls == if OpensCall(a) then h.calls + 1 else h.calls
  {
  }

  lemma OpenersMove(h: Helper, a: Act)
    requires Enabled(h, a) && OpensCall(a)
    ensures !a.Reserve? && Rewritten(h, a).None?
  {
  }

  /** Which actions open which calls. */
  lemma MovedCalls(h: Helper, a: Act)
    requires Enabled(h, a) && !a.Reserve? && Rewritten(h, a).None?
    ensures var pc := Moved(h, a);
            && (pc.Polling? ==> a.SendPoll? && pc.call == h.calls)
            && (pc.Asking? ==> a.SendAuth? && pc.call == h.calls)
            && (pc.Awaiting? ==> a.SendReceipt? && pc.call == h.calls)
            && (pc.Holding? ==> a.PollJob?) && !pc.Ready?
  {
  }

  /** Only a permit starts sending and only a check arms a packet. */
  lemma MovedSends(h: Helper, a: Act)
    requires Enabled(h, a) && !a.Reserve? && Rewritten(h, a).None?
    ensures var pc := Moved(h, a);
            && (pc.Sending? ==> (a.AuthGranted? && h.pc.Asking? && pc.count == 0 && pc.id == h.pc.id)
                                || (a.Write? && h.pc.Armed? && pc.count == h.pc.count + 1 && pc.id == h.pc.id))
            && (pc.Armed? ==> a.Check? && h.pc.Sending? && h.pc.count < 3 && pc.count == h.pc.count && pc.id == h.pc.id)
            && (pc.Asking? ==> h.pc.Ready? && pc.id == h.pc.job.id)
  {
  }

  lemma RewriteReleases(h: Helper, a: Act)
    requires Enabled(h, a) && !a.Reserve? && Rewritten(h, a).Some?
    ensures Rewritten(h, a).value.onto.Idle? || Rewritten(h, a).value.onto.Reporting?
  {
  }

  // ---- The journal's life ---------------------------------------------------------------------

  /** A running helper's memory equals its file, the file loads, the execution in progress
      owns a reserved entry, and a receipt is only sent for a settled one. */
  ghost predicate Healthy(h: Helper) {
    && Loadable(h.disk)
    && (!h.pc.Down? ==> h.mem == h.disk)
    && (Owned(h.pc).Some? ==>
          var id := Owned(h.pc).value;
          id in h.disk && h.disk[id].phase == Reserved && !h.disk[id].ack && h.disk[id].packets == 0)
    && (h.pc.Reporting? || h.pc.Awaiting? ==> h.pc.id in h.disk && h.disk[h.pc.id].phase != Reserved)
    && (h.pc.Sending? ==> h.pc.count <= 3)
    && (h.pc.Armed? ==> h.pc.count < 3)
    && (forall id :: id in h.disk && h.disk[id].ack ==> h.disk[id].phase != Reserved)
  }

  lemma SizeAfterUpdate(j: Journal, id: string, e: Entry)
    ensures |j[id := e]| == if id in j then |j| else |j| + 1
  {
    assert j[id := e].Keys == j.Keys + {id};
    if id in j {
      assert j.Keys + {id} == j.Keys;
    }
  }

  /** A rewrite settles a reserved entry or acknowledges a settled one. */
  lemma RewriteShape(h: Helper, a: Act)
    requires Healthy(h) && Enabled(h, a) && !a.Reserve? && Rewritten(h, a).Some?
    ensures var w := Rewritten(h, a).value;
            && !h.pc.Down? && w.id in h.mem && EntryAdvances(h.mem[w.id], w.entry) && w.entry.phase != Reserved
            && (w.onto == Idle || w.onto == Reporting(w.id))
            && (Owned(h.pc).Some? ==> Owned(h.pc) == Some(w.id))
            && (w.entry.phase == EntryPhase.Sent && h.mem[w.id].phase != EntryPhase.Sent ==>
                  Owned(h.pc) == Some(w.id) && Written(h.pc) == 3 && a.RecordSent?)
            && (a.WriteFailed? ==> Owned(h.pc) == Some(w.id) && Written(h.pc) < 3 && h.pc.id == w.id)
            && !a.Write?
  {
  }

  lemma SizeKept(j: Journal, id: string, e: Entry)
    requires id in j
    ensures |j[id := e]| == |j|
  {
    SizeAfterUpdate(j, id, e);
  }

  lemma CommitHealthy(h: Helper, id: string, e: Entry, save: Save, pc: Pc)
    requires Healthy(h) && !h.pc.Down? && id in h.mem
    requires e.phase != Reserved && (pc == Idle || pc == Reporting(id))
    ensures Healthy(Commit(h, h.mem[id := e], save, pc))
  {
    SizeKept(h.mem, id, e);
  }

  lemma RewriteHealthy(h: Helper, a: Act)
    requires Healthy(h) && Enabled(h, a) && !a.Reserve? && Rewritten(h, a).Some?
    ensures Healthy(Next(h, a))
  {
    RewriteShape(h, a);
    var w := Rewritten(h, a).value;
    CommitHealthy(h, w.id, w.entry, SaveOf(a), w.onto);
  }

  lemma ReserveCommitHealthy(h: Helper, j: Journal, job: Job, deadline: Reading, save: Save)
    requires Healthy(h) && Identifier(job.id)
    requires j.Keys <= h.disk.Keys && (forall id :: id in j ==> j[id] == h.disk[id]) && job.id !in j
             && |j| < JOURNAL_CAP
    ensures var entry := Entry(UnixMilli(deadline), Reserved, "", 0, false);
            Healthy(Commit(h, j[job.id := entry], save, Ready(job, deadline)))
  {
    SizeAfterUpdate(j, job.id, Entry(UnixMilli(deadline), Reserved, "", 0, false));
  }

  lemma ReserveHealthy(h: Helper, a: Act)
    requires Healthy(h) && Enabled(h, a) && a.Reserve?
    ensures Healthy(Next(h, a))
  {
    ReserveCommitHealthy(h, h.mem - a.stale.Keys, h.pc.job, JobDeadline(h.pc), a.save);
  }

  /** An action that leaves the file alone keeps the owned entry, or gives it up. */
  lemma QuietOwned(h: Helper, a: Act)
    requires Enabled(h, a) && !a.Reserve? && Rewritten(h, a).None?
    requires h.pc.Sending? ==> h.pc.count <= 3
    requires h.pc.Armed? ==> h.pc.count < 3
    ensures var pc := Moved(h, a);
            && (Owned(pc).Some? ==> Owned(pc) == Owned(h.pc))
            && (Owned(pc).Some? ==> Written(pc) == if a.Write? then Written(h.pc) + 1 else Written(h.pc))
            && Written(pc) <= 3 && (pc.Armed? ==> pc.count < 3)
  {
    MovedCalls(h, a);
    MovedSends(h, a);
  }

  lemma QuietKind(h: Helper, a: Act)
    requires Enabled(h, a) && !a.Reserve? && Rewritten(h, a).None?
    ensures !a.WriteFailed? && (a.Write? ==> h.pc.Armed? && Moved(h, a).Sending? && Moved(h, a).id == h.pc.id)
    ensures h.pc.Down? && !a.Boot? ==> Moved(h, a).Down?
    ensures a.Exit? ==> Moved(h, a).Down?
  {
  }

  lemma QuietReporting(h: Helper, a: Act)
    requires Healthy(h) && Enabled(h, a) && !a.Reserve? && Rewritten(h, a).None?
    ensures var pc := Moved(h, a);
            pc.Reporting? || pc.Awaiting? ==> pc.id in h.disk && h.disk[pc.id].phase != Reserved
  {
  }

  lemma QuietHealthy(h: Helper, k: Helper)
    requires Healthy(h)
    requires k.disk == h.disk && (!k.pc.Down? ==> k.mem == h.disk)
    requires Owned(k.pc).Some? ==> Owned(k.pc) == Owned(h.pc)
    requires k.pc.Reporting? || k.pc.Awaiting? ==> k.pc.id in h.disk && h.disk[k.pc.id].phase != Reserved
    requires Written(k.pc) <= 3 && (k.pc.Armed? ==> k.pc.count < 3)
    ensures Healthy(k)
  {
  }

  /** After every action, crash included, the file on disk still loads and agrees with memory. */
  lemma HealthyStep(h: Helper, a: Act)
    requires Healthy(h) && Enabled(h, a)
    ensures Healthy(Next(h, a))
  {
    if a.Reserve? {
      ReserveHealthy(h, a);
    } else if Rewritten(h, a).Some? {
      RewriteHealthy(h, a);
    } else {
      QuietOwned(h, a);
      QuietKind(h, a);
      QuietReporting(h, a);
      QuietHealthy(h, Next(h, a));
    }
  }

  /** One entry's life: reserved, then sent or failed, then acknowledged, never back. */
  ghost predicate EntryAdvances(e: Entry, f: Entry) {
    && f.expires == e.expires
    && (e.phase != Reserved ==> f.phase == e.phase && f.packets == e.packets && f.error == e.error)
    && (e.ack ==> f == e)
    && (f.ack && !e.ack ==> e.phase != Reserved)
  }

  lemma CommitAdvances(h: Helper, w: Rewrite, save: Save, id: string)
    requires h.mem == h.disk && w.id in h.mem && id in h.disk && EntryAdvances(h.mem[w.id], w.entry)
    ensures var k := Commit(h, h.mem[w.id := w.entry], save, w.onto);
            id in k.disk && EntryAdvances(h.disk[id], k.disk[id])
  {
  }

  /** Every action moves each stored entry forward or leaves it; only an acknowledged entry more
      than seven days past its expiry is dropped, and only to reserve another request. */
  lemma EntriesAdvance(h: Helper, a: Act, id: string)
    requires Healthy(h) && Enabled(h, a)
    ensures id in h.disk && id in Next(h, a).disk ==> EntryAdvances(h.disk[id], Next(h, a).disk[id])
    ensures id in h.disk && id !in Next(h, a).disk ==>
              a.Reserve? && id in a.stale && h.disk[id].ack && a.stale[id] - h.disk[id].expires > 604_800_000
  {
    if id !in h.disk {
    } else if a.Reserve? {
      ReserveAdvances(h, a, id);
    } else if Rewritten(h, a).Some? {
      RewriteShape(h, a);
      CommitAdvances(h, Rewritten(h, a).value, SaveOf(a), id);
    }
  }

  lemma ReserveAdvances(h: Helper, a: Act, id: string)
    requires h.mem == h.disk && Enabled(h, a) && id in h.disk && a.Reserve?
    ensures id in Next(h, a).disk ==> Next(h, a).disk[id] == h.disk[id]
    ensures id !in Next(h, a).disk ==>
              id in a.stale && h.disk[id].ack && a.stale[id] - h.disk[id].expires > 604_800_000
  {
    assert id in a.stale || id in h.mem - a.stale.Keys;
  }

  // ---- The helper alone never resends --------------------------------------------------------

  /** Packets written for each request since its entry was last reserved in this run. */
  type Tally = map<string, nat>

  function Tallied(t: Tally, id: string): nat { if id in t then t[id] else 0 }

  function Bump(t: Tally, id: string): Tally { t[id := Tallied(t, id) + 1] }

  /** A packet reaches the network: a write that succeeds, or one that fails after sending. */
  predicate Emits(a: Act) { a.Write? || (a.WriteFailed? && a.leaked) }

  function TallyAfter(t: Tally, h: Helper, a: Act): Tally
    requires Enabled(h, a)
  {
    if a.Reserve? then (if a.save == Kept then t else t[h.pc.job.id := 0])
    else if Emits(a) then Bump(t, h.pc.id)
    else t
  }

  ghost predicate Run(h: Helper, acts: seq<Act>)
    decreases |acts|
  {
    acts == [] || (Enabled(h, acts[0]) && Run(Next(h, acts[0]), acts[1..]))
  }

  ghost function Final(h: Helper, acts: seq<Act>): Helper
    requires Run(h, acts)
    decreases |acts|
  {
    if acts == [] then h else Final(Next(h, acts[0]), acts[1..])
  }

  ghost function FinalTally(t: Tally, h: Helper, acts: seq<Act>): Tally
    requires Run(h, acts)
    decreases |acts|
  {
    if acts == [] then t else FinalTally(TallyAfter(t, h, acts[0]), Next(h, acts[0]), acts[1..])
  }

  ghost predicate TallyOk(t: Tally, h: Helper) {
    forall id :: id in h.disk ==>
      && (Owned(h.pc) == Some(id) ==> Tallied(t, id) == Written(h.pc))
      && Tallied(t, id) <= 3
      && (id in t && h.disk[id].phase == EntryPhase.Sent ==> t[id] == 3)
  }

  lemma TallyReserved(t: Tally, h: Helper, j: Journal, job: Job, deadline: Reading, expires: int, save: Save)
    requires TallyOk(t, h) && job.id !in j && forall id :: id in j ==> id in h.disk && j[id] == h.disk[id]
    requires Owned(h.pc).None?
    ensures TallyOk(if save == Kept then t else t[job.id := 0],
                    Commit(h, j[job.id := Entry(expires, Reserved, "", 0, false)], save, Ready(job, deadline)))
  {
  }

  lemma TallyReserve(t: Tally, h: Helper, a: Act)
    requires Healthy(h) && TallyOk(t, h) && Enabled(h, a) && a.Reserve?
    ensures TallyOk(TallyAfter(t, h, a), Next(h, a))
  {
    TallyReserved(t, h, h.mem - a.stale.Keys, h.pc.job, JobDeadline(h.pc), UnixMilli(JobDeadline(h.pc)), a.save);
  }

  lemma TallyCommit(t: Tally, h: Helper, w: Rewrite, save: Save, emitted: bool)
    requires TallyOk(t, h) && h.mem == h.disk && w.id in h.mem
    requires w.onto == Idle || w.onto == Reporting(w.id)
    requires emitted ==>
             Tallied(t, w.id) < 3 && w.entry.phase != EntryPhase.Sent && h.mem[w.id].phase != EntryPhase.Sent
    requires w.entry.phase == EntryPhase.Sent && h.mem[w.id].phase != EntryPhase.Sent ==> Tallied(t, w.id) == 3
    ensures TallyOk(if emitted then Bump(t, w.id) else t, Commit(h, h.mem[w.id := w.entry], save, w.onto))
  {
  }

  lemma OwnedTally(t: Tally, h: Helper, id: string)
    requires TallyOk(t, h) && id in h.disk
    ensures Owned(h.pc) == Some(id) ==> Tallied(t, id) == Written(h.pc)
  {
  }

  lemma TallyRewrite(t: Tally, h: Helper, w: Rewrite, save: Save, emitted: bool)
    requires Healthy(h) && TallyOk(t, h) && !h.pc.Down? && w.id in h.mem
    requires w.onto == Idle || w.onto == Reporting(w.id)
    requires w.entry.phase == EntryPhase.Sent && h.mem[w.id].phase != EntryPhase.Sent ==>
               Owned(h.pc) == Some(w.id) && Written(h.pc) == 3
    requires emitted ==> Owned(h.pc) == Some(w.id) && Written(h.pc) < 3 && w.entry.phase != EntryPhase.Sent
    ensures TallyOk(if emitted then Bump(t, w.id) else t, Commit(h, h.mem[w.id := w.entry], save, w.onto))
  {
    OwnedTally(t, h, w.id);
    TallyCommit(t, h, w, save, emitted);
  }

  lemma TallyMove(t: Tally, h: Helper, pc: Pc, k: Helper, emitted: bool)
    requires Healthy(h) && TallyOk(t, h) && k.pc == pc && k.disk == h.disk
    requires Owned(pc).Some? ==> Owned(pc) == Owned(h.pc) && Written(pc) == Written(h.pc) + (if emitted then 1 else 0)
    requires Written(pc) <= 3 && (emitted ==> pc.Sending?)
    ensures TallyOk(if emitted then Bump(t, pc.id) else t, k)
  {
  }

  lemma TallyStep(t: Tally, h: Helper, a: Act)
    requires Healthy(h) && TallyOk(t, h) && Enabled(h, a)
    ensures TallyOk(TallyAfter(t, h, a), Next(h, a))
  {
    if a.Reserve? {
      TallyReserve(t, h, a);
    } else if Rewritten(h, a).Some? {
      RewriteShape(h, a);
      TallyRewrite(t, h, Rewritten(h, a).value, SaveOf(a), Emits(a));
    } else {
      QuietOwned(h, a);
      QuietKind(h, a);
      TallyMove(t, h, Moved(h, a), Next(h, a), Emits(a));
    }
  }

  /** Whatever the server answers, and however often the helper crashes, a request still in the
      journal has seen at most three packets since it was reserved, and exactly three if its
      entry was reserved in this run and says sent. */
  lemma {:induction false} HelperAloneSendsAtMostThree(t: Tally, h: Helper, acts: seq<Act>)
    requires Healthy(h) && TallyOk(t, h) && Run(h, acts)
    ensures Healthy(Final(h, acts)) && TallyOk(FinalTally(t, h, acts), Final(h, acts))
    decreases |acts|
  {
    if acts != [] {
      HealthyStep(h, acts[0]);
      TallyStep(t, h, acts[0]);
      HelperAloneSendsAtMostThree(TallyAfter(t, h, acts[0]), Next(h, acts[0]), acts[1..]);
    }
  }

  ghost predicate Keeps(h: Helper, acts: seq<Act>, id: string)
    requires Run(h, acts)
    decreases |acts|
  {
    id in h.disk && (acts != [] ==> Keeps(Next(h, acts[0]), acts[1..], id))
  }

  lemma MovedOwner(h: Helper, a: Act)
    requires Enabled(h, a) && !a.Reserve? && Rewritten(h, a).None?
    ensures Owned(Moved(h, a)).Some? ==> Owned(Moved(h, a)) == Owned(h.pc)
  {
    MovedCalls(h, a);
    MovedSends(h, a);
  }

  lemma CommitReleases(h: Helper, w: Rewrite, save: Save)
    requires w.id in h.mem && (w.onto.Idle? || w.onto.Reporting?)
    ensures Owned(Commit(h, h.mem[w.id := w.entry], save, w.onto).pc) == None
  {
  }

  /** Only a reservation takes ownership of an entry, and only the owner emits its packets. */
  lemma OwnershipStep(h: Helper, a: Act)
    requires Healthy(h) && Enabled(h, a)
    ensures !a.Reserve? ==> Owned(Next(h, a).pc) == None || Owned(Next(h, a).pc) == Owned(h.pc)
  {
    if a.Reserve? {
    } else if Rewritten(h, a).Some? {
      RewriteShape(h, a);
      CommitReleases(h, Rewritten(h, a).value, SaveOf(a));
    } else {
      MovedOwner(h, a);
    }
  }

  lemma EmitterOwns(h: Helper, a: Act)
    requires Enabled(h, a) && Emits(a)
    ensures h.pc.Armed? && Owned(h.pc) == Some(h.pc.id)
  {
  }

  lemma SilentStep(t: Tally, h: Helper, a: Act, id: string)
    requires Healthy(h) && Enabled(h, a) && id in h.disk && Owned(h.pc) != Some(id) && id in Next(h, a).disk
    ensures Owned(Next(h, a).pc) != Some(id)
    ensures Tallied(TallyAfter(t, h, a), id) == Tallied(t, id)
  {
    if a.Reserve? {
      assert h.pc.job.id !in h.disk;
    } else {
      OwnershipStep(h, a);
      if Emits(a) {
        EmitterOwns(h, a);
      }
    }
  }

  /** A request found in the journal, after a crash or a repeated poll, is never sent again
      while its entry stays there. */
  lemma {:induction false} JournaledIsNeverResent(t: Tally, h: Helper, acts: seq<Act>, id: string)
    requires Healthy(h) && Run(h, acts) && Keeps(h, acts, id) && Owned(h.pc) != Some(id)
    ensures Tallied(FinalTally(t, h, acts), id) == Tallied(t, id)
    decreases |acts|
  {
    if acts != [] {
      HealthyStep(h, acts[0]);
      SilentStep(t, h, acts[0], id);
      JournaledIsNeverResent(TallyAfter(t, h, acts[0]), Next(h, acts[0]), acts[1..], id);
    }
  }
}
