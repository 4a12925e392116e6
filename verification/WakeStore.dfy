/** The commit protocol between the live user map and the account file
    (crates/rdesk_server/src/wake/store.rs): concurrent updates queue for one lock, write the
    whole snapshot beside the file, rename it into place and only then replace the live entry.
    A crash may fall between any two of these. A new process loads the file, recovers every account
    and writes the result back before it serves anyone (crates/rdesk_server/src/main.rs). */
module WakeStore {
  import opened Wrappers
  import opened Seqs
  import opened WakeModel
  import opened WakeRestart

  datatype User = User(id: string, profile: string, wake: Account)

  type Users = map<string, User>

  /** What an update does to one account; None when it refuses. */
  type Mutation = Account -> Option<Account>

  // ---- The serial specification -------------------------------------------------------------------

  datatype Event =
    | Committed(txn: nat, user: string, f: Mutation, now: nat)
    | Restarted(now: nat)

  function Updated(users: Users, user: string, f: Mutation, now: nat): Option<Users> {
    if user !in users then None
    else match f(users[user].wake)
      case Some(d) => Some(users[user := users[user].(wake := d.Prune(now))])
      case None => None
  }

  function RecoverUser(u: User, now: nat): User { u.(wake := u.wake.RecoverAfterRestart(now)) }

  /** What load_users makes of the file. */
  function RecoverAll(users: Users, now: nat): Users {
    map id | id in users :: RecoverUser(users[id], now)
  }

  ghost function Effect(users: Users, e: Event): Users {
    match e
    case Committed(_, user, f, now) =>
      (match Updated(users, user, f, now)
       case Some(next) => next
       case None => users)
    case Restarted(now) => RecoverAll(users, now)
  }

  /** The updates one after another, with nothing in between. */
  ghost function Replay(users: Users, events: seq<Event>): Users {
    if events == [] then users
    else Effect(Replay(users, events[..|events| - 1]), events[|events| - 1])
  }

  lemma ReplayAppend(users: Users, events: seq<Event>, e: Event)
    ensures Replay(users, events + [e]) == Effect(Replay(users, events), e)
  {
    assert (events + [e])[..|events|] == events;
  }

  lemma RecoverAllTwice(users: Users, now: nat, later: nat)
    requires now <= later
    ensures RecoverAll(RecoverAll(users, now), later) == RecoverAll(users, later)
  {
    forall id | id in users
      ensures RecoverAll(RecoverAll(users, now), later)[id] == RecoverAll(users, later)[id]
    {
      RestartTwice(users[id].wake, now, later);
    }
  }

  // ---- The concurrent protocol -----------------------------------------------------------------------

  datatype Stage =
    | Waiting
    | Prepared(now: nat, image: Users)
    | Renamed(image: Users)
    | Done
    | Refused
    | Failed
    | Lost

  datatype Txn = Txn(user: string, f: Mutation, stage: Stage)

  /** start is what the first process loaded and events the serial order since then; recovered is
      when this process loaded the file, until it has written the recovered state back. */
  datatype Store = Store(
    live: Users, disk: Users, holder: Option<nat>, txns: seq<Txn>, clock: nat,
    start: Users, events: seq<Event>, recovered: Option<nat>)

  datatype Step =
    | Tick(d: nat)
    | Begin(user: string, f: Mutation)
    | Lock(t: nat)
    | Rename(t: nat)
    | WriteFails(t: nat)
    | Insert(t: nat)
    | Crash
    | Persist

  /** Routes are served only once persist_users has succeeded; its failure ends the process. */
  predicate Serving(s: Store) { s.recovered == None }

  ghost predicate Holding(s: Store, t: nat) { s.holder == Some(t) && t < |s.txns| }

  ghost predicate StepOk(s: Store, step: Step) {
    match step
    case Tick(_) => true
    case Begin(_, _) => Serving(s)
    case Lock(t) => Serving(s) && s.holder == None && t < |s.txns| && s.txns[t].stage.Waiting?
    case Rename(t) => Holding(s, t) && s.txns[t].stage.Prepared?
    case WriteFails(t) => Holding(s, t) && s.txns[t].stage.Prepared?
    case Insert(t) => Holding(s, t) && s.txns[t].stage.Renamed? && s.txns[t].user in s.txns[t].stage.image
    case Crash => true
    case Persist => !Serving(s)
  }

  function At(s: Store, t: nat, stage: Stage): seq<Txn>
    requires t < |s.txns|
  {
    s.txns[t := s.txns[t].(stage := stage)]
  }

  /** A crash forgets every update that has not answered. */
  function Forget(t: Txn): Txn {
    if t.stage.Waiting? || t.stage.Prepared? || t.stage.Renamed? then t.(stage := Lost) else t
  }

  ghost function After(s: Store, step: Step): Store
    requires StepOk(s, step)
  {
    match step
    case Tick(d) => s.(clock := s.clock + d)
    case Begin(user, f) => s.(txns := s.txns + [Txn(user, f, Waiting)])
    case Lock(t) =>
      (match Updated(s.live, s.txns[t].user, s.txns[t].f, s.clock)
       case Some(image) => s.(holder := Some(t), txns := At(s, t, Prepared(s.clock, image)))
       case None => s.(txns := At(s, t, Refused)))
    case Rename(t) =>
      var x := s.txns[t];
      s.(disk := x.stage.image, txns := At(s, t, Renamed(x.stage.image)),
         events := s.events + [Committed(t, x.user, x.f, x.stage.now)])
    case WriteFails(t) => s.(holder := None, txns := At(s, t, Stage.Failed))
    case Insert(t) =>
      var x := s.txns[t];
      s.(live := s.live[x.user := x.stage.image[x.user]], holder := None, txns := At(s, t, Done))
    case Crash =>
      s.(live := RecoverAll(s.disk, s.clock), holder := None,
         txns := seq(|s.txns|, i requires 0 <= i < |s.txns| => Forget(s.txns[i])),
         events := s.events + [Restarted(s.clock)],
         recovered := Some(s.clock))
    case Persist => s.(disk := s.live, recovered := None)
  }

  function Of(t: nat): Event -> bool { (e: Event) => e.Committed? && e.txn == t }

  ghost function Serial(s: Store): Users { Replay(s.start, s.events) }

  /** How often an update is in the serial order, by how it ended. */
  ghost predicate Accounted(s: Store, t: nat)
    requires t < |s.txns|
  {
    var n := Count(s.events, Of(t));
    match s.txns[t].stage
    case Renamed(_) => n == 1
    case Done => n == 1
    case Lost => n <= 1
    case _ => n == 0
  }

  ghost predicate StageOk(s: Store, t: nat)
    requires t < |s.txns|
  {
    var x := s.txns[t];
    && (x.stage.Prepared? || x.stage.Renamed? ==> s.holder == Some(t))
    && (x.stage.Prepared? ==>
          s.live == Serial(s) && x.stage.now <= s.clock
          && Updated(s.live, x.user, x.f, x.stage.now) == Some(x.stage.image))
    && (x.stage.Renamed? ==>
          x.user in x.stage.image && Serial(s) == x.stage.image
          && s.live[x.user := x.stage.image[x.user]] == x.stage.image)
  }

  ghost predicate EventOk(s: Store, e: Event) {
    && e.now <= s.clock
    && (e.Committed? ==> e.txn < |s.txns| && e.user == s.txns[e.txn].user && e.f == s.txns[e.txn].f)
  }

  /** The file is the serial state, or its recovery is, until that has been written back. */
  ghost predicate DiskOk(s: Store) {
    match s.recovered
    case None => s.disk == Serial(s)
    case Some(at) => at <= s.clock && Serial(s) == RecoverAll(s.disk, at)
  }

  ghost predicate Inv(s: Store) {
    && (s.holder == None ==> s.live == Serial(s))
    && (s.holder.Some? ==> Serving(s) && Holding(s, s.holder.value)
                           && (s.txns[s.holder.value].stage.Prepared? || s.txns[s.holder.value].stage.Renamed?))
    && DiskOk(s)
    && (forall t :: 0 <= t < |s.txns| ==> StageOk(s, t) && Accounted(s, t))
    && (forall e :: e in s.events ==> EventOk(s, e))
  }

  ghost predicate Init(s: Store) {
    && s.txns == [] && s.events == [] && s.holder == None
    && s.start == s.live && s.recovered == Some(s.clock) && s.live == RecoverAll(s.disk, s.clock)
  }

  lemma InitOk(s: Store)
    requires Init(s)
    ensures Inv(s)
  {
  }

  // ---- Every step keeps the invariant --------------------------------------------------------------------

  /** Changing the stage of one update leaves the record of the others. */
  lemma OthersAccounted(s: Store, v: Store, t: nat)
    requires Inv(s) && t < |s.txns| && t < |v.txns| && v.txns == At(s, t, v.txns[t].stage)
    requires v.events == s.events && v.start == s.start && v.clock == s.clock
    ensures forall u :: 0 <= u < |v.txns| && u != t ==> Accounted(v, u)
    ensures forall e :: e in v.events ==> EventOk(v, e)
  {
    forall u | 0 <= u < |v.txns| && u != t
      ensures Accounted(v, u)
    {
      assert Accounted(s, u);
    }
    forall e | e in v.events
      ensures EventOk(v, e)
    {
      assert EventOk(s, e);
    }
  }

  lemma NobodyElse(s: Store, v: Store, t: nat)
    requires Inv(s) && t < |s.txns| && (s.holder == None || s.holder == Some(t))
    requires t < |v.txns| && v.txns == At(s, t, v.txns[t].stage)
    ensures forall u :: 0 <= u < |v.txns| && u != t ==> StageOk(v, u)
  {
    forall u | 0 <= u < |v.txns| && u != t
      ensures StageOk(v, u)
    {
      assert StageOk(s, u);
    }
  }

  lemma LockStep(s: Store, t: nat)
    requires Inv(s) && StepOk(s, Lock(t))
    ensures Inv(After(s, Lock(t)))
  {
    var v := After(s, Lock(t));
    OthersAccounted(s, v, t);
    NobodyElse(s, v, t);
    assert Accounted(s, t);
  }

  lemma CountCommit(events: seq<Event>, e: Event, t: nat)
    ensures Count(events + [e], Of(t)) == Count(events, Of(t)) + (if Of(t)(e) then 1 else 0)
  {
    CountAppend(events, e, Of(t));
  }

  lemma RenameStep(s: Store, t: nat)
    requires Inv(s) && StepOk(s, Rename(t))
    ensures Inv(After(s, Rename(t)))
  {
    var v := After(s, Rename(t));
    var x := s.txns[t];
    var e := Committed(t, x.user, x.f, x.stage.now);
    assert StageOk(s, t) && Accounted(s, t);
    ReplayAppend(s.start, s.events, e);
    NobodyElse(s, v, t);
    forall u | 0 <= u < |v.txns|
      ensures Accounted(v, u)
    {
      assert Accounted(s, u);
      CountCommit(s.events, e, u);
    }
    forall f | f in v.events
      ensures EventOk(v, f)
    {
      assert f in s.events ==> EventOk(s, f);
    }
  }

  lemma WriteFailsStep(s: Store, t: nat)
    requires Inv(s) && StepOk(s, WriteFails(t))
    ensures Inv(After(s, WriteFails(t)))
  {
    var v := After(s, WriteFails(t));
    assert StageOk(s, t) && Accounted(s, t);
    OthersAccounted(s, v, t);
    NobodyElse(s, v, t);
  }

  lemma InsertStep(s: Store, t: nat)
    requires Inv(s) && StepOk(s, Insert(t))
    ensures Inv(After(s, Insert(t)))
  {
    var v := After(s, Insert(t));
    assert StageOk(s, t) && Accounted(s, t);
    OthersAccounted(s, v, t);
    NobodyElse(s, v, t);
  }

  lemma BeginStep(s: Store, user: string, f: Mutation)
    requires Inv(s) && StepOk(s, Begin(user, f))
    ensures Inv(After(s, Begin(user, f)))
  {
    var v := After(s, Begin(user, f));
    var n := |s.txns|;
    forall t | 0 <= t < |v.txns|
      ensures StageOk(v, t) && Accounted(v, t)
    {
      if t < n {
        assert StageOk(s, t) && Accounted(s, t);
      } else {
        NotYet(s.events, n, s);
      }
    }
    forall e | e in v.events
      ensures EventOk(v, e)
    {
      assert EventOk(s, e);
    }
  }

  lemma {:induction false} NotYet(events: seq<Event>, t: nat, s: Store)
    requires |s.txns| <= t && forall e :: e in events ==> EventOk(s, e)
    ensures Count(events, Of(t)) == 0
  {
    if events != [] {
      assert EventOk(s, events[|events| - 1]);
      NotYet(events[..|events| - 1], t, s);
    }
  }

  lemma CrashStep(s: Store)
    requires Inv(s)
    ensures Inv(After(s, Crash))
  {
    var v := After(s, Crash);
    var e := Restarted(s.clock);
    ReplayAppend(s.start, s.events, e);
    if s.recovered.Some? {
      RecoverAllTwice(s.disk, s.recovered.value, s.clock);
    }
    forall t | 0 <= t < |v.txns|
      ensures StageOk(v, t) && Accounted(v, t)
    {
      assert StageOk(s, t) && Accounted(s, t);
      CountCommit(s.events, e, t);
    }
    forall f | f in v.events
      ensures EventOk(v, f)
    {
      assert f in s.events ==> EventOk(s, f);
    }
  }

  lemma TickStep(s: Store, d: nat)
    requires Inv(s)
    ensures Inv(After(s, Tick(d)))
  {
    var v := After(s, Tick(d));
    forall t | 0 <= t < |v.txns|
      ensures StageOk(v, t) && Accounted(v, t)
    {
      assert StageOk(s, t) && Accounted(s, t);
    }
    forall f | f in v.events
      ensures EventOk(v, f)
    {
      assert EventOk(s, f);
    }
  }

  lemma PersistStep(s: Store)
    requires Inv(s) && StepOk(s, Persist)
    ensures Inv(After(s, Persist))
  {
    var v := After(s, Persist);
    forall t | 0 <= t < |v.txns|
      ensures StageOk(v, t) && Accounted(v, t)
    {
      assert StageOk(s, t) && Accounted(s, t);
    }
    forall e | e in v.events
      ensures EventOk(v, e)
    {
      assert EventOk(s, e);
    }
  }

  lemma StepKeeps(s: Store, step: Step)
    requires Inv(s) && StepOk(s, step)
    ensures Inv(After(s, step))
  {
    match step
    case Tick(d) => TickStep(s, d);
    case Begin(user, f) => BeginStep(s, user, f);
    case Lock(t) => LockStep(s, t);
    case Rename(t) => RenameStep(s, t);
    case WriteFails(t) => WriteFailsStep(s, t);
    case Insert(t) => InsertStep(s, t);
    case Crash => CrashStep(s);
    case Persist => PersistStep(s);
  }

  ghost predicate Runs(s: Store, steps: seq<Step>)
    decreases |steps|
  {
    steps == [] || (StepOk(s, steps[0]) && Runs(After(s, steps[0]), steps[1..]))
  }

  ghost function Reached(s: Store, steps: seq<Step>): Store
    requires Runs(s, steps)
    decreases |steps|
  {
    if steps == [] then s else Reached(After(s, steps[0]), steps[1..])
  }

  ghost predicate Reachable(v: Store) {
    exists s, steps :: Init(s) && Runs(s, steps) && Reached(s, steps) == v
  }

  lemma {:induction false} RunsKeep(s: Store, steps: seq<Step>)
    requires Inv(s) && Runs(s, steps)
    ensures Inv(Reached(s, steps))
    decreases |steps|
  {
    if steps != [] {
      StepKeeps(s, steps[0]);
      RunsKeep(After(s, steps[0]), steps[1..]);
    }
  }

  lemma ReachableInv(v: Store)
    requires Reachable(v)
    ensures Inv(v)
  {
    var s, steps :| Init(s) && Runs(s, steps) && Reached(s, steps) == v;
    InitOk(s);
    RunsKeep(s, steps);
  }

  // ---- What the protocol guarantees -------------------------------------------------------------------------

  /** Concurrent updates act as a serial order: an acknowledged one is in it exactly once, a
      refused or failed one not at all, and with no update in flight the live map is its result. */
  lemma UpdatesAreSerial(v: Store, t: nat)
    requires Reachable(v) && t < |v.txns|
    ensures v.holder == None ==> v.live == Serial(v)
    ensures v.txns[t].stage.Done? ==> Count(v.events, Of(t)) == 1
    ensures v.txns[t].stage.Refused? || v.txns[t].stage.Failed? ==> Count(v.events, Of(t)) == 0
    ensures Count(v.events, Of(t)) <= 1
  {
    ReachableInv(v);
    assert Accounted(v, t);
  }

  /** A failed write changes neither the live map nor the file. */
  lemma FailedWriteChangesNothing(v: Store, t: nat)
    requires Reachable(v) && StepOk(v, WriteFails(t))
    ensures After(v, WriteFails(t)).live == v.live == Serial(v) && After(v, WriteFails(t)).disk == v.disk
  {
    ReachableInv(v);
    assert StageOk(v, t);
  }

  /** A renamed update can always be inserted, and inserting it makes the live map the file. */
  lemma RenamedUpdatesLand(v: Store, t: nat)
    requires Reachable(v) && Holding(v, t) && v.txns[t].stage.Renamed?
    ensures StepOk(v, Insert(t))
    ensures After(v, Insert(t)).live == v.disk
  {
    ReachableInv(v);
    assert StageOk(v, t);
  }

  /** A crash at any point reloads the state of the serial order, recovered. */
  lemma CrashesReloadASerialState(v: Store)
    requires Reachable(v)
    ensures RecoverAll(v.disk, v.clock) == Replay(v.start, v.events + [Restarted(v.clock)])
  {
    ReachableInv(v);
    ReplayAppend(v.start, v.events, Restarted(v.clock));
    if v.recovered.Some? {
      RecoverAllTwice(v.disk, v.recovered.value, v.clock);
    }
  }

  /** Whenever the server serves, the live map is the file, except between the rename of an update
      and its insertion, when the file is the live map with just that account updated. */
  lemma LiveIsTheFile(v: Store)
    requires Reachable(v) && Serving(v)
    ensures v.holder == None ==> v.live == v.disk == Serial(v)
    ensures v.holder.Some? ==>
              && v.holder.value < |v.txns|
              && var x := v.txns[v.holder.value];
                 if x.stage.Renamed? then x.user in v.disk && v.disk == v.live[x.user := v.disk[x.user]]
                 else v.live == v.disk == Serial(v)
  {
    ReachableInv(v);
    if v.holder.Some? {
      assert StageOk(v, v.holder.value);
    }
  }

  /** Until a new process has written the recovered state back it answers nothing, and however often it
      starts over it loads the same state. */
  lemma RecoveryIsWrittenFirst(v: Store, t: nat)
    requires Reachable(v) && !Serving(v)
    ensures v.holder == None && v.live == RecoverAll(v.disk, v.recovered.value)
    ensures !StepOk(v, Lock(t)) && !StepOk(v, Rename(t)) && !StepOk(v, Insert(t))
    ensures RecoverAll(v.disk, v.clock) == RecoverAll(v.live, v.clock)
    ensures After(v, Persist).disk == After(v, Persist).live == v.live
  {
    ReachableInv(v);
    RecoverAllTwice(v.disk, v.recovered.value, v.clock);
  }
}
