/** Every interleaving of pairing routes, account edits, expiry and restarts, and what holds of
    each pairing over all of them. */
module PairingRuns {
  import opened Wrappers
  import opened Seqs
  import opened WakeModel
  import opened WakeRoutes
  import opened Pairing

  /** A target made for a pairing, and the token digest it was made with. */
  datatype Made = Made(pairing: string, target: string, hash: string)

  /** A refused phone proof, and the start of the window it was counted in. */
  datatype Miss = Miss(since: nat, at: nat)

  /** The server, with what has happened to each pairing and account since the beginning. */
  datatype World = World(
    rt: Runtime, accounts: map<string, Account>, clock: nat,
    issued: set<string>, confirmed: set<string>, cancelled: set<string>, made: seq<Made>,
    misses: map<string, seq<Miss>>)

  datatype Edit =
    | Add(id: string, hash: string, name: string, device: string, mac: Mac, agentId: string)
    | Change(id: string, name: string, mac: Mac, agentId: string)
    | Complete(id: string, agentId: string)
    | Delete(id: string)
    | Rotate(id: string, hash: string)

  function Edited(d: Account, e: Edit, now: nat): WakeRoutes.Change<()> {
    match e
    case Add(id, hash, name, device, mac, agentId) => CreateTarget(d, id, hash, name, device, mac, agentId, now)
    case Change(id, name, mac, agentId) => UpdateTarget(d, id, name, mac, agentId)
    case Complete(id, agentId) => CompleteTarget(d, id, agentId)
    case Delete(id) => DeleteTarget(d, id)
    case Rotate(id, hash) => RotateTarget(d, id, hash)
  }

  datatype Step =
    | Open(owner: string, id: string, p: Session, live: bool)
    | Look(owner: string, named: Option<string>, proof: PhoneProof, live: bool)
    | Approve(owner: string, id: string, proof: PhoneProof, live: bool)
    | Enroll(owner: string, id: string, desktop: string, token: string, target: string, live: bool, saved: bool)
    | Abandon(owner: string, id: string, desktop: string, live: bool)
    | AbandonAll(owner: string, creator: string)
    | Tidy
    | EditAccount(owner: string, edit: Edit, saved: bool)
    | OtherwiseChange(owner: string, d: Account)
    | Register(owner: string)
    | Unregister(owner: string)
    | Restart

  function AccountOf(w: World, owner: string): Option<Account> {
    if owner in w.accounts then Some(w.accounts[owner]) else None
  }

  /** New identifiers are unused; any other change to an account keeps its targets and its soundness. */
  ghost predicate Enabled(w: World, s: Step, now: nat) {
    w.clock <= now
    && match s
       case Open(owner, id, p, _) =>
         id !in w.issued && p.owner == owner && p.expires == now + TTL && !p.confirmed && !p.cancelled
             && p.claimed.None?
       case Enroll(owner, _, _, _, target, _, _) =>
         target !in w.issued
         && (owner in w.accounts ==> forall t :: t in w.accounts[owner].targets ==> t.id != target)
       case EditAccount(owner, edit, _) =>
         owner in w.accounts
         && (edit.Add? ==> forall t :: t in w.accounts[owner].targets ==> t.id != edit.id)
       case OtherwiseChange(owner, d) =>
         owner in w.accounts && d.targets == w.accounts[owner].targets && Sound(d, now)
       case Register(owner) => owner !in w.accounts
       case _ => true
  }

  function MissesOf(w: World, owner: string): seq<Miss> {
    if owner in w.misses then w.misses[owner] else []
  }

  /** A counted refusal adds a miss in the window it was counted in. */
  function WithRuntime(w: World, owner: string, rt: Runtime, now: nat): World {
    var before := LiveLimits(w.rt.limits, now);
    var failures := if owner in before then before[owner].failures else 0;
    if owner in rt.limits && rt.limits[owner].failures > failures then
      w.(rt := rt, misses := w.misses[owner := MissesOf(w, owner) + [Miss(rt.limits[owner].since, now)]])
    else w.(rt := rt)
  }

  function After(w: World, s: Step, now: nat): World
    requires Enabled(w, s, now)
  {
    match s
    case Open(owner, id, p, live) =>
      w.(rt := Create(w.rt, owner, id, p, live, now).0, issued := w.issued + {id})
    case Look(owner, named, proof, live) =>
      WithRuntime(w, owner, PhoneSession(w.rt, owner, named, proof, live, now).0, now)
    case Approve(owner, id, proof, live) =>
      var r := Confirm(w.rt, owner, id, proof, live, now);
      var v := if proof.id.Some? then w else WithRuntime(w, owner, r.0, now);
      if r.1.None? then v.(confirmed := v.confirmed + {id}) else v
    case Enroll(owner, id, desktop, token, target, live, saved) =>
      var c := Claim(w.rt, AccountOf(w, owner), owner, id, desktop, token, target, live, saved, now);
      if c.reply == Ok(target) && c.account.Some? then
        w.(rt := c.rt, accounts := w.accounts[owner := c.account.value], issued := w.issued + {target},
           made := w.made + [Made(id, target, token)])
      else w
    case Abandon(owner, id, desktop, live) =>
      var r := Cancel(w.rt, owner, id, desktop, live, now);
      w.(rt := r.0, cancelled := if r.1.None? then w.cancelled + {id} else w.cancelled)
    case AbandonAll(owner, creator) =>
      w.(rt := CancelAll(w.rt, owner, creator),
         cancelled := w.cancelled
                      + (set id | id in w.rt.sessions && CancelledTogether(w.rt.sessions[id], owner, creator)))
    case Tidy => w.(rt := Prune(w.rt, now))
    case EditAccount(owner, edit, saved) =>
      var c := Edited(w.accounts[owner], edit, now);
      if c.Done? && saved then w.(accounts := w.accounts[owner := c.d.Prune(now)]) else w
    case OtherwiseChange(owner, d) => w.(accounts := w.accounts[owner := d])
    case Register(owner) => w.(accounts := w.accounts[owner := WakeModel.Account([], [], [])])
    case Unregister(owner) => w.(accounts := w.accounts - {owner})
    case Restart =>
      w.(rt := Runtime(map[], map[]), misses := map[],
         accounts := map o | o in w.accounts :: w.accounts[o].RecoverAfterRestart(now))
  }

  function Next(w: World, s: Step, now: nat): World
    requires Enabled(w, s, now)
  {
    After(w, s, now).(clock := now)
  }

  // ---- The life of a pairing ------------------------------------------------------------------

  ghost predicate WasMade(made: seq<Made>, id: string) {
    exists m :: m in made && m.pairing == id
  }

  /** What a live session says agrees with what has happened to it. */
  ghost predicate SessionOk(w: World, id: string)
    requires id in w.rt.sessions
  {
    var p := w.rt.sessions[id];
    && id in w.issued
    && (p.confirmed <==> id in w.confirmed)
    && (p.cancelled <==> id in w.cancelled)
    && (p.claimed.Some? <==> WasMade(w.made, id))
    && (p.claimed.Some? ==> Made(id, p.claimed.value.target, p.claimed.value.hash) in w.made)
  }

  function PairingOf(): Made -> string { (m: Made) => m.pairing }

  ghost predicate HistoryOk(w: World) {
    && Distinct(w.made, PairingOf())
    && w.confirmed <= w.issued && w.cancelled <= w.issued
    && forall m :: m in w.made ==> m.pairing in w.confirmed && m.pairing !in w.cancelled && m.target in w.issued
  }

  ghost predicate PairingsOk(w: World) {
    HistoryOk(w) && forall id :: id in w.rt.sessions ==> SessionOk(w, id)
  }

  ghost predicate AccountsOk(w: World, now: nat) {
    forall o :: o in w.accounts ==> Sound(w.accounts[o], now)
  }

  /** Some sessions gone, the others and the history as they were. */
  lemma FewerSessionsKeep(w: World, v: World)
    requires PairingsOk(w)
    requires v.confirmed == w.confirmed && v.cancelled == w.cancelled && v.made == w.made && w.issued <= v.issued
    requires forall id :: id in v.rt.sessions ==> id in w.rt.sessions && v.rt.sessions[id] == w.rt.sessions[id]
    ensures PairingsOk(v)
  {
    forall id | id in v.rt.sessions ensures SessionOk(v, id) {
      assert SessionOk(w, id);
    }
  }

  /** One session changed in the way its history says. */
  lemma OneSessionKeeps(w: World, v: World, id: string)
    requires PairingsOk(w) && HistoryOk(v) && w.issued <= v.issued
    requires id in v.rt.sessions ==> SessionOk(v, id)
    requires forall k :: k in v.rt.sessions && k != id ==> k in w.rt.sessions && v.rt.sessions[k] == w.rt.sessions[k]
    requires forall k :: k != id ==>
             (k in v.confirmed <==> k in w.confirmed) && (k in v.cancelled <==> k in w.cancelled)
    requires forall m :: m in w.made ==> m in v.made
    requires forall m :: m in v.made ==> m in w.made || m.pairing == id
    ensures PairingsOk(v)
  {
    forall k | k in v.rt.sessions ensures SessionOk(v, k) {
      if k != id {
        assert SessionOk(w, k);
      }
    }
  }

  lemma TouchKeepsSessions(rt: Runtime, owner: string, now: nat)
    ensures TouchLimit(rt, owner, now).0.sessions == rt.sessions
    ensures TouchLimit(rt, owner, now).1 ==> owner in TouchLimit(rt, owner, now).0.limits
  {
  }

  lemma OpenKeeps(w: World, s: Step, now: nat)
    requires PairingsOk(w) && Enabled(w, s, now) && s.Open?
    ensures PairingsOk(After(w, s, now))
  {
    var v := After(w, s, now);
    TouchKeepsSessions(Prune(w.rt, now), s.owner, now);
    OneSessionKeeps(w, v, s.id);
  }

  lemma LookKeeps(w: World, s: Step, now: nat)
    requires PairingsOk(w) && Enabled(w, s, now) && s.Look?
    ensures PairingsOk(After(w, s, now))
  {
    TouchKeepsSessions(w.rt, s.owner, now);
    FewerSessionsKeep(w, After(w, s, now));
  }

  lemma ConfirmShape(rt: Runtime, owner: string, id: string, proof: PhoneProof, live: bool, now: nat)
    ensures var r := Confirm(rt, owner, id, proof, live, now);
            if r.1.None? then
              id in rt.sessions && r.0.sessions == rt.sessions[id := rt.sessions[id].(confirmed := true)]
            else r.0.sessions == rt.sessions
  {
    TouchKeepsSessions(rt, owner, now);
  }

  lemma ApproveShape(w: World, s: Step, now: nat)
    requires Enabled(w, s, now) && s.Approve?
    ensures var v := After(w, s, now); var ok := Confirm(w.rt, s.owner, s.id, s.proof, s.live, now).1.None?;
            v.issued == w.issued && v.cancelled == w.cancelled && v.made == w.made
            && v.confirmed == (if ok then w.confirmed + {s.id} else w.confirmed)
            && v.rt.sessions == (if ok && s.id in w.rt.sessions then
                                   w.rt.sessions[s.id := w.rt.sessions[s.id].(confirmed := true)]
                                 else w.rt.sessions)
            && (ok ==> s.id in w.rt.sessions)
  {
    ConfirmShape(w.rt, s.owner, s.id, s.proof, s.live, now);
  }

  lemma ApproveKeeps(w: World, s: Step, now: nat)
    requires PairingsOk(w) && Enabled(w, s, now) && s.Approve?
    ensures PairingsOk(After(w, s, now))
  {
    ApproveShape(w, s, now);
    var v := After(w, s, now);
    if s.id in w.rt.sessions {
      assert SessionOk(w, s.id);
      OneSessionKeeps(w, v, s.id);
    } else {
      FewerSessionsKeep(w, v);
    }
  }

  lemma EnrollKeeps(w: World, s: Step, now: nat)
    requires PairingsOk(w) && Enabled(w, s, now) && s.Enroll?
    ensures PairingsOk(After(w, s, now))
  {
    var v := After(w, s, now);
    var c := Claim(w.rt, AccountOf(w, s.owner), s.owner, s.id, s.desktop, s.token, s.target, s.live, s.saved, now);
    if v != w && c.reply == Ok(s.target) {
      assert SessionOk(w, s.id);
      OneSessionKeeps(w, v, s.id);
    }
  }

  lemma AbandonKeeps(w: World, s: Step, now: nat)
    requires PairingsOk(w) && Enabled(w, s, now) && s.Abandon?
    ensures PairingsOk(After(w, s, now))
  {
    var v := After(w, s, now);
    if Cancel(w.rt, s.owner, s.id, s.desktop, s.live, now).1.None? {
      assert SessionOk(w, s.id);
      OneSessionKeeps(w, v, s.id);
    } else {
      FewerSessionsKeep(w, v);
    }
  }

  lemma AbandonAllKeeps(w: World, s: Step, now: nat)
    requires PairingsOk(w) && Enabled(w, s, now) && s.AbandonAll?
    ensures PairingsOk(After(w, s, now))
  {
    var v := After(w, s, now);
    forall id | id in v.rt.sessions ensures SessionOk(v, id) {
      assert SessionOk(w, id);
    }
    forall m | m in v.made ensures m.pairing !in v.cancelled {
      if m.pairing in w.rt.sessions {
        assert SessionOk(w, m.pairing);
        assert WasMade(w.made, m.pairing);
      }
    }
    forall id | id in v.cancelled ensures id in v.issued {
      if id in w.rt.sessions {
        assert SessionOk(w, id);
      }
    }
  }

  lemma QuietKeeps(w: World, s: Step, now: nat)
    requires PairingsOk(w) && Enabled(w, s, now)
    requires s.Tidy? || s.EditAccount? || s.OtherwiseChange? || s.Register? || s.Unregister? || s.Restart?
    ensures PairingsOk(After(w, s, now))
  {
    FewerSessionsKeep(w, After(w, s, now));
  }

  lemma AfterKeepsPairings(w: World, s: Step, now: nat)
    requires PairingsOk(w) && Enabled(w, s, now)
    ensures PairingsOk(After(w, s, now))
  {
    match s
    case Open(_, _, _, _) => OpenKeeps(w, s, now);
    case Look(_, _, _, _) => LookKeeps(w, s, now);
    case Approve(_, _, _, _) => ApproveKeeps(w, s, now);
    case Enroll(_, _, _, _, _, _, _) => EnrollKeeps(w, s, now);
    case Abandon(_, _, _, _) => AbandonKeeps(w, s, now);
    case AbandonAll(_, _) => AbandonAllKeeps(w, s, now);
    case _ => QuietKeeps(w, s, now);
  }

  lemma PairingsStep(w: World, s: Step, now: nat)
    requires PairingsOk(w) && Enabled(w, s, now)
    ensures PairingsOk(Next(w, s, now))
  {
    AfterKeepsPairings(w, s, now);
    FewerSessionsKeep(After(w, s, now), Next(w, s, now));
  }

  // ---- Accounts ------------------------------------------------------------------------------------

  lemma EditKeeps(d: Account, e: Edit, now: nat)
    requires Sound(d, now) && (e.Add? ==> forall t :: t in d.targets ==> t.id != e.id)
    ensures Edited(d, e, now).Done? ==> Sound(Edited(d, e, now).d.Prune(now), now)
  {
    match e {
      case Add(id, hash, name, device, mac, agentId) => CreateTargetKeeps(d, id, hash, name, device, mac, agentId, now);
      case Change(id, name, mac, agentId) => UpdateTargetKeeps(d, id, name, mac, agentId, now);
      case Complete(id, agentId) => CompleteTargetKeeps(d, id, agentId, now);
      case Delete(id) => DeleteTargetKeeps(d, id, now);
      case Rotate(id, hash) => RotateTargetKeeps(d, id, hash, now);
    }
    if Edited(d, e, now).Done? {
      WakeRoutes.PruneKeeps(Edited(d, e, now).d, now);
    }
  }

  lemma ClaimAccount(rt: Runtime, d: Account, owner: string, id: string, desktop: string, token: string,
                     target: string, live: bool, saved: bool, now: nat)
    requires Sound(d, now) && forall t :: t in d.targets ==> t.id != target
    ensures var c := Claim(rt, Some(d), owner, id, desktop, token, target, live, saved, now);
            c.account.Some? && Sound(c.account.value, now)
  {
    if id in rt.sessions {
      var p := rt.sessions[id];
      var made := ClaimTarget(d, target, token, p.name, p.device, p.mac, now);
      ClaimTargetKeeps(d, target, token, p.name, p.device, p.mac, now);
      if made.Done? {
        WakeRoutes.PruneKeeps(made.d, now);
      }
    }
  }

  lemma ClaimKeepsAccount(w: World, s: Step, now: nat)
    requires AccountsOk(w, now) && Enabled(w, s, now) && s.Enroll?
    ensures AccountsOk(After(w, s, now), now)
  {
    if s.owner in w.accounts {
      ClaimAccount(w.rt, w.accounts[s.owner], s.owner, s.id, s.desktop, s.token, s.target, s.live, s.saved, now);
    }
  }

  lemma LaterSound(w: World, now: nat)
    requires AccountsOk(w, w.clock) && w.clock <= now
    ensures AccountsOk(w, now)
  {
    forall o | o in w.accounts ensures Sound(w.accounts[o], now) {
      TimePassesKeeps(w.accounts[o], w.clock, now);
    }
  }

  lemma RestartKeepsAccounts(w: World, s: Step, now: nat)
    requires AccountsOk(w, now) && Enabled(w, s, now) && s.Restart?
    ensures AccountsOk(After(w, s, now), now)
  {
    forall o | o in w.accounts ensures Sound(w.accounts[o].RecoverAfterRestart(now), now) {
      RestartKeeps(w.accounts[o], now);
    }
  }

  lemma AccountsStep(w: World, s: Step, now: nat)
    requires AccountsOk(w, w.clock) && Enabled(w, s, now)
    ensures AccountsOk(Next(w, s, now), now)
  {
    LaterSound(w, now);
    match s
    case Enroll(_, _, _, _, _, _, _) => ClaimKeepsAccount(w, s, now);
    case EditAccount(owner, edit, saved) => EditKeeps(w.accounts[owner], edit, now);
    case Restart => RestartKeepsAccounts(w, s, now);
    case _ =>
  }
}
