/** The server's steps on one account, each a durable commit, together with a ledger of
    everything that ever happened: requests, configurations, permits, heartbeats, packets. */
module WakeLedger {
  import opened Wrappers
  import opened Seqs
  import opened WakeModel
  import opened WakeRoutes

  /** One HTTP call by one helper process. */
  datatype Call = Call(node: nat, number: nat)

  datatype Config = Config(mac: Mac, agentId: string)

  datatype Permit = Permit(call: Call, mac: Mac)

  /** checkedAt and writtenAt are true times; mono says the sender's monotonic clock was honest. */
  datatype Packet = Packet(id: string, call: Call, bytes: seq<bv8>, checkedAt: int, writtenAt: int, mono: bool)

  datatype Ledger = Ledger(
    requests: map<string, WakeRequest>,
    config: map<(string, nat), Config>,
    permits: map<string, Permit>,
    beats: set<(string, nat)>,
    packets: seq<Packet>)

  datatype Server = Server(acct: Account, agentsSeen: Seen, targetsSeen: Seen)

  /** The account routes, and Tidy for advancing every request with the current heartbeats. */
  datatype AccountAct =
    | AddAgent(id: string, name: string, hash: string)
    | AddTarget(id: string, hash: string, name: string, device: string, mac: Mac, agentId: string)
    | Claim(id: string, hash: string, name: string, device: string, mac: Mac)
    | Edit(id: string, name: string, mac: Mac, agentId: string)
    | Complete(id: string, agentId: string)
    | Delete(id: string)
    | Rotate(id: string, hash: string)
    | RevokeAgent(id: string)
    | StopAgent(id: string, expected: Option<string>)
    | Reenable(id: string, name: string, hash: string)
    | Ask(targetId: string, id: string)
    | Tidy

  function Unit<T>(c: Change<T>): Change<()> {
    match c
    case Done(d, _) => Done(d, ())
    case Refused(code) => Refused(code)
  }

  function Mutate(s: Server, act: AccountAct, now: nat): Change<()> {
    match act
    case AddAgent(id, name, hash) => CreateAgent(s.acct, id, name, hash)
    case AddTarget(id, hash, name, device, mac, agentId) =>
      CreateTarget(s.acct, id, hash, name, device, mac, agentId, now)
    case Claim(id, hash, name, device, mac) => ClaimTarget(s.acct, id, hash, name, device, mac, now)
    case Edit(id, name, mac, agentId) => UpdateTarget(s.acct, id, name, mac, agentId)
    case Complete(id, agentId) => CompleteTarget(s.acct, id, agentId)
    case Delete(id) => DeleteTarget(s.acct, id)
    case Rotate(id, hash) => RotateTarget(s.acct, id, hash)
    case RevokeAgent(id) => Revoke(s.acct, id)
    case StopAgent(id, expected) => StopHelper(s.acct, id, expected)
    case Reenable(id, name, hash) => EnableAgent(s.acct, id, name, hash)
    case Ask(targetId, id) => Unit(CreateRequest(s.acct, targetId, id, now, s.agentsSeen, s.targetsSeen))
    case Tidy => Done(AdvanceAll(s.acct, now, s.targetsSeen), ())
  }

  /** The live state after a commit of d and the runtime effect of the route. */
  function Committed(s: Server, act: AccountAct, d: Account, now: nat): Server {
    Server(d.Prune(now),
           if act.RevokeAgent? || act.StopAgent? || act.Reenable? then s.agentsSeen - {act.id} else s.agentsSeen,
           if act.Delete? || act.Rotate? then s.targetsSeen - {act.id} else s.targetsSeen)
  }

  function Note(l: Ledger, t: WakeTarget): Ledger {
    l.(config := l.config[(t.id, t.revision) := Config(t.mac, t.agentId)])
  }

  function NoteTarget(l: Ledger, d: Account, id: string): Ledger {
    var i := Find(d.targets, TargetIs(id));
    if i < |d.targets| then Note(l, d.targets[i]) else l
  }

  function NoteRequest(l: Ledger, d: Account, id: string): Ledger {
    var k := Find(d.requests, RequestIs(id));
    if k < |d.requests| then l.(requests := l.requests[id := d.requests[k]]) else l
  }

  function LogAct(l: Ledger, act: AccountAct, d: Account): Ledger {
    if act.AddTarget? || act.Claim? || act.Edit? || act.Complete? then NoteTarget(l, d, act.id)
    else if act.Ask? then NoteRequest(l, d, act.id)
    else l
  }

  /** New tokens were never used before. */
  ghost predicate FreshIds(l: Ledger, s: Server, act: AccountAct) {
    && (act.AddAgent? ==> forall a :: a in s.acct.agents ==> a.id != act.id)
    && (act.AddTarget? || act.Claim? ==> forall k :: k in l.config ==> k.0 != act.id)
    && (act.Ask? ==> act.id !in l.requests)
  }

  // ---- What the ledger knows about the stored account ----------------------------------------

  function Of(id: string): Packet -> bool { (p: Packet) => p.id == id }

  function Sends(l: Ledger, id: string): nat { Count(l.packets, Of(id)) }

  ghost predicate RequestLogged(l: Ledger, r: WakeRequest) {
    && r.id in l.requests && SameRequest(l.requests[r.id], r)
    && (r.targetId, r.targetRevision) in l.config
    && (r.authorizedAt.None? ==> r.id !in l.permits)
    && (r.phase.Delivered() ==> Sends(l, r.id) == 3)
    && (r.phase.Online? ==> r.onlineAt.Some? && (r.targetId, r.onlineAt.value) in l.beats)
  }

  /** The target's present configuration is on record and no later revision ever was. */
  ghost predicate TargetLogged(l: Ledger, t: WakeTarget) {
    && (t.id, t.revision) in l.config && l.config[(t.id, t.revision)] == Config(t.mac, t.agentId)
    && forall k :: k in l.config && k.0 == t.id ==> k.1 <= t.revision
  }

  ghost predicate AccountLogged(l: Ledger, d: Account) {
    && (forall r :: r in d.requests ==> RequestLogged(l, r))
    && (forall t :: t in d.targets ==> TargetLogged(l, t))
  }

  ghost predicate SeenLogged(l: Ledger, seen: Seen) {
    forall id :: id in seen ==> (id, seen[id]) in l.beats
  }

  ghost predicate ServerOk(l: Ledger, s: Server, now: nat) {
    Sound(s.acct, now) && AccountLogged(l, s.acct) && SeenLogged(l, s.targetsSeen)
  }

  /** Ledgers only grow: nothing recorded is ever changed or forgotten. */
  ghost predicate Grows(l: Ledger, m: Ledger) {
    && (forall k :: k in l.requests ==> k in m.requests && m.requests[k] == l.requests[k])
    && (forall k :: k in l.config ==> k in m.config && m.config[k] == l.config[k])
    && (forall k :: k in l.permits ==> k in m.permits && m.permits[k] == l.permits[k])
    && l.beats <= m.beats
    && l.packets <= m.packets
  }

  lemma PruneLogged(l: Ledger, d: Account, now: nat)
    requires AccountLogged(l, d)
    ensures AccountLogged(l, d.Prune(now))
  {
    PruneSub(d.requests, now);
  }

  /** A step that neither authorizes nor reports keeps a request on record. */
  ghost predicate Mild(r: WakeRequest, q: WakeRequest, beats: set<(string, nat)>) {
    && SameRequest(r, q) && q.authorizedAt == r.authorizedAt
    && (q.phase.Delivered() ==> r.phase.Delivered())
    && (q.phase.Online? ==> (r.phase.Online? && q.onlineAt == r.onlineAt)
                            || (q.onlineAt.Some? && (q.targetId, q.onlineAt.value) in beats))
  }

  lemma MildLogged(l: Ledger, s: seq<WakeRequest>, t: seq<WakeRequest>)
    requires |s| == |t|
    requires forall i :: 0 <= i < |s| ==> RequestLogged(l, s[i]) && Mild(s[i], t[i], l.beats)
    ensures forall r :: r in t ==> RequestLogged(l, r)
  {
  }

  lemma CancelLogged(l: Ledger, d: Account, p: WakeRequest -> bool)
    requires forall r :: r in d.requests ==> RequestLogged(l, r)
    ensures forall r :: r in Apply(d.requests, Cancelling(p)) ==> RequestLogged(l, r)
  {
    MildLogged(l, d.requests, Apply(d.requests, Cancelling(p)));
  }

  lemma NoteKeepsRequests(l: Ledger, t: WakeTarget, s: seq<WakeRequest>)
    requires (t.id, t.revision) !in l.config
    requires forall r :: r in s ==> RequestLogged(l, r)
    ensures Grows(l, Note(l, t))
    ensures forall r :: r in s ==> RequestLogged(Note(l, t), r)
  {
  }

  lemma AddTargetLogged(l: Ledger, d: Account, t: WakeTarget)
    requires AccountLogged(l, d)
    requires forall k :: k in l.config ==> k.0 != t.id
    ensures AccountLogged(Note(l, t), d.(targets := d.targets + [t])) && Grows(l, Note(l, t))
  {
    NoteKeepsRequests(l, t, d.requests);
    forall u | u in d.targets + [t]
      ensures TargetLogged(Note(l, t), u)
    {
      if u in d.targets {
        assert TargetLogged(l, u);
      } else {
        assert u == t;
      }
    }
  }

  lemma FindAdded(s: seq<WakeTarget>, t: WakeTarget)
    requires forall u :: u in s ==> u.id != t.id
    ensures Find(s + [t], TargetIs(t.id)) == |s|
  {
    assert forall k :: 0 <= k < |s| ==> (s + [t])[k] in s;
    assert (s + [t])[|s|] == t;
  }

  lemma FindReplaced(s: seq<WakeTarget>, i: nat, t: WakeTarget)
    requires Distinct(s, TargetId()) && i < |s| && t.id == s[i].id
    ensures Find(s[i := t], TargetIs(t.id)) == i
  {
    assert forall k :: 0 <= k < i ==> TargetId()(s[k]) != TargetId()(s[i]);
    assert s[i := t][i] == t;
  }

  /** A new revision is a configuration never recorded before, so recording it overwrites nothing. */
  lemma RetargetLogged(l: Ledger, d: Account, i: nat, t: WakeTarget)
    requires AccountLogged(l, d) && Distinct(d.targets, TargetId()) && i < |d.targets|
    requires t.id == d.targets[i].id && t.revision == d.targets[i].revision + 1
    ensures AccountLogged(Note(l, t), d.(targets := d.targets[i := t]).CancelTarget(t.id)) && Grows(l, Note(l, t))
  {
    assert TargetLogged(l, d.targets[i]);
    NoteKeepsRequests(l, t, d.requests);
    CancelLogged(Note(l, t), d, OfTarget(t.id));
    var u := d.targets[i := t];
    forall j | 0 <= j < |u|
      ensures TargetLogged(Note(l, t), u[j])
    {
      if j != i {
        assert TargetLogged(l, d.targets[j]);
        assert TargetId()(d.targets[j]) != t.id by {
          if j < i { assert TargetId()(d.targets[j]) != TargetId()(d.targets[i]); }
          else { assert TargetId()(d.targets[i]) != TargetId()(d.targets[j]); }
        }
      }
    }
  }

  /** Acts that change no configuration and add no request leave the ledger as it is. */
  lemma PlainActLogged(l: Ledger, s: Server, act: AccountAct, now: nat)
    requires ServerOk(l, s, now) && Mutate(s, act, now).Done?
    requires act.AddAgent? || act.RevokeAgent? || act.StopAgent? || act.Reenable?
    ensures AccountLogged(l, Mutate(s, act, now).d)
  {
    if !act.AddAgent? {
      CancelLogged(l, s.acct, OfAgent(act.id));
    }
  }

  lemma RotateLogged(l: Ledger, s: Server, act: AccountAct, now: nat)
    requires ServerOk(l, s, now) && act.Rotate? && Mutate(s, act, now).Done?
    ensures AccountLogged(l, Mutate(s, act, now).d)
  {
    var i := Find(s.acct.targets, TargetIs(act.id));
    assert TargetLogged(l, s.acct.targets[i]);
  }

  lemma TidyLogged(l: Ledger, s: Server, now: nat)
    requires ServerOk(l, s, now)
    ensures AccountLogged(l, AdvanceAll(s.acct, now, s.targetsSeen))
  {
    var t := AdvanceAll(s.acct, now, s.targetsSeen).requests;
    forall i | 0 <= i < |t|
      ensures RequestLogged(l, s.acct.requests[i]) && Mild(s.acct.requests[i], t[i], l.beats)
    {
      assert s.acct.requests[i] in s.acct.requests;
      assert Timely(s.acct.requests[i], now);
    }
    MildLogged(l, s.acct.requests, t);
  }

  lemma AskLogged(l: Ledger, s: Server, targetId: string, id: string, now: nat)
    requires ServerOk(l, s, now) && id !in l.requests && (forall k :: k in l.permits ==> k in l.requests)
    requires CreateRequest(s.acct, targetId, id, now, s.agentsSeen, s.targetsSeen).Done?
    ensures var d := CreateRequest(s.acct, targetId, id, now, s.agentsSeen, s.targetsSeen).d;
            AccountLogged(NoteRequest(l, d, id), d) && Grows(l, NoteRequest(l, d, id))
            && NoteRequest(l, d, id).permits == l.permits && NoteRequest(l, d, id).packets == l.packets
            && NoteRequest(l, d, id).config == l.config
  {
    var d := CreateRequest(s.acct, targetId, id, now, s.agentsSeen, s.targetsSeen).d;
    if d != s.acct {
      var t := s.acct.targets[Find(s.acct.targets, TargetIs(targetId))];
      assert TargetLogged(l, t);
      NewLogged(l, s.acct, t, id, now, d);
    } else {
      OldLogged(l, s.acct, id);
    }
  }

  lemma NoneSoNamed(l: Ledger, d: Account, id: string)
    requires AccountLogged(l, d) && id !in l.requests
    ensures forall r :: r in d.requests ==> r.id != id
    ensures Find(d.requests, RequestIs(id)) == |d.requests|
  {
    forall r | r in d.requests ensures r.id != id {
      assert RequestLogged(l, r);
    }
    assert forall j :: 0 <= j < |d.requests| ==> d.requests[j] in d.requests;
  }

  lemma OldLogged(l: Ledger, d: Account, id: string)
    requires AccountLogged(l, d) && id !in l.requests
    ensures NoteRequest(l, d, id) == l && Grows(l, l)
  {
    NoneSoNamed(l, d, id);
  }

  lemma NewLogged(l: Ledger, a: Account, t: WakeTarget, id: string, now: nat, d: Account)
    requires AccountLogged(l, a) && TargetLogged(l, t) && id !in l.requests
             && (forall k :: k in l.permits ==> k in l.requests)
    requires d == a.(requests := a.requests + [NewRequest(id, t, now)])
    ensures var m := NoteRequest(l, d, id);
            AccountLogged(m, d) && Grows(l, m)
            && m.permits == l.permits && m.packets == l.packets && m.config == l.config
  {
    NoneSoNamed(l, a, id);
    var q := NewRequest(id, t, now);
    var m := NoteRequest(l, d, id);
    assert d.requests[|a.requests|] == q;
    assert forall j :: 0 <= j < |a.requests| ==> d.requests[j] == a.requests[j] && a.requests[j] in a.requests;
    assert Find(d.requests, RequestIs(id)) == |a.requests|;
    forall r | r in a.requests ensures RequestLogged(m, r) {
      assert RequestLogged(l, r);
    }
    assert RequestLogged(m, q);
  }

  lemma TargetActLogged(l: Ledger, s: Server, act: AccountAct, now: nat)
    requires ServerOk(l, s, now) && FreshIds(l, s, act) && Mutate(s, act, now).Done?
    requires act.AddTarget? || act.Claim? || act.Edit? || act.Complete?
    ensures var d := Mutate(s, act, now).d;
            AccountLogged(LogAct(l, act, d), d) && Grows(l, LogAct(l, act, d))
  {
    var d := Mutate(s, act, now).d;
    if act.AddTarget? || act.Claim? {
      var t := d.targets[|s.acct.targets|];
      forall u | u in s.acct.targets
        ensures u.id != t.id
      {
        assert TargetLogged(l, u);
      }
      FindAdded(s.acct.targets, t);
      AddTargetLogged(l, s.acct, t);
    } else {
      var i := Find(s.acct.targets, TargetIs(act.id));
      var t := d.targets[i];
      FindReplaced(s.acct.targets, i, t);
      RetargetLogged(l, s.acct, i, t);
    }
  }

  lemma DeleteLogged(l: Ledger, s: Server, act: AccountAct, now: nat)
    requires ServerOk(l, s, now) && act.Delete? && Mutate(s, act, now).Done?
    ensures AccountLogged(l, Mutate(s, act, now).d)
  {
  }

  /** Every account act keeps the stored account on record. */
  lemma ActLogged(l: Ledger, s: Server, act: AccountAct, now: nat)
    requires ServerOk(l, s, now) && FreshIds(l, s, act) && Mutate(s, act, now).Done?
    requires forall k :: k in l.permits ==> k in l.requests
    ensures var d := Mutate(s, act, now).d;
            AccountLogged(LogAct(l, act, d), d) && Grows(l, LogAct(l, act, d))
  {
    if act.AddTarget? || act.Claim? || act.Edit? || act.Complete? {
      TargetActLogged(l, s, act, now);
    } else if act.Ask? {
      AskLogged(l, s, act.targetId, act.id, now);
    } else if act.Tidy? {
      TidyLogged(l, s, now);
    } else if act.Delete? {
      DeleteLogged(l, s, act, now);
    } else if act.Rotate? {
      RotateLogged(l, s, act, now);
    } else {
      PlainActLogged(l, s, act, now);
    }
  }

  /** Every account act keeps the account sound. */
  lemma ActSound(l: Ledger, s: Server, act: AccountAct, now: nat)
    requires ServerOk(l, s, now) && FreshIds(l, s, act) && Mutate(s, act, now).Done?
    ensures Sound(Mutate(s, act, now).d, now)
  {
    assert act.AddTarget? || act.Claim? ==> forall t :: t in s.acct.targets ==> t.id != act.id by {
      assert forall t :: t in s.acct.targets ==> TargetLogged(l, t);
    }
    assert act.Ask? ==> forall r :: r in s.acct.requests ==> r.id != act.id by {
      assert forall r :: r in s.acct.requests ==> RequestLogged(l, r);
    }
    match act
    case AddAgent(id, name, hash) => CreateAgentKeeps(s.acct, id, name, hash, now);
    case AddTarget(id, hash, name, device, mac, agentId) =>
      CreateTargetKeeps(s.acct, id, hash, name, device, mac, agentId, now);
    case Claim(id, hash, name, device, mac) => ClaimTargetKeeps(s.acct, id, hash, name, device, mac, now);
    case Edit(id, name, mac, agentId) => UpdateTargetKeeps(s.acct, id, name, mac, agentId, now);
    case Complete(id, agentId) => CompleteTargetKeeps(s.acct, id, agentId, now);
    case Delete(id) => DeleteTargetKeeps(s.acct, id, now);
    case Rotate(id, hash) => RotateTargetKeeps(s.acct, id, hash, now);
    case RevokeAgent(id) => RevokeKeeps(s.acct, id, now);
    case StopAgent(id, expected) => StopHelperKeeps(s.acct, id, expected, now);
    case Reenable(id, name, hash) => EnableAgentKeeps(s.acct, id, name, hash, now);
    case Ask(targetId, id) => CreateRequestKeeps(s.acct, targetId, id, now, s.agentsSeen, s.targetsSeen);
    case Tidy => AdvanceKeeps(s.acct, now, s.targetsSeen);
  }
}
