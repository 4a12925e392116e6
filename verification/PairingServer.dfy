/** The pairing table as the routes change it, under its lock (crates/rdesk_server/src/wake/pairing.rs):
    each method is proved to be the function of module Pairing. */
module PairingServer {
  import opened Wrappers
  import opened Seqs
  import opened WakeModel
  import opened WakeRoutes
  import opened Pairing

  class PairingRuntime {
    var sessions: map<string, Session>
    var limits: map<string, Limit>

    ghost function Table(): Runtime
      reads this
    {
      Runtime(sessions, limits)
    }

    constructor ()
      ensures Table() == Runtime(map[], map[])
    {
      sessions, limits := map[], map[];
    }

    method RetainLimits(now: nat)
      modifies this`limits
      ensures limits == LiveLimits(old(limits), now)
    {
      var todo := limits.Keys;
      while todo != {}
        invariant todo <= old(limits).Keys
        invariant forall o :: o in limits <==>
                  o in old(limits) && (o in todo || SatSub(now, old(limits)[o].since) < TTL)
        invariant forall o :: o in limits ==> limits[o] == old(limits)[o]
        decreases |todo|
      {
        var o :| o in todo;
        todo := todo - {o};
        if SatSub(now, limits[o].since) >= TTL {
          limits := limits - {o};
        }
      }
    }

    method PruneTable(now: nat)
      modifies this`sessions, this`limits
      ensures Table() == Prune(old(Table()), now)
    {
      var todo := sessions.Keys;
      while todo != {}
        invariant todo <= old(sessions).Keys && limits == old(limits)
        invariant forall id :: id in sessions <==>
                  id in old(sessions) && (id in todo || now < old(sessions)[id].expires)
        invariant forall id :: id in sessions ==> sessions[id] == old(sessions)[id]
        decreases |todo|
      {
        var id :| id in todo;
        todo := todo - {id};
        if now >= sessions[id].expires {
          sessions := sessions - {id};
        }
      }
      assert sessions == Prune(old(Table()), now).sessions;
      RetainLimits(now);
    }

    method LimitOf(owner: string, now: nat) returns (ok: bool)
      modifies this`limits
      ensures (Table(), ok) == TouchLimit(old(Table()), owner, now)
    {
      RetainLimits(now);
      if owner !in limits {
        if |limits| >= 2000 {
          return false;
        }
        limits := limits[owner := Limit(now, 0, 0)];
      }
      return true;
    }

    method CountOpen(owner: string) returns (n: nat)
      ensures n == |OpenSessions(sessions, owner)|
    {
      var todo := sessions.Keys;
      ghost var seen: set<string> := {};
      n := 0;
      while todo != {}
        invariant todo <= sessions.Keys && n == |seen|
        invariant forall id :: id in seen <==> id in OpenSessions(sessions, owner) && id !in todo
        decreases |todo|
      {
        var id :| id in todo;
        todo := todo - {id};
        var p := sessions[id];
        if p.owner == owner && p.claimed.None? && !p.cancelled {
          seen := seen + {id};
          n := n + 1;
        }
      }
      assert seen == OpenSessions(sessions, owner);
    }

    method CreateSession(owner: string, id: string, p: Session, live: bool, now: nat) returns (refused: Option<string>)
      requires p.owner == owner && p.expires == now + TTL && !p.confirmed && !p.cancelled && p.claimed.None?
      modifies this
      ensures (Table(), refused) == Create(old(Table()), owner, id, p, live, now)
    {
      PruneTable(now);
      var ok := LimitOf(owner, now);
      if !ok {
        return Some("rate_limited");
      }
      var open := CountOpen(owner);
      if limits[owner].creates >= 6 || |sessions| >= 1000 || open >= 3 {
        return Some("rate_limited");
      }
      refused := Invalid(p, owner, live, now);
      if refused.None? {
        limits := limits[owner := limits[owner].(creates := limits[owner].creates + 1)];
        sessions := sessions[id := p];
      }
    }

    /** The session the phone names, or the first that fits a code given alone, in any order. */
    method Search(owner: string, id: Option<string>, b: PhoneProof) returns (found: Option<string>)
      ensures Meant(sessions, owner, id, b, found)
    {
      if id.Some? {
        return if id.value in sessions && Fits(sessions[id.value], owner, b) then id else None;
      }
      if b.id.Some? || b.qr.Some? {
        return None;
      }
      var todo := sessions.Keys;
      while todo != {}
        invariant todo <= sessions.Keys
        invariant forall k :: k in sessions && k !in todo ==> !Fits(sessions[k], owner, b)
        decreases |todo|
      {
        var k :| k in todo;
        todo := todo - {k};
        if Fits(sessions[k], owner, b) {
          return Some(k);
        }
      }
      return None;
    }

    /** creators are those still signed in, by digest. The search only reads, so it may come first. */
    method FindForPhone(owner: string, id: Option<string>, b: PhoneProof, creators: set<string>, now: nat)
      returns (found: Option<string>, refused: Option<string>)
      modifies this`limits
      ensures Meant(sessions, owner, id, b, found)
      ensures (Table(), refused)
              == PhoneSession(old(Table()), owner, found, b, SignedIn(sessions, found, creators), now)
    {
      found := Search(owner, id, b);
      var ok := LimitOf(owner, now);
      if !ok || limits[owner].failures >= 20 {
        return found, Some("rate_limited");
      }
      refused := Some("not_found");
      if found.Some? {
        var p := sessions[found.value];
        refused := Invalid(p, owner, p.creator in creators, now);
      }
      if refused.Some? {
        limits := limits[owner := limits[owner].(failures := limits[owner].failures + 1)];
      }
    }

    /** What the phone is shown before it confirms. */
    method Resolve(owner: string, b: PhoneProof, creators: set<string>, now: nat) returns (r: Result<string, string>)
      modifies this`limits
      ensures !Resolvable(b) ==> r == Err("invalid_proof") && Table() == old(Table())
      ensures Resolvable(b) ==>
                exists found :: Meant(sessions, owner, b.id, b, found)
                                && var live := SignedIn(sessions, found, creators);
                                   (Table(), if r.Ok? then None else Some(r.error))
                                   == PhoneSession(old(Table()), owner, found, b, live, now)
                                   && (r.Ok? ==> found == Some(r.value))
    {
      if !Resolvable(b) {
        return Err("invalid_proof");
      }
      var found, refused := FindForPhone(owner, b.id, b, creators, now);
      return if refused.Some? then Err(refused.value) else Ok(found.value);
    }

    method ConfirmSession(owner: string, id: string, b: PhoneProof, creators: set<string>, now: nat)
      returns (refused: Option<string>)
      modifies this
      ensures (Table(), refused)
              == Confirm(old(Table()), owner, id, b, SignedIn(old(sessions), Some(id), creators), now)
    {
      if b.id.Some? {
        return Some("invalid_proof");
      }
      var found;
      found, refused := FindForPhone(owner, Some(id), b, creators, now);
      if refused.None? {
        var p := sessions[id];
        if p.confirmed || p.claimed.Some? {
          return Some("conflict");
        }
        sessions := sessions[id := p.(confirmed := true)];
      }
    }

    /** The store's answer to the new target is changed, or None when it has no such account. */
    method ClaimSession(account: Option<Account>, owner: string, id: string, proof: string, token: string,
                        target: string, live: bool, saved: bool, now: nat)
      returns (changed: Option<Account>, reply: Result<string, string>)
      modifies this`sessions
      ensures ClaimReply(Table(), changed, reply)
              == Claim(old(Table()), account, owner, id, proof, token, target, live, saved, now)
    {
      changed := account;
      if !ValidProof(token) {
        return account, Err("invalid_token");
      }
      var refused := DesktopRefusal(Runtime(sessions, limits), owner, id, proof, live, now);
      if refused.Some? {
        return account, Err(refused.value);
      }
      var p := sessions[id];
      if !p.confirmed {
        return account, Err("conflict");
      }
      if p.claimed.Some? {
        if p.claimed.value.hash != token {
          return account, Err("conflict");
        }
        if account.None? {
          return account, Err("not_found");
        }
        var t := p.claimed.value.target;
        if Find(account.value.targets, HeldBy(t, token)) >= |account.value.targets| {
          return account, Err("conflict");
        }
        return account, Ok(t);
      }
      if account.None? {
        return account, Err("not_found");
      }
      var made := ClaimTarget(account.value, target, token, p.name, p.device, p.mac, now);
      if made.Refused? {
        return account, Err(made.code);
      }
      if !saved {
        return account, Err("storage");
      }
      sessions := sessions[id := p.(claimed := Some(Claiming(target, token)))];
      return Some(made.d.Prune(now)), Ok(target);
    }

    method CancelSession(owner: string, id: string, proof: string, live: bool, now: nat)
      returns (refused: Option<string>)
      modifies this`sessions
      ensures (Table(), refused) == Cancel(old(Table()), owner, id, proof, live, now)
    {
      refused := DesktopRefusal(Runtime(sessions, limits), owner, id, proof, live, now);
      if refused.None? {
        if sessions[id].claimed.Some? {
          return Some("conflict");
        }
        sessions := sessions[id := sessions[id].(cancelled := true)];
      }
    }

    method CancelEverything(owner: string, creator: string)
      modifies this`sessions
      ensures Table() == CancelAll(old(Table()), owner, creator)
    {
      var todo := sessions.Keys;
      while todo != {}
        invariant todo <= sessions.Keys == old(sessions).Keys && limits == old(limits)
        invariant forall id :: id in sessions ==>
                    sessions[id] == if id in todo then old(sessions)[id]
                                    else CancelAll(old(Table()), owner, creator).sessions[id]
        decreases |todo|
      {
        var id :| id in todo;
        todo := todo - {id};
        var p := sessions[id];
        if p.owner == owner && p.creator == creator && p.claimed.None? {
          sessions := sessions[id := p.(cancelled := true)];
        }
      }
      assert sessions == CancelAll(old(Table()), owner, creator).sessions;
    }
  }
}
