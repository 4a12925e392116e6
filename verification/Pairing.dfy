/** Account-bound enrollment of a computer through a phone (crates/rdesk_server/src/wake/pairing.rs):
    the pairing sessions and per-account limits, and what each route does under the pairing lock.
    A digest is represented by the string it digests. */
module Pairing {
  import opened Wrappers
  import opened Seqs
  import opened WakeModel
  import opened WakeRoutes

  const TTL: nat := 300_000
  const ALPHABET := "ABCDEFGHJKLMNPQRSTUVWXYZ23456789"

  datatype Claiming = Claiming(target: string, hash: string)

  datatype Session = Session(
    owner: string, creator: string, name: string, device: string, mac: Mac,
    qr: string, desktop: string, manual: string, expires: nat,
    confirmed: bool, cancelled: bool, claimed: Option<Claiming>)

  datatype Limit = Limit(since: nat, creates: nat, failures: nat)

  datatype Runtime = Runtime(sessions: map<string, Session>, limits: map<string, Limit>)

  // ---- Proofs --------------------------------------------------------------------------------

  predicate HexDigit(c: char) {
    '0' <= c <= '9' || 'a' <= c <= 'f' || 'A' <= c <= 'F'
  }

  predicate ValidProof(p: string) {
    |p| == 64 && forall i :: 0 <= i < |p| ==> HexDigit(p[i])
  }

  function Upper(c: char): char {
    if 'a' <= c <= 'z' then (c as int - 32) as char else c
  }

  function ManualCode(raw: string): Option<string> {
    var code := Apply(raw, (c: char) => Upper(c));
    if |code| == 16 && (forall i :: 0 <= i < |code| ==> code[i] in ALPHABET) then Some(code) else None
  }

  datatype PhoneProof = PhoneProof(id: Option<string>, qr: Option<string>, manual: Option<string>)

  predicate PhoneMatches(p: Session, b: PhoneProof) {
    match b
    case PhoneProof(_, Some(qr), None) => ValidProof(qr) && qr == p.qr
    case PhoneProof(_, None, Some(code)) => ManualCode(code) == Some(p.manual)
    case _ => false
  }

  /** What resolving accepts: an id with a QR proof, or a manual code alone. */
  predicate Resolvable(b: PhoneProof) {
    (b.id.Some? && b.qr.Some? && b.manual.None?) || (b.id.None? && b.qr.None? && b.manual.Some?)
  }

  predicate Fits(p: Session, owner: string, b: PhoneProof) { p.owner == owner && PhoneMatches(p, b) }

  /** The session a phone means: the one it names, if that fits; with a code alone any one that fits. */
  ghost predicate Meant(s: map<string, Session>, owner: string, id: Option<string>, b: PhoneProof,
                        found: Option<string>)
  {
    (found.Some? ==> found.value in s && Fits(s[found.value], owner, b) && (id.Some? ==> found == id))
    && (found.None? ==>
          if id.Some? then id.value in s ==> !Fits(s[id.value], owner, b)
          else b.id.Some? || b.qr.Some? || forall k :: k in s ==> !Fits(s[k], owner, b))
  }

  /** While no two sessions of an account share a code, the search answers exactly the one session. */
  lemma SearchIsExact(s: map<string, Session>, owner: string, b: PhoneProof, found: Option<string>, k: string)
    requires Meant(s, owner, None, b, found) && b.id.None? && b.qr.None?
    requires forall i, j :: i in s && j in s && s[i].owner == s[j].owner == owner && s[i].manual == s[j].manual ==>
                           i == j
    ensures found == Some(k) <==> k in s && Fits(s[k], owner, b)
  {
    if k in s && Fits(s[k], owner, b) {
      assert found.Some?;
      assert s[found.value].manual == ManualCode(b.manual.value).value == s[k].manual;
    }
  }

  /** The creator of the session, if there is one, is among those signed in. */
  predicate SignedIn(s: map<string, Session>, id: Option<string>, creators: set<string>) {
    id.Some? && id.value in s && s[id.value].creator in creators
  }

  /** Why a session cannot be used, if so; live says that its creator is still signed in. */
  function Invalid(p: Session, owner: string, live: bool, now: nat): Option<string> {
    if p.owner != owner then Some("not_found")
    else if now >= p.expires then Some("expired")
    else if p.cancelled || !live then Some("conflict")
    else None
  }

  // ---- The runtime ------------------------------------------------------------------------------

  function LiveLimits(l: map<string, Limit>, now: nat): map<string, Limit> {
    map o | o in l && SatSub(now, l[o].since) < TTL :: l[o]
  }

  function Prune(rt: Runtime, now: nat): Runtime {
    Runtime(map id | id in rt.sessions && now < rt.sessions[id].expires :: rt.sessions[id], LiveLimits(rt.limits, now))
  }

  /** The account's current window, opened if there is none and the table has room. */
  function TouchLimit(rt: Runtime, owner: string, now: nat): (Runtime, bool) {
    var l := LiveLimits(rt.limits, now);
    if owner in l then (rt.(limits := l), true)
    else if |l| >= 2000 then (rt.(limits := l), false)
    else (rt.(limits := l[owner := Limit(now, 0, 0)]), true)
  }

  function OpenSessions(s: map<string, Session>, owner: string): set<string> {
    set id | id in s && s[id].owner == owner && s[id].claimed.None? && !s[id].cancelled
  }

  /** creator, names and secrets of the new session are the caller's and the random source's. */
  function Create(rt: Runtime, owner: string, id: string, p: Session, live: bool, now: nat): (Runtime, Option<string>)
    requires p.owner == owner && p.expires == now + TTL && !p.confirmed && !p.cancelled && p.claimed.None?
  {
    var (r, ok) := TouchLimit(Prune(rt, now), owner, now);
    if !ok then (r, Some("rate_limited"))
    else if r.limits[owner].creates >= 6 || |r.sessions| >= 1000 || |OpenSessions(r.sessions, owner)| >= 3 then
      (r, Some("rate_limited"))
    else if Invalid(p, owner, live, now).Some? then (r, Invalid(p, owner, live, now))
    else
      var l := r.limits[owner];
      (Runtime(r.sessions[id := p], r.limits[owner := l.(creates := l.creates + 1)]), None)
  }

  /** The session a phone names, or the reason for refusing it; a refusal is counted. */
  function PhoneSession(rt: Runtime, owner: string, id: Option<string>, b: PhoneProof, live: bool, now: nat)
    : (Runtime, Option<string>)
  {
    var (r, ok) := TouchLimit(rt, owner, now);
    if !ok || r.limits[owner].failures >= 20 then (r, Some("rate_limited"))
    else
      var refused :=
        if id.None? || id.value !in r.sessions || r.sessions[id.value].owner != owner
           || !PhoneMatches(r.sessions[id.value], b) then Some("not_found")
        else Invalid(r.sessions[id.value], owner, live, now);
      var l := r.limits[owner];
      if refused.None? then (r, None)
      else (r.(limits := r.limits[owner := l.(failures := l.failures + 1)]), refused)
  }

  function Confirm(rt: Runtime, owner: string, id: string, b: PhoneProof, live: bool, now: nat)
    : (Runtime, Option<string>)
  {
    var (r, refused) := PhoneSession(rt, owner, Some(id), b, live, now);
    if b.id.Some? then (rt, Some("invalid_proof"))
    else if refused.Some? then (r, refused)
    else
      var p := r.sessions[id];
      if p.confirmed || p.claimed.Some? then (r, Some("conflict"))
      else (r.(sessions := r.sessions[id := p.(confirmed := true)]), None)
  }

  function DesktopRefusal(rt: Runtime, owner: string, id: string, proof: string, live: bool,
                          now: nat): (e: Option<string>)
    ensures e.None? ==> id in rt.sessions
  {
    if id !in rt.sessions || rt.sessions[id].owner != owner || !ValidProof(proof)
        || proof != rt.sessions[id].desktop then
      Some("not_found")
    else Invalid(rt.sessions[id], owner, live, now)
  }

  function HeldBy(id: string, hash: string): WakeTarget -> bool {
    (t: WakeTarget) => t.id == id && t.tokenHash == hash
  }

  datatype ClaimReply = ClaimReply(rt: Runtime, account: Option<Account>, reply: Result<string, string>)

  /** The first claim stores a target and remembers it; later ones only find it again. */
  function Claim(rt: Runtime, account: Option<Account>, owner: string, id: string, proof: string, token: string,
                 target: string, live: bool, saved: bool, now: nat): ClaimReply
  {
    var refused := DesktopRefusal(rt, owner, id, proof, live, now);
    if !ValidProof(token) then ClaimReply(rt, account, Err("invalid_token"))
    else if refused.Some? then ClaimReply(rt, account, Err(refused.value))
    else
      var p := rt.sessions[id];
      if !p.confirmed then ClaimReply(rt, account, Err("conflict"))
      else if p.claimed.Some? then
        ClaimReply(rt, account,
                   if p.claimed.value.hash != token then Err("conflict")
                   else if account.None? then Err("not_found")
                   else if Find(account.value.targets, HeldBy(p.claimed.value.target, token)) < |account.value.targets|
                   then Ok(p.claimed.value.target)
                   else Err("conflict"))
      else if account.None? then ClaimReply(rt, account, Err("not_found"))
      else
        match ClaimTarget(account.value, target, token, p.name, p.device, p.mac, now)
        case Refused(code) => ClaimReply(rt, account, Err(code))
        case Done(d, _) =>
          if !saved then ClaimReply(rt, account, Err("storage"))
          else
            ClaimReply(rt.(sessions := rt.sessions[id := p.(claimed := Some(Claiming(target, token)))]),
                       Some(d.Prune(now)), Ok(target))
  }

  function Cancel(rt: Runtime, owner: string, id: string, proof: string, live: bool, now: nat)
    : (Runtime, Option<string>)
  {
    var refused := DesktopRefusal(rt, owner, id, proof, live, now);
    if refused.Some? then (rt, refused)
    else if rt.sessions[id].claimed.Some? then (rt, Some("conflict"))
    else (rt.(sessions := rt.sessions[id := rt.sessions[id].(cancelled := true)]), None)
  }

  predicate CancelledTogether(p: Session, owner: string, creator: string) {
    p.owner == owner && p.creator == creator && p.claimed.None?
  }

  function CancelAll(rt: Runtime, owner: string, creator: string): Runtime {
    rt.(sessions := map id | id in rt.sessions ::
          if CancelledTogether(rt.sessions[id], owner, creator) then rt.sessions[id].(cancelled := true)
          else rt.sessions[id])
  }
}
