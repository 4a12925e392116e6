/** Which secrets and sign-ins every pairing step of a run rests on, and what the routes answer, in
    terms of the table alone. */
module PairingProofs {
  import opened Wrappers
  import opened Seqs
  import opened WakeModel
  import opened WakeRoutes
  import opened WakeAnswers
  import opened Pairing
  import opened PairingRuns
  import opened PairingTheorems

  // ---- Secrets ---------------------------------------------------------------------------------------------

  /** Sixty-four hexadecimal digits. */
  predicate Secret(s: string) {
    |s| == 64 && forall c :: c in s ==> '0' <= c <= '9' || 'a' <= c <= 'f' || 'A' <= c <= 'F'
  }

  /** The code as typed, in letters of either case. */
  predicate Types(raw: string, code: string) {
    |raw| == |code| == 16
    && forall i :: 0 <= i < 16 ==>
         code[i] in ALPHABET
         && (raw[i] == code[i] || ('a' <= raw[i] <= 'z' && raw[i] as int - 32 == code[i] as int))
  }

  /** The phone shows the QR secret alone, or types the code alone. */
  predicate Shows(b: PhoneProof, p: Session) {
    (b.qr == Some(p.qr) && Secret(p.qr) && b.manual.None?)
    || (b.qr.None? && b.manual.Some? && Types(b.manual.value, p.manual))
  }

  lemma SecretIsValid(s: string)
    ensures Secret(s) <==> ValidProof(s)
  {
    assert forall i :: 0 <= i < |s| ==> s[i] in s;
  }

  lemma TypedLetter(raw: char, code: char)
    requires code in ALPHABET
    ensures Upper(raw) == code <==> raw == code || ('a' <= raw <= 'z' && raw as int - 32 == code as int)
  {
  }

  lemma TypedIsCode(raw: string, code: string)
    ensures Types(raw, code) <==> ManualCode(raw) == Some(code)
  {
    var up := Apply(raw, (c: char) => Upper(c));
    assert forall i :: 0 <= i < |raw| ==> up[i] == Upper(raw[i]);
    if |raw| == |code| == 16 && forall i :: 0 <= i < 16 ==> code[i] in ALPHABET {
      forall i | 0 <= i < 16
        ensures up[i] == code[i]
                <==> raw[i] == code[i] || ('a' <= raw[i] <= 'z' && raw[i] as int - 32 == code[i] as int)
      {
        TypedLetter(raw[i], code[i]);
      }
      assert up == code <==> forall i :: 0 <= i < 16 ==> up[i] == code[i];
    }
  }

  lemma ShowsIsMatch(b: PhoneProof, p: Session)
    ensures Shows(b, p) <==> PhoneMatches(p, b)
  {
    SecretIsValid(p.qr);
    if b.manual.Some? {
      TypedIsCode(b.manual.value, p.manual);
    }
  }

  // ---- What the desktop is answered ------------------------------------------------------------------------

  /** The caller is the owner and holds the desktop secret. */
  predicate Holds(rt: Runtime, owner: string, id: string, proof: string) {
    id in rt.sessions && rt.sessions[id].owner == owner && proof == rt.sessions[id].desktop && Secret(proof)
  }

  /** The pairing can still be used: in time, not cancelled, its creator signed in. */
  predicate Usable(p: Session, live: bool, now: nat) { now < p.expires && !p.cancelled && live }

  lemma DesktopAnswers(rt: Runtime, owner: string, id: string, proof: string, live: bool, now: nat)
    ensures DesktopRefusal(rt, owner, id, proof, live, now)
            == if !Holds(rt, owner, id, proof) then Some("not_found")
               else if rt.sessions[id].expires <= now then Some("expired")
               else if rt.sessions[id].cancelled || !live then Some("conflict")
               else None
  {
    SecretIsValid(proof);
  }

  /** A claim that makes a target needs room and a free device in the account, one that finds its
      target again the same token there and then. */
  ghost predicate Claimable(p: Session, d: Account, token: string, saved: bool) {
    match p.claimed
    case None => saved && |d.targets| < 20 && !DeviceTaken(d, p.device)
    case Some(c) => c.hash == token && exists t :: t in d.targets && t.id == c.target && t.tokenHash == token
  }

  lemma HeldIsExists(d: Account, id: string, hash: string)
    ensures Find(d.targets, HeldBy(id, hash)) < |d.targets|
            <==> exists t :: t in d.targets && t.id == id && t.tokenHash == hash
  {
    FindIsExists(d.targets, HeldBy(id, hash));
    forall t: WakeTarget
      ensures HeldBy(id, hash)(t) <==> t.id == id && t.tokenHash == hash
    {
    }
  }

  /** A claim answers exactly the owner who holds the desktop secret of a confirmed pairing still
      usable. */
  lemma ClaimAnswers(rt: Runtime, account: Option<Account>, owner: string, id: string, proof: string, token: string,
                     target: string, live: bool, saved: bool, now: nat)
    ensures var c := Claim(rt, account, owner, id, proof, token, target, live, saved, now);
            c.reply.Ok?
            <==> Secret(token) && Holds(rt, owner, id, proof) && Usable(rt.sessions[id], live, now)
                 && rt.sessions[id].confirmed && account.Some?
                 && Claimable(rt.sessions[id], account.value, token, saved)
  {
    SecretIsValid(token);
    DesktopAnswers(rt, owner, id, proof, live, now);
    if account.Some? && id in rt.sessions {
      var p := rt.sessions[id];
      ClaimTargetAnswers(account.value, target, token, p.name, p.device, p.mac, now);
      if p.claimed.Some? {
        HeldIsExists(account.value, p.claimed.value.target, token);
      }
    }
  }

  /** The first answered claim stores the pairing's computer with the caller's token and remembers
      it; every other changes nothing. */
  lemma ClaimStores(rt: Runtime, account: Option<Account>, owner: string, id: string, proof: string, token: string,
                    target: string, live: bool, saved: bool, now: nat)
    ensures var c := Claim(rt, account, owner, id, proof, token, target, live, saved, now);
            if c.reply.Ok? && rt.sessions[id].claimed.None? then
              var p := rt.sessions[id];
              && c.reply == Ok(target) && c.rt.limits == rt.limits
              && c.rt.sessions == rt.sessions[id := p.(claimed := Some(Claiming(target, token)))]
              && c.account.Some? && c.account.value.agents == account.value.agents
              && c.account.value.targets
                 == account.value.targets
                    + [WakeTarget(false, target, p.name, p.device, p.mac, "", 1, token, now)]
            else
              c.rt == rt && c.account == account
              && (c.reply.Ok? ==> c.reply == Ok(rt.sessions[id].claimed.value.target))
  {
    ClaimAnswers(rt, account, owner, id, proof, token, target, live, saved, now);
    if account.Some? && id in rt.sessions {
      var p := rt.sessions[id];
      ClaimTargetAnswers(account.value, target, token, p.name, p.device, p.mac, now);
    }
  }

  /** A pairing is cancelled exactly by its owner with the desktop secret, while usable and unclaimed. */
  lemma CancelAnswers(rt: Runtime, owner: string, id: string, proof: string, live: bool, now: nat)
    ensures var c := Cancel(rt, owner, id, proof, live, now);
            if Holds(rt, owner, id, proof) && Usable(rt.sessions[id], live, now) && rt.sessions[id].claimed.None? then
              c == (rt.(sessions := rt.sessions[id := rt.sessions[id].(cancelled := true)]), None)
            else c.0 == rt && c.1.Some?
  {
    DesktopAnswers(rt, owner, id, proof, live, now);
  }

  /** Cancelling everything cancels exactly the unclaimed pairings that session of the owner created. */
  lemma CancelAllAnswers(rt: Runtime, owner: string, creator: string)
    ensures var c := CancelAll(rt, owner, creator);
            c.limits == rt.limits && c.sessions.Keys == rt.sessions.Keys
            && forall id :: id in rt.sessions ==>
                 var p := rt.sessions[id];
                 c.sessions[id] == if p.owner == owner && p.creator == creator && p.claimed.None?
                                   then p.(cancelled := true) else p
  {
  }

  // ---- What the phone is answered --------------------------------------------------------------------------

  /** The account's windows that have not run out. */
  ghost predicate WindowOpen(rt: Runtime, owner: string, now: nat) {
    owner in rt.limits && now < rt.limits[owner].since + 300_000
  }

  function Windows(rt: Runtime, now: nat): set<string> {
    set o | o in rt.limits && now < rt.limits[o].since + 300_000
  }

  /** The account may try: fewer than twenty refusals in its window, or room for a new one. */
  ghost predicate MayTry(rt: Runtime, owner: string, now: nat) {
    if WindowOpen(rt, owner, now) then rt.limits[owner].failures < 20 else |Windows(rt, now)| < 2000
  }

  lemma LiveIsOpen(rt: Runtime, owner: string, now: nat)
    ensures LiveLimits(rt.limits, now).Keys == Windows(rt, now)
    ensures |LiveLimits(rt.limits, now)| == |Windows(rt, now)|
    ensures owner in LiveLimits(rt.limits, now) <==> WindowOpen(rt, owner, now)
  {
    var l := LiveLimits(rt.limits, now);
    assert l.Keys == Windows(rt, now);
    assert |l| == |l.Keys|;
  }

  /** A phone is shown or may confirm exactly the account's pairing it names, while that is usable,
      with its QR secret or its code, and before twenty refusals. */
  lemma PhoneAnswers(rt: Runtime, owner: string, id: string, b: PhoneProof, live: bool, now: nat)
    ensures PhoneSession(rt, owner, Some(id), b, live, now).1.None?
            <==> MayTry(rt, owner, now) && id in rt.sessions && rt.sessions[id].owner == owner
                 && Shows(b, rt.sessions[id]) && Usable(rt.sessions[id], live, now)
    ensures MayTry(rt, owner, now) ==>
              var r := PhoneSession(rt, owner, Some(id), b, live, now);
              owner in r.0.limits
              && r.0.limits[owner].failures == (if WindowOpen(rt, owner, now) then rt.limits[owner].failures else 0)
                                               + (if r.1.None? then 0 else 1)
  {
    LiveIsOpen(rt, owner, now);
    if id in rt.sessions {
      ShowsIsMatch(b, rt.sessions[id]);
    }
  }

  /** A pairing is confirmed exactly once, by a phone that may. */
  lemma ConfirmAnswers(rt: Runtime, owner: string, id: string, b: PhoneProof, live: bool, now: nat)
    ensures Confirm(rt, owner, id, b, live, now).1.None?
            <==> b.id.None? && MayTry(rt, owner, now) && id in rt.sessions && rt.sessions[id].owner == owner
                 && Shows(b, rt.sessions[id]) && Usable(rt.sessions[id], live, now)
                 && !rt.sessions[id].confirmed && rt.sessions[id].claimed.None?
  {
    PhoneAnswers(rt, owner, id, b, live, now);
    TouchKeepsSessions(rt, owner, now);
  }

  /** The pairings that have not expired, and those of the account still open. */
  function Unexpired(rt: Runtime, now: nat): set<string> {
    set id | id in rt.sessions && now < rt.sessions[id].expires
  }

  function StillOpen(rt: Runtime, owner: string, now: nat): set<string> {
    set id | id in rt.sessions && now < rt.sessions[id].expires && rt.sessions[id].owner == owner
             && rt.sessions[id].claimed.None? && !rt.sessions[id].cancelled
  }

  /** A pairing is opened exactly for an account signed in that has opened fewer than six in its
      window and three still open, while fewer than a thousand live. */
  lemma CreateAnswers(rt: Runtime, owner: string, id: string, p: Session, live: bool, now: nat)
    requires p.owner == owner && p.expires == now + TTL && !p.confirmed && !p.cancelled && p.claimed.None?
    ensures var c := Create(rt, owner, id, p, live, now);
            (c.1.None? <==> live && |Unexpired(rt, now)| < 1000 && |StillOpen(rt, owner, now)| < 3
                            && if WindowOpen(rt, owner, now) then rt.limits[owner].creates < 6
                               else |Windows(rt, now)| < 2000)
            && (c.1.None? ==> id in c.0.sessions && c.0.sessions[id] == p)
            && forall k :: k in c.0.sessions && (k != id || c.1.Some?) ==>
                 k in rt.sessions && c.0.sessions[k] == rt.sessions[k]
  {
    var q := Prune(rt, now);
    LiveIsOpen(rt, owner, now);
    LiveTwice(rt, now);
    TouchKeepsSessions(q, owner, now);
    assert q.sessions.Keys == Unexpired(rt, now) && |q.sessions| == |q.sessions.Keys|;
    assert OpenSessions(q.sessions, owner) == StillOpen(rt, owner, now);
  }

  lemma LiveTwice(rt: Runtime, now: nat)
    ensures LiveLimits(Prune(rt, now).limits, now) == LiveLimits(rt.limits, now)
  {
  }

  // ---- Whole runs ------------------------------------------------------------------------------------------

  /** What never changes of a pairing. */
  ghost predicate Same(p: Session, q: Session) {
    q.owner == p.owner && q.creator == p.creator && q.name == p.name && q.device == p.device && q.mac == p.mac
    && q.qr == p.qr && q.desktop == p.desktop && q.manual == p.manual && q.expires == p.expires
  }

  /** Step i opened the pairing, for its owner and for five minutes. */
  ghost predicate Opens(past: seq<Timed>, i: int, id: string) {
    0 <= i < |past| && past[i].step.Open? && past[i].step.id == id
    && past[i].step.p.owner == past[i].step.owner && past[i].step.p.expires == past[i].now + 300_000
  }

  ghost predicate OpenedAs(past: seq<Timed>, id: string, q: Session) {
    exists i :: Opens(past, i, id) && Same(past[i].step.p, q)
  }

  /** Step j is a phone of the owner confirming the pairing of step i, in time, with its creator signed
      in, showing its QR secret or typing its code. */
  ghost predicate Confirms(past: seq<Timed>, i: int, j: int, id: string) {
    Opens(past, i, id) && i < j < |past| && past[j].step.Approve? && past[j].step.id == id
    && past[j].step.owner == past[i].step.owner && past[j].step.live && past[j].now < past[i].now + 300_000
    && Shows(past[j].step.proof, past[i].step.p)
  }

  /** Step j is the owner claiming the pairing of step i for that target with that token, in time, with
      its creator signed in, and the very desktop secret it was opened with. */
  ghost predicate Claims(past: seq<Timed>, i: int, j: int, m: Made) {
    Opens(past, i, m.pairing) && i < j < |past| && past[j].step.Enroll? && past[j].step.id == m.pairing
    && past[j].step.owner == past[i].step.owner && past[j].step.desktop == past[i].step.p.desktop
    && past[j].step.live && past[j].now < past[i].now + 300_000
    && past[j].step.target == m.target && past[j].step.token == m.hash
  }

  /** Step j is the owner cancelling the pairing of step i: with its desktop secret, in time and with
      its creator signed in, or from the session that created it. */
  ghost predicate Cancels(past: seq<Timed>, i: int, j: int, id: string) {
    Opens(past, i, id) && i < j < |past|
    && ((past[j].step.Abandon? && past[j].step.id == id && past[j].step.owner == past[i].step.owner
         && past[j].step.desktop == past[i].step.p.desktop && past[j].step.live
         && past[j].now < past[i].now + 300_000)
        || (past[j].step.AbandonAll? && past[j].step.owner == past[i].step.owner
            && past[j].step.creator == past[i].step.p.creator))
  }

  ghost predicate WasConfirmed(past: seq<Timed>, id: string) { exists i, j :: Confirms(past, i, j, id) }

  ghost predicate WasClaimed(past: seq<Timed>, m: Made) { exists i, j :: Claims(past, i, j, m) }

  ghost predicate WasCancelled(past: seq<Timed>, id: string) { exists i, j :: Cancels(past, i, j, id) }

  ghost predicate Vouched(past: seq<Timed>, w: World) {
    && (forall id :: id in w.rt.sessions ==> OpenedAs(past, id, w.rt.sessions[id]))
    && (forall id :: id in w.confirmed ==> WasConfirmed(past, id))
    && (forall m :: m in w.made ==> WasClaimed(past, m))
    && (forall id :: id in w.cancelled ==> WasCancelled(past, id))
  }

  // What a step proved stays proved.

  lemma OpenedLater(past: seq<Timed>, s: Timed, id: string, p: Session, q: Session)
    requires OpenedAs(past, id, p) && Same(p, q)
    ensures OpenedAs(past + [s], id, q)
  {
    var i :| Opens(past, i, id) && Same(past[i].step.p, p);
    assert Opens(past + [s], i, id) && Same((past + [s])[i].step.p, q);
  }

  lemma ConfirmedLater(past: seq<Timed>, s: Timed, id: string)
    requires WasConfirmed(past, id)
    ensures WasConfirmed(past + [s], id)
  {
    var i, j :| Confirms(past, i, j, id);
    assert Confirms(past + [s], i, j, id);
  }

  lemma ClaimedLater(past: seq<Timed>, s: Timed, m: Made)
    requires WasClaimed(past, m)
    ensures WasClaimed(past + [s], m)
  {
    var i, j :| Claims(past, i, j, m);
    assert Claims(past + [s], i, j, m);
  }

  lemma CancelledLater(past: seq<Timed>, s: Timed, id: string)
    requires WasCancelled(past, id)
    ensures WasCancelled(past + [s], id)
  {
    var i, j :| Cancels(past, i, j, id);
    assert Cancels(past + [s], i, j, id);
  }

  /** A step vouches for what it adds. */
  lemma StepVouches(past: seq<Timed>, s: Timed, w: World, v: World)
    requires Vouched(past, w)
    requires forall id :: id in v.rt.sessions ==>
               (id in w.rt.sessions && Same(w.rt.sessions[id], v.rt.sessions[id]))
               || OpenedAs(past + [s], id, v.rt.sessions[id])
    requires forall id :: id in v.confirmed ==> id in w.confirmed || WasConfirmed(past + [s], id)
    requires forall m :: m in v.made ==> m in w.made || WasClaimed(past + [s], m)
    requires forall id :: id in v.cancelled ==> id in w.cancelled || WasCancelled(past + [s], id)
    ensures Vouched(past + [s], v)
  {
    forall id | id in v.rt.sessions
      ensures OpenedAs(past + [s], id, v.rt.sessions[id])
    {
      if id in w.rt.sessions && Same(w.rt.sessions[id], v.rt.sessions[id]) {
        OpenedLater(past, s, id, w.rt.sessions[id], v.rt.sessions[id]);
      }
    }
    forall id | id in v.confirmed
      ensures WasConfirmed(past + [s], id)
    {
      if id in w.confirmed {
        ConfirmedLater(past, s, id);
      }
    }
    forall m | m in v.made
      ensures WasClaimed(past + [s], m)
    {
      if m in w.made {
        ClaimedLater(past, s, m);
      }
    }
    forall id | id in v.cancelled
      ensures WasCancelled(past + [s], id)
    {
      if id in w.cancelled {
        CancelledLater(past, s, id);
      }
    }
  }

  // ---- One lemma a step ------------------------------------------------------------------------------------

  lemma OpenVouches(past: seq<Timed>, w: World, s: Step, now: nat)
    requires Vouched(past, w) && Enabled(w, s, now) && s.Open?
    ensures Vouched(past + [Timed(s, now)], After(w, s, now))
  {
    var more, v := past + [Timed(s, now)], After(w, s, now);
    CreateAnswers(w.rt, s.owner, s.id, s.p, s.live, now);
    assert Opens(more, |past|, s.id) && more[|past|].step.p == s.p;
    forall id | id in v.rt.sessions && !(id in w.rt.sessions && v.rt.sessions[id] == w.rt.sessions[id])
      ensures OpenedAs(more, id, v.rt.sessions[id])
    {
      assert Same(more[|past|].step.p, v.rt.sessions[id]);
    }
    StepVouches(past, Timed(s, now), w, v);
  }

  lemma ConfirmShown(past: seq<Timed>, p: Session, s: Step, now: nat)
    requires s.Approve? && OpenedAs(past, s.id, p) && p.owner == s.owner && s.live && now < p.expires
    requires Shows(s.proof, p)
    ensures WasConfirmed(past + [Timed(s, now)], s.id)
  {
    var more := past + [Timed(s, now)];
    var i :| Opens(past, i, s.id) && Same(past[i].step.p, p);
    assert more[i] == past[i] && more[|past|] == Timed(s, now);
    assert Confirms(more, i, |past|, s.id);
  }

  lemma ApproveVouches(past: seq<Timed>, w: World, s: Step, now: nat)
    requires Vouched(past, w) && Enabled(w, s, now) && s.Approve?
    ensures Vouched(past + [Timed(s, now)], After(w, s, now))
  {
    ApproveShape(w, s, now);
    ConfirmAnswers(w.rt, s.owner, s.id, s.proof, s.live, now);
    if Confirm(w.rt, s.owner, s.id, s.proof, s.live, now).1.None? {
      ConfirmShown(past, w.rt.sessions[s.id], s, now);
    }
    StepVouches(past, Timed(s, now), w, After(w, s, now));
  }

  lemma ClaimShown(past: seq<Timed>, p: Session, s: Step, now: nat)
    requires s.Enroll? && OpenedAs(past, s.id, p) && p.owner == s.owner && s.live && now < p.expires
    requires s.desktop == p.desktop
    ensures WasClaimed(past + [Timed(s, now)], Made(s.id, s.target, s.token))
  {
    var more := past + [Timed(s, now)];
    var i :| Opens(past, i, s.id) && Same(past[i].step.p, p);
    assert more[i] == past[i] && more[|past|] == Timed(s, now);
    assert Claims(more, i, |past|, Made(s.id, s.target, s.token));
  }

  lemma EnrollShape(w: World, s: Step, now: nat)
    requires Enabled(w, s, now) && s.Enroll?
    ensures var v := After(w, s, now);
            v.confirmed == w.confirmed && v.cancelled == w.cancelled
            && if v.made == w.made then v.rt == w.rt
               else v.made == w.made + [Made(s.id, s.target, s.token)] && s.id in w.rt.sessions
                    && v.rt.sessions
                       == w.rt.sessions[s.id := w.rt.sessions[s.id].(claimed := Some(Claiming(s.target, s.token)))]
                    && Holds(w.rt, s.owner, s.id, s.desktop) && Usable(w.rt.sessions[s.id], s.live, now)
  {
    ClaimAnswers(w.rt, AccountOf(w, s.owner), s.owner, s.id, s.desktop, s.token, s.target, s.live, s.saved, now);
    ClaimStores(w.rt, AccountOf(w, s.owner), s.owner, s.id, s.desktop, s.token, s.target, s.live, s.saved, now);
  }

  lemma EnrollVouches(past: seq<Timed>, w: World, s: Step, now: nat)
    requires Vouched(past, w) && Enabled(w, s, now) && s.Enroll?
    ensures Vouched(past + [Timed(s, now)], After(w, s, now))
  {
    EnrollShape(w, s, now);
    if After(w, s, now).made != w.made {
      ClaimShown(past, w.rt.sessions[s.id], s, now);
    }
    StepVouches(past, Timed(s, now), w, After(w, s, now));
  }

  lemma CancelShown(past: seq<Timed>, p: Session, id: string, s: Step, now: nat)
    requires (s.Abandon? || s.AbandonAll?) && OpenedAs(past, id, p) && p.owner == s.owner
    requires if s.Abandon? then s.id == id && s.desktop == p.desktop && s.live && now < p.expires
             else s.creator == p.creator
    ensures WasCancelled(past + [Timed(s, now)], id)
  {
    var more := past + [Timed(s, now)];
    var i :| Opens(past, i, id) && Same(past[i].step.p, p);
    assert more[i] == past[i] && more[|past|] == Timed(s, now);
    assert Cancels(more, i, |past|, id);
  }

  lemma AbandonVouches(past: seq<Timed>, w: World, s: Step, now: nat)
    requires Vouched(past, w) && Enabled(w, s, now) && s.Abandon?
    ensures Vouched(past + [Timed(s, now)], After(w, s, now))
  {
    CancelAnswers(w.rt, s.owner, s.id, s.desktop, s.live, now);
    if Cancel(w.rt, s.owner, s.id, s.desktop, s.live, now).1.None? {
      CancelShown(past, w.rt.sessions[s.id], s.id, s, now);
    }
    StepVouches(past, Timed(s, now), w, After(w, s, now));
  }

  lemma AbandonAllVouches(past: seq<Timed>, w: World, s: Step, now: nat)
    requires Vouched(past, w) && Enabled(w, s, now) && s.AbandonAll?
    ensures Vouched(past + [Timed(s, now)], After(w, s, now))
  {
    var v := After(w, s, now);
    forall id | id in v.cancelled && id !in w.cancelled
      ensures WasCancelled(past + [Timed(s, now)], id)
    {
      CancelShown(past, w.rt.sessions[id], id, s, now);
    }
    StepVouches(past, Timed(s, now), w, v);
  }

  lemma QuietVouches(past: seq<Timed>, w: World, s: Step, now: nat)
    requires Vouched(past, w) && Enabled(w, s, now)
    requires !s.Open? && !s.Approve? && !s.Enroll? && !s.Abandon? && !s.AbandonAll?
    ensures Vouched(past + [Timed(s, now)], After(w, s, now))
  {
    QuietShape(w, s, now);
    StepVouches(past, Timed(s, now), w, After(w, s, now));
  }

  lemma QuietShape(w: World, s: Step, now: nat)
    requires Enabled(w, s, now) && !s.Open? && !s.Approve? && !s.Enroll? && !s.Abandon? && !s.AbandonAll?
    ensures var v := After(w, s, now);
            v.confirmed == w.confirmed && v.cancelled == w.cancelled && v.made == w.made
            && forall id :: id in v.rt.sessions ==> id in w.rt.sessions && v.rt.sessions[id] == w.rt.sessions[id]
  {
    if s.Look? {
      TouchKeepsSessions(w.rt, s.owner, now);
    }
  }

  lemma VouchedStep(past: seq<Timed>, w: World, s: Step, now: nat)
    requires Vouched(past, w) && Enabled(w, s, now)
    ensures Vouched(past + [Timed(s, now)], Next(w, s, now))
  {
    if s.Open? {
      OpenVouches(past, w, s, now);
    } else if s.Approve? {
      ApproveVouches(past, w, s, now);
    } else if s.Enroll? {
      EnrollVouches(past, w, s, now);
    } else if s.Abandon? {
      AbandonVouches(past, w, s, now);
    } else if s.AbandonAll? {
      AbandonAllVouches(past, w, s, now);
    } else {
      QuietVouches(past, w, s, now);
    }
  }

  lemma {:induction false} VouchedAlong(past: seq<Timed>, w: World, steps: seq<Timed>)
    requires Vouched(past, w) && Run(w, steps)
    ensures Vouched(past + steps, Final(w, steps))
    decreases |steps|
  {
    if steps == [] {
      assert past + steps == past;
    } else {
      var s := steps[0];
      VouchedStep(past, w, s.step, s.now);
      assert [s] == [Timed(s.step, s.now)];
      VouchedAlong(past + [s], Next(w, s.step, s.now), steps[1..]);
      assert past + [s] + steps[1..] == past + steps;
    }
  }

  /** In every run, each pairing confirmed was confirmed by a phone of its owner that showed its secret,
      each target made by a claim of its owner with the desktop secret the pairing was opened with, and
      each pairing cancelled by its owner with that secret or from the session that created it, always
      within five minutes and, but for the last, with that session still signed in. */
  lemma EveryStepWasProved(steps: seq<Timed>)
    requires Run(INIT, steps)
    ensures Vouched(steps, Final(INIT, steps))
  {
    VouchedAlong([], INIT, steps);
    assert [] + steps == steps;
  }

  /** The same of every claim that is answered, the first and each repeated one. */
  lemma AnsweredClaimsWereProved(steps: seq<Timed>, s: Step, now: nat, t: string)
    requires Run(INIT, steps)
    ensures Answers(Final(INIT, steps), s, now, t) ==>
              exists i :: Opens(steps, i, s.id) && s.owner == steps[i].step.owner
                          && s.desktop == steps[i].step.p.desktop && s.live && now < steps[i].now + 300_000
  {
    EveryStepWasProved(steps);
    var w := Final(INIT, steps);
    if Answers(w, s, now, t) {
      AnsweredClaim(steps, w, s, now, t);
    }
  }

  lemma AnsweredClaim(past: seq<Timed>, w: World, s: Step, now: nat, t: string)
    requires Vouched(past, w) && Answers(w, s, now, t)
    ensures exists i :: Opens(past, i, s.id) && s.owner == past[i].step.owner
                        && s.desktop == past[i].step.p.desktop && s.live && now < past[i].now + 300_000
  {
    ClaimAnswers(w.rt, AccountOf(w, s.owner), s.owner, s.id, s.desktop, s.token, s.target, s.live, s.saved, now);
    var i :| Opens(past, i, s.id) && Same(past[i].step.p, w.rt.sessions[s.id]);
    assert s.desktop == past[i].step.p.desktop;
  }
}
