/** The limits on pairing, and what holds of every pairing in every run. */
module PairingTheorems {
  import opened Wrappers
  import opened Seqs
  import opened WakeModel
  import opened WakeRoutes
  import opened Pairing
  import opened PairingRuns

  // ---- Limits ----------------------------------------------------------------------------------

  ghost predicate LimitOk(l: Limit, now: nat) {
    l.since <= now && l.creates <= 6 && l.failures <= 20
  }

  ghost predicate LimitsOk(limits: map<string, Limit>, now: nat) {
    |limits| <= 2000 && forall o :: o in limits ==> LimitOk(limits[o], now)
  }

  /** Misses lie in windows of at least TTL, at most twenty to a window; the last ones are those the
      open window has counted. */
  ghost predicate MissesOk(log: seq<Miss>, limits: map<string, Limit>, owner: string, now: nat) {
    && (forall i :: 0 <= i < |log| ==> log[i].since <= log[i].at < log[i].since + TTL && log[i].at <= now)
    && (forall i, j :: 0 <= i < j < |log| ==> log[i].since == log[j].since || log[i].since + TTL <= log[j].since)
    && (forall i, j :: 0 <= i < j < |log| && j == i + 20 ==> log[i].since + TTL <= log[j].since)
    && (if owner in limits then
          limits[owner].failures <= |log|
          && (forall j :: |log| - limits[owner].failures <= j < |log| ==> log[j].since == limits[owner].since)
          && (forall j :: 0 <= j < |log| - limits[owner].failures ==> log[j].since + TTL <= limits[owner].since)
        else forall j :: 0 <= j < |log| ==> log[j].since + TTL <= now)
  }

  ghost predicate SessionsOk(s: map<string, Session>) {
    |s| <= 1000 && forall owner :: |OpenSessions(s, owner)| <= 3
  }

  ghost predicate RuntimeOk(w: World) {
    LimitsOk(w.rt.limits, w.clock) && SessionsOk(w.rt.sessions)
    && forall o :: MissesOk(MissesOf(w, o), w.rt.limits, o, w.clock)
  }

  lemma LiveLimitsSize(l: map<string, Limit>, now: nat)
    ensures |LiveLimits(l, now)| <= |l|
  {
    assert LiveLimits(l, now).Keys <= l.Keys;
    SubsetCard(LiveLimits(l, now).Keys, l.Keys);
  }

  lemma {:induction false} SubsetCard<T>(a: set<T>, b: set<T>)
    requires a <= b
    ensures |a| <= |b|
    decreases |a|
  {
    if a != {} {
      var x :| x in a;
      SubsetCard(a - {x}, b - {x});
    }
  }

  lemma TouchOk(rt: Runtime, owner: string, now: nat)
    requires LimitsOk(rt.limits, now)
    ensures LimitsOk(TouchLimit(rt, owner, now).0.limits, now)
  {
    LiveLimitsSize(rt.limits, now);
  }

  lemma TouchKeepsMisses(log: seq<Miss>, rt: Runtime, owner: string, o: string, now: nat)
    requires LimitsOk(rt.limits, now) && MissesOk(log, rt.limits, o, now)
    ensures MissesOk(log, TouchLimit(rt, owner, now).0.limits, o, now)
  {
  }

  /** One more miss in the open window. */
  lemma MissCounts(log: seq<Miss>, limits: map<string, Limit>, owner: string, now: nat)
    requires LimitsOk(limits, now) && MissesOk(log, limits, owner, now)
    requires owner in limits && limits[owner].failures < 20 && now < limits[owner].since + TTL
    ensures var l := limits[owner];
            MissesOk(log + [Miss(l.since, now)], limits[owner := l.(failures := l.failures + 1)], owner, now)
  {
  }

  lemma LaterMisses(log: seq<Miss>, limits: map<string, Limit>, owner: string, t: nat, now: nat)
    requires t <= now && MissesOk(log, limits, owner, t)
    ensures MissesOk(log, limits, owner, now)
  {
  }

  lemma LiveKeepsMisses(log: seq<Miss>, limits: map<string, Limit>, o: string, now: nat)
    requires LimitsOk(limits, now) && MissesOk(log, limits, o, now)
    ensures MissesOk(log, LiveLimits(limits, now), o, now)
  {
  }

  lemma SessionsShrink(s: map<string, Session>, t: map<string, Session>)
    requires SessionsOk(s) && t.Keys <= s.Keys
    requires forall id :: id in t ==>
               t[id].owner == s[id].owner && (t[id].claimed.None? ==> s[id].claimed.None?)
                   && (s[id].cancelled ==> t[id].cancelled)
    ensures SessionsOk(t)
  {
    SubsetCard(t.Keys, s.Keys);
    forall owner ensures |OpenSessions(t, owner)| <= 3 {
      SubsetCard(OpenSessions(t, owner), OpenSessions(s, owner));
    }
  }

  lemma OpenedOk(s: map<string, Session>, id: string, p: Session)
    requires SessionsOk(s) && |s| < 1000 && |OpenSessions(s, p.owner)| < 3 && id !in s
    ensures SessionsOk(s[id := p])
  {
    var t := s[id := p];
    forall owner ensures |OpenSessions(t, owner)| <= 3 {
      if owner == p.owner {
        SubsetCard(OpenSessions(t, owner), OpenSessions(s, owner) + {id});
      } else {
        SubsetCard(OpenSessions(t, owner), OpenSessions(s, owner));
      }
    }
  }

  /** The runtime after a lookup: the window touched, and one more failure if it was refused. */
  lemma PhoneShape(rt: Runtime, owner: string, id: Option<string>, b: PhoneProof, live: bool, now: nat)
    ensures var r := PhoneSession(rt, owner, id, b, live, now).0; var t := TouchLimit(rt, owner, now);
            r.sessions == rt.sessions
            && (r.limits == t.0.limits
                || (t.1 && owner in t.0.limits && t.0.limits[owner].failures < 20
                    && r.limits == t.0.limits[owner := t.0.limits[owner].(failures := t.0.limits[owner].failures + 1)]))
  {
  }

  lemma TouchShape(rt: Runtime, owner: string, now: nat)
    ensures var t := TouchLimit(rt, owner, now).0; var live := LiveLimits(rt.limits, now);
            owner in t.limits ==> t.limits[owner].failures == (if owner in live then live[owner].failures else 0)
                                  && SatSub(now, t.limits[owner].since) < TTL
  {
  }

  lemma TouchedWorld(w: World, owner: string, now: nat)
    requires RuntimeOk(w) && w.clock <= now
    ensures var t := TouchLimit(w.rt, owner, now).0;
            LimitsOk(t.limits, now) && forall o :: MissesOk(MissesOf(w, o), t.limits, o, now)
  {
    assert LimitsOk(w.rt.limits, now);
    TouchOk(w.rt, owner, now);
    forall o ensures MissesOk(MissesOf(w, o), TouchLimit(w.rt, owner, now).0.limits, o, now) {
      LaterMisses(MissesOf(w, o), w.rt.limits, o, w.clock, now);
      TouchKeepsMisses(MissesOf(w, o), w.rt, owner, o, now);
    }
  }

  ghost predicate Counts(t: map<string, Limit>, u: map<string, Limit>, owner: string) {
    owner in t && t[owner].failures < 20 && u == t[owner := t[owner].(failures := t[owner].failures + 1)]
  }

  lemma WithRuntimeShape(w: World, owner: string, rt: Runtime, now: nat, o: string)
    ensures var before := LiveLimits(w.rt.limits, now); var v := WithRuntime(w, owner, rt, now);
            var failed := if owner in before then before[owner].failures else 0;
            v.rt == rt
            && MissesOf(v, o) == (if o == owner && owner in rt.limits && rt.limits[owner].failures > failed
                                  then MissesOf(w, o) + [Miss(rt.limits[owner].since, now)] else MissesOf(w, o))
  {
  }

  lemma CountOthers(log: seq<Miss>, t: map<string, Limit>, u: map<string, Limit>, owner: string, o: string, now: nat)
    requires LimitsOk(t, now) && MissesOk(log, t, o, now) && Counts(t, u, owner)
    ensures LimitsOk(u, now) && (o != owner ==> MissesOk(log, u, o, now))
  {
    assert LimitOk(t[owner], now);
    SubsetCard(u.Keys, t.Keys);
  }

  /** Misses follow the failures counted. */
  lemma CountedWorld(w: World, owner: string, rt: Runtime, now: nat, o: string)
    requires RuntimeOk(w) && w.clock <= now
    requires rt.limits == TouchLimit(w.rt, owner, now).0.limits
             || Counts(TouchLimit(w.rt, owner, now).0.limits, rt.limits, owner)
    ensures LimitsOk(rt.limits, now)
    ensures MissesOk(MissesOf(WithRuntime(w, owner, rt, now), o), rt.limits, o, now)
  {
    TouchedWorld(w, owner, now);
    TouchShape(w.rt, owner, now);
    WithRuntimeShape(w, owner, rt, now, o);
    var t := TouchLimit(w.rt, owner, now).0.limits;
    assert MissesOk(MissesOf(w, o), t, o, now);
    if rt.limits != t {
      CountOthers(MissesOf(w, o), t, rt.limits, owner, o, now);
      if o == owner {
        MissCounts(MissesOf(w, o), t, owner, now);
      }
    }
  }

  lemma CountedNext(w: World, owner: string, rt: Runtime, now: nat, v: World)
    requires RuntimeOk(w) && w.clock <= now && SessionsOk(rt.sessions)
    requires rt.limits == TouchLimit(w.rt, owner, now).0.limits
             || Counts(TouchLimit(w.rt, owner, now).0.limits, rt.limits, owner)
    requires v.rt == rt && v.clock == now && v.misses == WithRuntime(w, owner, rt, now).misses
    ensures RuntimeOk(v)
  {
    CountedWorld(w, owner, rt, now, owner);
    forall o ensures MissesOk(MissesOf(v, o), v.rt.limits, o, now) {
      CountedWorld(w, owner, rt, now, o);
    }
  }

  lemma LookStep(w: World, s: Step, now: nat)
    requires RuntimeOk(w) && Enabled(w, s, now) && s.Look?
    ensures RuntimeOk(Next(w, s, now))
  {
    PhoneShape(w.rt, s.owner, s.named, s.proof, s.live, now);
    CountedNext(w, s.owner, PhoneSession(w.rt, s.owner, s.named, s.proof, s.live, now).0, now, Next(w, s, now));
  }

  lemma ConfirmLimits(rt: Runtime, owner: string, id: string, b: PhoneProof, live: bool, now: nat)
    ensures Confirm(rt, owner, id, b, live, now).0.limits
            == if b.id.Some? then rt.limits else PhoneSession(rt, owner, Some(id), b, live, now).0.limits
  {
  }

  lemma ConfirmedOk(s: map<string, Session>, t: map<string, Session>, id: string)
    requires SessionsOk(s) && (t == s || (id in s && t == s[id := s[id].(confirmed := true)]))
    ensures SessionsOk(t)
  {
    SessionsShrink(s, t);
  }

  lemma ApproveStep(w: World, s: Step, now: nat)
    requires RuntimeOk(w) && Enabled(w, s, now) && s.Approve?
    ensures RuntimeOk(Next(w, s, now))
  {
    if s.proof.id.Some? {
      LaterRuntime(w, Next(w, s, now), now);
    } else {
      ApproveCounted(w, s, now);
    }
  }

  lemma ApproveCounted(w: World, s: Step, now: nat)
    requires RuntimeOk(w) && Enabled(w, s, now) && s.Approve? && s.proof.id.None?
    ensures RuntimeOk(Next(w, s, now))
  {
    PhoneShape(w.rt, s.owner, Some(s.id), s.proof, s.live, now);
    ConfirmLimits(w.rt, s.owner, s.id, s.proof, s.live, now);
    ConfirmShape(w.rt, s.owner, s.id, s.proof, s.live, now);
    var rt := Confirm(w.rt, s.owner, s.id, s.proof, s.live, now).0;
    ConfirmedOk(w.rt.sessions, rt.sessions, s.id);
    CountedNext(w, s.owner, rt, now, Next(w, s, now));
  }

  lemma CreateShape(rt: Runtime, owner: string, id: string, p: Session, live: bool, now: nat)
    requires p.owner == owner && p.expires == now + TTL && !p.confirmed && !p.cancelled && p.claimed.None?
    ensures var r := Create(rt, owner, id, p, live, now); var t := TouchLimit(Prune(rt, now), owner, now).0;
            t.sessions == Prune(rt, now).sessions
            && (r.0 == t
                || (owner in t.limits && t.limits[owner].creates < 6 && |t.sessions| < 1000
                    && |OpenSessions(t.sessions, owner)| < 3
                    && r.0 == Runtime(t.sessions[id := p],
                                      t.limits[owner := t.limits[owner].(creates := t.limits[owner].creates + 1)])))
  {
  }

  lemma MoreCreates(w: World, t: map<string, Limit>, u: map<string, Limit>, owner: string, now: nat)
    requires LimitsOk(t, now) && forall o :: MissesOk(MissesOf(w, o), t, o, now)
    requires owner in t && t[owner].creates < 6 && u == t[owner := t[owner].(creates := t[owner].creates + 1)]
    ensures LimitsOk(u, now) && forall o :: MissesOk(MissesOf(w, o), u, o, now)
  {
    SubsetCard(u.Keys, t.Keys);
    assert LimitOk(t[owner], now);
    forall o ensures MissesOk(MissesOf(w, o), u, o, now) {
      assert MissesOk(MissesOf(w, o), t, o, now);
    }
  }

  lemma PrunedWorld(w: World, now: nat)
    requires RuntimeOk(w) && w.clock <= now
    ensures LimitsOk(Prune(w.rt, now).limits, now) && SessionsOk(Prune(w.rt, now).sessions)
    ensures forall o :: MissesOk(MissesOf(w, o), Prune(w.rt, now).limits, o, now)
  {
    assert LimitsOk(w.rt.limits, now);
    LiveLimitsSize(w.rt.limits, now);
    SessionsShrink(w.rt.sessions, Prune(w.rt, now).sessions);
    forall o ensures MissesOk(MissesOf(w, o), Prune(w.rt, now).limits, o, now) {
      LaterMisses(MissesOf(w, o), w.rt.limits, o, w.clock, now);
      LiveKeepsMisses(MissesOf(w, o), w.rt.limits, o, now);
    }
  }

  lemma NewId(w: World, s: Step, now: nat)
    requires PairingsOk(w) && Enabled(w, s, now) && s.Open?
    ensures s.id !in w.rt.sessions
  {
    assert forall id :: id in w.rt.sessions ==> SessionOk(w, id) && id in w.issued;
  }

  lemma CreateOk(w: World, owner: string, id: string, p: Session, live: bool, now: nat)
    requires RuntimeOk(w) && w.clock <= now && id !in w.rt.sessions
    requires p.owner == owner && p.expires == now + TTL && !p.confirmed && !p.cancelled && p.claimed.None?
    ensures var r := Create(w.rt, owner, id, p, live, now).0;
            LimitsOk(r.limits, now) && SessionsOk(r.sessions) && forall o :: MissesOk(MissesOf(w, o), r.limits, o, now)
  {
    PrunedWorld(w, now);
    var q := w.(rt := Prune(w.rt, now), clock := now);
    assert forall o :: MissesOf(q, o) == MissesOf(w, o);
    assert RuntimeOk(q);
    TouchedWorld(q, owner, now);
    CreateShape(w.rt, owner, id, p, live, now);
    var t := TouchLimit(q.rt, owner, now).0;
    var r := Create(w.rt, owner, id, p, live, now).0;
    if r != t {
      OpenedOk(t.sessions, id, p);
      MoreCreates(w, t.limits, r.limits, owner, now);
    }
  }

  lemma OpenStep(w: World, s: Step, now: nat)
    requires RuntimeOk(w) && PairingsOk(w) && Enabled(w, s, now) && s.Open?
    ensures RuntimeOk(Next(w, s, now))
  {
    NewId(w, s, now);
    CreateOk(w, s.owner, s.id, s.p, s.live, now);
    assert forall o :: MissesOf(Next(w, s, now), o) == MissesOf(w, o);
  }

  lemma LaterRuntime(w: World, v: World, now: nat)
    requires RuntimeOk(w) && w.clock <= now && v.clock == now && v.misses == w.misses && v.rt.limits == w.rt.limits
    requires SessionsOk(v.rt.sessions)
    ensures RuntimeOk(v)
  {
    forall o ensures MissesOk(MissesOf(v, o), v.rt.limits, o, now) {
      LaterMisses(MissesOf(w, o), w.rt.limits, o, w.clock, now);
    }
  }

  lemma ClaimShape(rt: Runtime, d: Option<Account>, owner: string, id: string, desktop: string, token: string,
                   target: string, live: bool, saved: bool, now: nat)
    ensures var r := Claim(rt, d, owner, id, desktop, token, target, live, saved, now).rt;
            r == rt
            || (id in rt.sessions
                && var p := rt.sessions[id].(claimed := Some(Claiming(target, token)));
                   r == rt.(sessions := rt.sessions[id := p]))
  {
  }

  lemma EnrollShape(w: World, s: Step, now: nat)
    requires Enabled(w, s, now) && s.Enroll?
    ensures var v := Next(w, s, now);
            v.misses == w.misses && v.clock == now
            && (v.rt == w.rt
                || v.rt == Claim(w.rt, AccountOf(w, s.owner), s.owner, s.id, s.desktop, s.token, s.target, s.live,
                                 s.saved, now).rt)
  {
  }

  lemma ClaimKeepsSessions(s: map<string, Session>, id: string, c: Claiming)
    requires SessionsOk(s) && id in s
    ensures SessionsOk(s[id := s[id].(claimed := Some(c))])
  {
    SessionsShrink(s, s[id := s[id].(claimed := Some(c))]);
  }

  lemma EnrollStep(w: World, s: Step, now: nat)
    requires RuntimeOk(w) && Enabled(w, s, now) && s.Enroll?
    ensures RuntimeOk(Next(w, s, now))
  {
    ClaimShape(w.rt, AccountOf(w, s.owner), s.owner, s.id, s.desktop, s.token, s.target, s.live, s.saved, now);
    EnrollShape(w, s, now);
    if Next(w, s, now).rt != w.rt {
      ClaimKeepsSessions(w.rt.sessions, s.id, Claiming(s.target, s.token));
    }
    LaterRuntime(w, Next(w, s, now), now);
  }

  lemma AbandonStep(w: World, s: Step, now: nat)
    requires RuntimeOk(w) && Enabled(w, s, now) && (s.Abandon? || s.AbandonAll?)
    ensures RuntimeOk(Next(w, s, now))
  {
    SessionsShrink(w.rt.sessions, Next(w, s, now).rt.sessions);
    LaterRuntime(w, Next(w, s, now), now);
  }

  lemma TidyStep(w: World, s: Step, now: nat)
    requires RuntimeOk(w) && Enabled(w, s, now) && s.Tidy?
    ensures RuntimeOk(Next(w, s, now))
  {
    PrunedWorld(w, now);
    assert forall o :: MissesOf(Next(w, s, now), o) == MissesOf(w, o);
  }

  lemma RestartedStep(w: World, s: Step, now: nat)
    requires Enabled(w, s, now) && s.Restart?
    ensures RuntimeOk(Next(w, s, now))
  {
    assert forall owner :: OpenSessions(Next(w, s, now).rt.sessions, owner) == {};
  }

  lemma RuntimeStep(w: World, s: Step, now: nat)
    requires RuntimeOk(w) && PairingsOk(w) && Enabled(w, s, now)
    ensures RuntimeOk(Next(w, s, now))
  {
    if s.Open? {
      OpenStep(w, s, now);
    } else if s.Look? {
      LookStep(w, s, now);
    } else if s.Approve? {
      ApproveStep(w, s, now);
    } else if s.Enroll? {
      EnrollStep(w, s, now);
    } else if s.Abandon? || s.AbandonAll? {
      AbandonStep(w, s, now);
    } else if s.Tidy? {
      TidyStep(w, s, now);
    } else if s.Restart? {
      RestartedStep(w, s, now);
    } else {
      LaterRuntime(w, Next(w, s, now), now);
    }
  }

  /** Forty-one refused proofs of one account take longer than a pairing lives. */
  lemma GuessesAreBounded(w: World, owner: string, i: nat)
    requires RuntimeOk(w) && i + 40 < |MissesOf(w, owner)|
    ensures MissesOf(w, owner)[i + 40].at - MissesOf(w, owner)[i].at > TTL
  {
    var log := MissesOf(w, owner);
    assert MissesOk(log, w.rt.limits, owner, w.clock);
    assert log[i].since + TTL <= log[i + 20].since;
    assert log[i + 20].since + TTL <= log[i + 40].since;
  }

  // ---- Runs -----------------------------------------------------------------------------------------

  const INIT := World(Runtime(map[], map[]), map[], 0, {}, {}, {}, [], map[])

  datatype Timed = Timed(step: Step, now: nat)

  ghost predicate Good(w: World) {
    PairingsOk(w) && AccountsOk(w, w.clock) && RuntimeOk(w)
  }

  ghost predicate Run(w: World, steps: seq<Timed>)
    decreases |steps|
  {
    steps == [] || (Enabled(w, steps[0].step, steps[0].now) && Run(Next(w, steps[0].step, steps[0].now), steps[1..]))
  }

  ghost function Final(w: World, steps: seq<Timed>): World
    requires Run(w, steps)
    decreases |steps|
  {
    if steps == [] then w else Final(Next(w, steps[0].step, steps[0].now), steps[1..])
  }

  lemma MadeGrows(w: World, s: Step, now: nat)
    requires Enabled(w, s, now)
    ensures w.made <= Next(w, s, now).made
  {
  }

  lemma {:induction false} GoodAlong(w: World, steps: seq<Timed>)
    requires Good(w) && Run(w, steps)
    ensures Good(Final(w, steps)) && w.made <= Final(w, steps).made
    decreases |steps|
  {
    if steps != [] {
      var s := steps[0];
      PairingsStep(w, s.step, s.now);
      AccountsStep(w, s.step, s.now);
      RuntimeStep(w, s.step, s.now);
      MadeGrows(w, s.step, s.now);
      GoodAlong(Next(w, s.step, s.now), steps[1..]);
    }
  }

  lemma Always(steps: seq<Timed>)
    requires Run(INIT, steps)
    ensures Good(Final(INIT, steps))
  {
    assert forall owner :: OpenSessions(INIT.rt.sessions, owner) == {};
    assert Good(INIT);
    GoodAlong(INIT, steps);
  }

  /** One pairing makes at most one target in all its life, only once it was confirmed, and never
      if it was cancelled before or after. */
  lemma OneTargetPerPairing(steps: seq<Timed>)
    requires Run(INIT, steps)
    ensures var w := Final(INIT, steps);
            (forall i, j :: 0 <= i < j < |w.made| ==> w.made[i].pairing != w.made[j].pairing)
            && (forall m :: m in w.made ==> m.pairing in w.confirmed && m.pairing !in w.cancelled)
  {
    Always(steps);
    var w := Final(INIT, steps);
    forall i, j | 0 <= i < j < |w.made|
      ensures w.made[i].pairing != w.made[j].pairing
    {
      assert PairingOf()(w.made[i]) != PairingOf()(w.made[j]);
    }
  }

  /** The step is a claim that, here and now, is answered with the target t. */
  ghost predicate Answers(w: World, s: Step, now: nat, t: string) {
    s.Enroll? && Enabled(w, s, now)
    && Claim(w.rt, AccountOf(w, s.owner), s.owner, s.id, s.desktop, s.token, s.target, s.live, s.saved, now).reply
         == Ok(t)
  }

  /** A claim that names a target names one made for this pairing with this token; when the pairing
      had one already, the claim changes nothing. */
  lemma ClaimNamesItsTarget(w: World, s: Step, now: nat, t: string)
    requires PairingsOk(w) && Answers(w, s, now, t)
    ensures Made(s.id, t, s.token) in Next(w, s, now).made
    ensures WasMade(w.made, s.id) ==> After(w, s, now) == w && t != s.target
  {
    assert SessionOk(w, s.id);
  }

  lemma AnswersAgree(w: World, s: Step, now: nat, t: string, more: seq<Timed>, s': Step, now': nat, t': string)
    requires Good(w) && Answers(w, s, now, t) && Run(Next(w, s, now), more)
    requires Answers(Final(Next(w, s, now), more), s', now', t') && s'.id == s.id
    ensures t == t' && s.token == s'.token
  {
    ClaimNamesItsTarget(w, s, now, t);
    PairingsStep(w, s, now);
    AccountsStep(w, s, now);
    RuntimeStep(w, s, now);
    var n := Next(w, s, now);
    GoodAlong(n, more);
    var v := Final(n, more);
    ClaimNamesItsTarget(v, s', now', t');
    PairingsStep(v, s', now');
    MadeGrows(v, s', now');
    SameMade(Next(v, s', now').made, Made(s.id, t, s.token), Made(s.id, t', s'.token));
  }

  /** Retries with any tokens, at any two times of a run, name the same target or are refused. */
  lemma ClaimsAgree(steps: seq<Timed>, s: Step, now: nat, t: string, more: seq<Timed>, s': Step, now': nat, t': string)
    requires Run(INIT, steps)
    ensures var w := Final(INIT, steps);
            Answers(w, s, now, t) && Run(Next(w, s, now), more)
            && Answers(Final(Next(w, s, now), more), s', now', t') && s'.id == s.id
            ==> t == t' && s.token == s'.token
  {
    Always(steps);
    var w := Final(INIT, steps);
    if Answers(w, s, now, t) && Run(Next(w, s, now), more)
       && Answers(Final(Next(w, s, now), more), s', now', t') && s'.id == s.id
    {
      AnswersAgree(w, s, now, t, more, s', now', t');
    }
  }

  lemma SameMade(made: seq<Made>, a: Made, b: Made)
    requires Distinct(made, PairingOf()) && a in made && b in made && a.pairing == b.pairing
    ensures a == b
  {
    var i :| 0 <= i < |made| && made[i] == a;
    var j :| 0 <= j < |made| && made[j] == b;
    assert PairingOf()(made[i]) == PairingOf()(made[j]);
  }

  /** In every account, at every time, at most twenty targets with distinct ids and devices. */
  lemma DevicesStayDistinct(steps: seq<Timed>, owner: string)
    requires Run(INIT, steps)
    ensures owner in Final(INIT, steps).accounts ==>
              var t := Final(INIT, steps).accounts[owner].targets;
              |t| <= 20 && forall i, j :: 0 <= i < j < |t| ==> t[i].deviceId != t[j].deviceId && t[i].id != t[j].id
  {
    Always(steps);
    var w := Final(INIT, steps);
    if owner in w.accounts {
      var t := w.accounts[owner].targets;
      forall i, j | 0 <= i < j < |t|
        ensures t[i].deviceId != t[j].deviceId && t[i].id != t[j].id
      {
        assert DeviceId()(t[i]) != DeviceId()(t[j]) && TargetId()(t[i]) != TargetId()(t[j]);
      }
    }
  }

  /** In every run since a restart, an account has at most forty phone proofs refused while one of
      its pairings lives, opens at most six pairings a window and three at a time. */
  lemma LimitsHold(steps: seq<Timed>, owner: string, i: nat)
    requires Run(INIT, steps)
    ensures var w := Final(INIT, steps); var log := MissesOf(w, owner);
            (i + 40 < |log| ==> log[i + 40].at - log[i].at > TTL)
            && (owner in w.rt.limits ==> w.rt.limits[owner].creates <= 6 && w.rt.limits[owner].failures <= 20)
            && |OpenSessions(w.rt.sessions, owner)| <= 3 && |w.rt.sessions| <= 1000
  {
    Always(steps);
    var w := Final(INIT, steps);
    if i + 40 < |MissesOf(w, owner)| {
      GuessesAreBounded(w, owner, i);
    }
    assert owner in w.rt.limits ==> LimitOk(w.rt.limits[owner], w.clock);
  }
}
