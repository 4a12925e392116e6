/** The account's wake data: targets, helpers and requests, with the phase logic and the
    bounded history of crates/rdesk_server/src/wake/model.rs. Times are server milliseconds. */
module WakeModel {
  import opened Wrappers
  import opened Seqs

  const REQUEST_TTL_MS: nat := 30_000
  const OBSERVE_MS: nat := 120_000
  const FRESH_MS: nat := 30_000
  const WEEK_MS: nat := 604_800_000
  const HISTORY_CAP: nat := 50
  const RATE_WINDOW_MS: nat := 60_000
  const RATE_LIMIT: nat := 10

  type Mac = seq<bv8>

  function SatSub(a: nat, b: nat): nat {
    if a >= b then a - b else 0
  }

  datatype WakePhase =
    | Queued | Claimed | Sent
    | Online | Unconfirmed | Expired | Failed | Cancelled | Interrupted
  {
    predicate Active() { Queued? || Claimed? || Sent? }

    /** Position in the life of a request; terminal phases share the last place. */
    function Rank(): nat {
      match this
      case Queued => 0
      case Claimed => 1
      case Sent => 2
      case _ => 3
    }

    /** The helper has reported three written packets. */
    predicate Delivered() { Sent? || Online? || Unconfirmed? }
  }

  datatype WakeTarget = WakeTarget(
    setupComplete: bool, id: string, name: string, deviceId: string, mac: Mac,
    agentId: string, revision: nat, tokenHash: string, createdAt: nat)

  datatype WakeAgent = WakeAgent(id: string, name: string, tokenHash: string, enabled: bool)

  datatype WakeRequest = WakeRequest(
    id: string, targetId: string, agentId: string, targetRevision: nat,
    createdAt: nat, expiresAt: nat, observeUntil: nat, phase: WakePhase,
    claimedAt: Option<nat>, authorizedAt: Option<nat>, sentAt: Option<nat>,
    onlineAt: Option<nat>, errorCode: Option<string>)
  {
    function Advance(now: nat, heartbeat: Option<nat>): WakeRequest {
      if phase == Sent then
        if ObservedOnline(createdAt, sentAt, heartbeat, now) then this.(phase := Online, onlineAt := heartbeat)
        else if now >= observeUntil then this.(phase := Unconfirmed)
        else this
      else if (phase == Queued || phase == Claimed) && now >= expiresAt then this.(phase := WakePhase.Expired)
      else this
    }

    function Cancel(): WakeRequest {
      if phase.Active() then this.(phase := Cancelled) else this
    }

    function Interrupt(): WakeRequest {
      if phase.Active() then this.(phase := Interrupted, errorCode := Some("server_restarted")) else this
    }
  }

  predicate ObservedOnline(created: nat, sent: Option<nat>, heartbeat: Option<nat>, now: nat) {
    && sent.Some?
    && heartbeat.Some?
    && heartbeat.value > created && heartbeat.value <= now && now - heartbeat.value < FRESH_MS
  }

  datatype Account = Account(targets: seq<WakeTarget>, agents: seq<WakeAgent>, requests: seq<WakeRequest>)
  {
    function Prune(now: nat): Account {
      this.(requests := PruneRequests(requests, now))
    }

    function RecoverAfterRestart(now: nat): Account {
      this.(requests := Apply(PruneRequests(requests, now), Interrupting()))
    }

    function CancelTarget(id: string): Account {
      this.(requests := Apply(requests, Cancelling(OfTarget(id))))
    }

    function CancelAgent(id: string): Account {
      this.(requests := Apply(requests, Cancelling(OfAgent(id))))
    }
  }

  function OfTarget(id: string): WakeRequest -> bool { (r: WakeRequest) => r.targetId == id }

  function OfAgent(id: string): WakeRequest -> bool { (r: WakeRequest) => r.agentId == id }

  function Cancelling(p: WakeRequest -> bool): WakeRequest -> WakeRequest {
    (r: WakeRequest) => if p(r) then r.Cancel() else r
  }

  function Interrupting(): WakeRequest -> WakeRequest { (r: WakeRequest) => r.Interrupt() }

  function Recent(now: nat): WakeRequest -> bool {
    (r: WakeRequest) => SatSub(now, r.createdAt) < WEEK_MS
  }

  /** Stable insertion behind every request that is at least as new. */
  function InsertByAge(s: seq<WakeRequest>, r: WakeRequest): seq<WakeRequest> {
    if s == [] || s[|s| - 1].createdAt >= r.createdAt then s + [r]
    else InsertByAge(s[..|s| - 1], r) + [s[|s| - 1]]
  }

  /** The stable sort by descending creation time. */
  function NewestFirst(s: seq<WakeRequest>): seq<WakeRequest> {
    if s == [] then [] else InsertByAge(NewestFirst(s[..|s| - 1]), s[|s| - 1])
  }

  function Truncate(s: seq<WakeRequest>): seq<WakeRequest> {
    if |s| <= HISTORY_CAP then s else s[..HISTORY_CAP]
  }

  function PruneRequests(s: seq<WakeRequest>, now: nat): seq<WakeRequest> {
    Truncate(NewestFirst(Filter(s, Recent(now))))
  }

  predicate SortedByAge(s: seq<WakeRequest>) {
    forall i, j :: 0 <= i < j < |s| ==> s[i].createdAt >= s[j].createdAt
  }

  lemma {:induction false} InsertByAgeAdds(s: seq<WakeRequest>, r: WakeRequest)
    ensures multiset(InsertByAge(s, r)) == multiset(s) + multiset{r}
  {
    if !(s == [] || s[|s| - 1].createdAt >= r.createdAt) {
      var n := |s| - 1;
      assert s == s[..n] + [s[n]];
      InsertByAgeAdds(s[..n], r);
    }
  }

  lemma {:induction false} InsertByAgeSorted(s: seq<WakeRequest>, r: WakeRequest)
    requires SortedByAge(s)
    ensures SortedByAge(InsertByAge(s, r))
  {
    if !(s == [] || s[|s| - 1].createdAt >= r.createdAt) {
      var n := |s| - 1;
      InsertByAgeSorted(s[..n], r);
      InsertByAgeAdds(s[..n], r);
      var t := InsertByAge(s[..n], r);
      forall i | 0 <= i < |t|
        ensures t[i].createdAt >= s[n].createdAt
      {
        assert t[i] in multiset(s[..n]) + multiset{r};
        assert t[i] == r || t[i] in s[..n];
      }
    }
  }

  lemma {:induction false} NewestFirstSorts(s: seq<WakeRequest>)
    ensures SortedByAge(NewestFirst(s)) && multiset(NewestFirst(s)) == multiset(s)
  {
    if s != [] {
      var n := |s| - 1;
      assert s == s[..n] + [s[n]];
      NewestFirstSorts(s[..n]);
      InsertByAgeSorted(NewestFirst(s[..n]), s[n]);
      InsertByAgeAdds(NewestFirst(s[..n]), s[n]);
    }
  }

  /** Pruning only drops requests: it never invents, changes or repeats one, and leaves the newest first. */
  lemma PruneSub(s: seq<WakeRequest>, now: nat)
    ensures SortedByAge(PruneRequests(s, now))
    ensures multiset(PruneRequests(s, now)) <= multiset(s)
    ensures |PruneRequests(s, now)| <= HISTORY_CAP
    ensures forall r :: r in PruneRequests(s, now) ==> r in s && Recent(now)(r)
  {
    var kept := Filter(s, Recent(now));
    var sorted := NewestFirst(kept);
    FilterSub(s, Recent(now));
    NewestFirstSorts(kept);
    var short := Truncate(sorted);
    assert sorted == short + sorted[|short|..];
    assert multiset(sorted) == multiset(short) + multiset(sorted[|short|..]);
    forall r | r in short
      ensures r in s && Recent(now)(r)
    {
      assert r in multiset(sorted);
      assert r in multiset(kept);
    }
  }

  // ---- Bounded history -------------------------------------------------------------

  function InWindow(t: nat): WakeRequest -> bool {
    (r: WakeRequest) => t <= r.createdAt < t + RATE_WINDOW_MS
  }

  /** At most ten stored requests were created in any one minute. */
  ghost predicate Paced(s: seq<WakeRequest>) {
    forall t: nat :: Count(s, InWindow(t)) <= RATE_LIMIT
  }

  ghost predicate CreatedBy(s: seq<WakeRequest>, now: nat) {
    forall r :: r in s ==> r.createdAt <= now
  }

  lemma PacedSub(s: seq<WakeRequest>, t: seq<WakeRequest>)
    requires Paced(s) && multiset(t) <= multiset(s)
    ensures Paced(t)
  {
    forall w: nat
      ensures Count(t, InWindow(w)) <= RATE_LIMIT
    {
      CountSub(s, t, InWindow(w));
    }
  }

  /** In a newest-first history any eleven neighbours span at least a minute. */
  lemma ElevenSpanAMinute(s: seq<WakeRequest>, i: nat)
    requires SortedByAge(s) && Paced(s) && i + RATE_LIMIT < |s|
    ensures s[i].createdAt >= s[i + RATE_LIMIT].createdAt + RATE_WINDOW_MS
  {
    var w := s[i + RATE_LIMIT].createdAt;
    if s[i].createdAt < w + RATE_WINDOW_MS {
      CountSlice(s, i, i + RATE_LIMIT + 1, InWindow(w));
    }
  }

  lemma FiftySpanFiveMinutes(s: seq<WakeRequest>, k: nat)
    requires SortedByAge(s) && Paced(s) && HISTORY_CAP <= k < |s|
    ensures s[0].createdAt >= s[k].createdAt + 300_000
  {
    ElevenSpanAMinute(s, k - 10);
    ElevenSpanAMinute(s, k - 20);
    ElevenSpanAMinute(s, k - 30);
    ElevenSpanAMinute(s, k - 40);
    ElevenSpanAMinute(s, k - 50);
  }

  lemma TruncateKeepsFront(s: seq<WakeRequest>)
    ensures forall i :: 0 <= i < |s| && i < HISTORY_CAP ==> s[i] in Truncate(s)
  {
    forall i | 0 <= i < |s| && i < HISTORY_CAP
      ensures s[i] in Truncate(s)
    {
      assert Truncate(s)[i] == s[i];
    }
  }

  /** The history cap never evicts a request that is still observed: whatever pruning drops
      is at least five minutes old, longer than every observation window. */
  lemma HistoryCapIsSafe(s: seq<WakeRequest>, now: nat, r: WakeRequest)
    requires Paced(s) && CreatedBy(s, now)
    requires r in s && r !in PruneRequests(s, now)
    ensures now >= r.createdAt + 300_000
    ensures r.observeUntil == r.createdAt + OBSERVE_MS ==> now > r.observeUntil
  {
    if Recent(now)(r) {
      var kept := Filter(s, Recent(now));
      var sorted := NewestFirst(kept);
      NewestFirstSorts(kept);
      FilterSub(s, Recent(now));
      PacedSub(s, sorted);
      assert r in multiset(kept);
      var k :| 0 <= k < |sorted| && sorted[k] == r;
      TruncateKeepsFront(sorted);
      FiftySpanFiveMinutes(sorted, k);
      assert sorted[0] in multiset(kept);
    }
  }

  /** The rate limit keeps a history paced: nine others in the last minute leave room for one. */
  lemma PacedAfterCreation(s: seq<WakeRequest>, r: WakeRequest)
    requires Paced(s) && CreatedBy(s, r.createdAt)
    requires Count(s, LastMinute(r.createdAt)) < RATE_LIMIT
    ensures Paced(s + [r])
  {
    forall t: nat
      ensures Count(s + [r], InWindow(t)) <= RATE_LIMIT
    {
      CountAppend(s, r, InWindow(t));
      if InWindow(t)(r) {
        CountMonotone(s, InWindow(t), LastMinute(r.createdAt));
      }
    }
  }

  function LastMinute(now: nat): WakeRequest -> bool {
    (r: WakeRequest) => SatSub(now, r.createdAt) < RATE_WINDOW_MS
  }

  /** The request just created survives the pruning of its own commit. */
  lemma NewestSurvivesPruning(s: seq<WakeRequest>, r: WakeRequest)
    requires Paced(s + [r]) && CreatedBy(s, r.createdAt)
    ensures r in PruneRequests(s + [r], r.createdAt)
  {
    var all := s + [r];
    assert CreatedBy(all, r.createdAt);
    if r !in PruneRequests(all, r.createdAt) {
      HistoryCapIsSafe(all, r.createdAt, r);
    }
  }

  // ---- Phases ------------------------------------------------------------------------

  /** What any server step may do to one stored request. */
  ghost predicate Progresses(r: WakeRequest, q: WakeRequest) {
    && SameRequest(r, q)
    && (q.phase == r.phase || q.phase.Rank() > r.phase.Rank())
    && (r.claimedAt.Some? ==> q.claimedAt == r.claimedAt)
    && (r.authorizedAt.Some? ==> q.authorizedAt == r.authorizedAt)
    && (r.sentAt.Some? ==> q.sentAt == r.sentAt)
  }

  ghost predicate SameRequest(r: WakeRequest, q: WakeRequest) {
    && q.id == r.id && q.targetId == r.targetId && q.agentId == r.agentId
    && q.targetRevision == r.targetRevision && q.createdAt == r.createdAt
    && q.expiresAt == r.expiresAt && q.observeUntil == r.observeUntil
  }

  /** The times recorded on a request agree with its phase, with each other and with the clock. */
  ghost predicate Timely(r: WakeRequest, now: nat) {
    && r.expiresAt == r.createdAt + REQUEST_TTL_MS
    && r.observeUntil == r.createdAt + OBSERVE_MS
    && r.createdAt <= now
    && (r.claimedAt.Some? ==> r.createdAt <= r.claimedAt.value <= now)
    && (r.authorizedAt.Some? ==>
          r.claimedAt.Some? && r.claimedAt.value <= r.authorizedAt.value < r.expiresAt && r.authorizedAt.value <= now)
    && (r.sentAt.Some? ==>
          r.authorizedAt.Some? && r.authorizedAt.value <= r.sentAt.value < r.expiresAt && r.sentAt.value <= now)
    && (r.phase.Queued? ==> r.claimedAt.None?)
    && (r.phase.Claimed? ==> r.claimedAt.Some? && r.sentAt.None?)
    && (r.phase.Delivered() <==> r.sentAt.Some? && !r.phase.Cancelled? && !r.phase.Interrupted?)
    && (r.phase.Online? ==> r.onlineAt.Some? && r.createdAt < r.onlineAt.value <= now)
  }

  lemma AdvanceProgresses(r: WakeRequest, now: nat, heartbeat: Option<nat>)
    requires Timely(r, now)
    ensures Progresses(r, r.Advance(now, heartbeat)) && Timely(r.Advance(now, heartbeat), now)
  {
  }

  /** From every reachable request, advancing at or after the end of observation is terminal. */
  lemma AdvanceTerminates(r: WakeRequest, now: nat, heartbeat: Option<nat>)
    requires Timely(r, now) && now >= r.observeUntil
    ensures !r.Advance(now, heartbeat).phase.Active()
    ensures r.phase == Sent ==> r.Advance(now, heartbeat).phase.Delivered()
  {
  }

  /** A request's history changes phase at most three times, and a terminal phase is final. */
  lemma {:induction false} AtMostThreePhaseChanges(h: seq<WakeRequest>)
    requires h != []
    requires forall i :: 0 <= i < |h| - 1 ==> Progresses(h[i], h[i + 1])
    ensures PhaseChanges(h) + h[0].phase.Rank() <= h[|h| - 1].phase.Rank() <= 3
    ensures h[0].phase.Rank() == 3 ==> h[|h| - 1].phase == h[0].phase
  {
    if |h| > 1 {
      var init := h[..|h| - 1];
      assert Progresses(h[|h| - 2], h[|h| - 1]);
      AtMostThreePhaseChanges(init);
    }
  }

  function PhaseChanges(h: seq<WakeRequest>): nat {
    if |h| <= 1 then 0
    else PhaseChanges(h[..|h| - 1]) + (if h[|h| - 1].phase != h[|h| - 2].phase then 1 else 0)
  }
}
