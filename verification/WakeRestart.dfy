/** Restarting twice is restarting once: the recovery of an already recovered account, or of
    the unrecovered file it was loaded from, gives the same account. */
module WakeRestart {
  import opened Wrappers
  import opened Seqs
  import opened WakeModel

  lemma FilterStep(s: seq<WakeRequest>, x: WakeRequest, p: WakeRequest -> bool)
    ensures Filter(s + [x], p) == if p(x) then Filter(s, p) + [x] else Filter(s, p)
  {
    FilterAppend(s, x, p);
  }

  lemma {:induction false} FilterTwice(s: seq<WakeRequest>, p: WakeRequest -> bool, q: WakeRequest -> bool)
    requires forall r :: r in s && q(r) ==> p(r)
    ensures Filter(Filter(s, p), q) == Filter(s, q)
  {
    if s != [] {
      var n := |s| - 1;
      var t, x := s[..n], s[n];
      assert s == t + [x] && x in s;
      FilterTwice(t, p, q);
      FilterStep(t, x, p);
      FilterStep(t, x, q);
      FilterStep(Filter(t, p), x, q);
    }
  }

  lemma InsertAfter(s: seq<WakeRequest>, x: WakeRequest, r: WakeRequest)
    ensures InsertByAge(s + [x], r) == if x.createdAt >= r.createdAt then s + [x] + [r] else InsertByAge(s, r) + [x]
  {
    assert (s + [x])[..|s|] == s;
  }

  /** Inserting then filtering by age is filtering then inserting. */
  lemma {:induction false} FilterInsert(s: seq<WakeRequest>, r: WakeRequest, now: nat)
    requires SortedByAge(s)
    ensures Filter(InsertByAge(s, r), Recent(now)) ==
            if Recent(now)(r) then InsertByAge(Filter(s, Recent(now)), r) else Filter(s, Recent(now))
  {
    var n := |s| - 1;
    if s == [] || s[n].createdAt >= r.createdAt {
      FilterAppend(s, r, Recent(now));
    } else {
      FilterInsert(s[..n], r, now);
      FilterAppend(InsertByAge(s[..n], r), s[n], Recent(now));
      if Recent(now)(s[n]) {
        InsertAfter(Filter(s[..n], Recent(now)), s[n], r);
      }
    }
  }

  lemma {:induction false} FilterSorted(s: seq<WakeRequest>, now: nat)
    ensures Filter(NewestFirst(s), Recent(now)) == NewestFirst(Filter(s, Recent(now)))
  {
    if s != [] {
      var n := |s| - 1;
      FilterSorted(s[..n], now);
      NewestFirstSorts(s[..n]);
      FilterInsert(NewestFirst(s[..n]), s[n], now);
      if Recent(now)(s[n]) {
        var kept := Filter(s[..n], Recent(now));
        assert (kept + [s[n]])[..|kept|] == kept;
      }
    }
  }

  lemma {:induction false} FilterConcat(s: seq<WakeRequest>, t: seq<WakeRequest>, p: WakeRequest -> bool)
    ensures Filter(s + t, p) == Filter(s, p) + Filter(t, p)
  {
    if t == [] {
      assert s + t == s;
    } else {
      var n := |t| - 1;
      assert s + t == (s + t[..n]) + [t[n]];
      FilterConcat(s, t[..n], p);
      FilterAppend(s + t[..n], t[n], p);
    }
  }

  lemma {:induction false} FilterAll(s: seq<WakeRequest>, p: WakeRequest -> bool)
    requires forall r :: r in s ==> p(r)
    ensures Filter(s, p) == s
  {
    if s != [] {
      var n := |s| - 1;
      assert s == s[..n] + [s[n]];
      FilterAll(s[..n], p);
    }
  }

  lemma {:induction false} FilterNone(s: seq<WakeRequest>, p: WakeRequest -> bool)
    requires forall r :: r in s ==> !p(r)
    ensures Filter(s, p) == []
  {
    if s != [] {
      FilterNone(s[..|s| - 1], p);
    }
  }

  lemma {:induction false} FilterShorter(s: seq<WakeRequest>, p: WakeRequest -> bool, r: WakeRequest)
    requires r in s && !p(r)
    ensures |Filter(s, p)| < |s|
  {
    var n := |s| - 1;
    if r in s[..n] {
      FilterShorter(s[..n], p, r);
    }
  }

  /** Newest first, so once one of the first fifty is too old everything behind it is. */
  lemma TruncateFilter(s: seq<WakeRequest>, now: nat)
    requires SortedByAge(s)
    ensures Filter(Truncate(s), Recent(now)) == Truncate(Filter(s, Recent(now)))
  {
    if |s| > HISTORY_CAP {
      var a, b := s[..HISTORY_CAP], s[HISTORY_CAP..];
      assert s == a + b;
      FilterConcat(a, b, Recent(now));
      if r :| r in a && !Recent(now)(r) {
        forall q | q in b
          ensures !Recent(now)(q)
        {
          assert r.createdAt >= q.createdAt;
        }
        FilterNone(b, Recent(now));
        FilterShorter(a, Recent(now), r);
      } else {
        FilterAll(a, Recent(now));
      }
    }
  }

  lemma {:induction false} SortedIsFixed(s: seq<WakeRequest>)
    requires SortedByAge(s)
    ensures NewestFirst(s) == s
  {
    if s != [] {
      var n := |s| - 1;
      SortedIsFixed(s[..n]);
      assert s == s[..n] + [s[n]];
    }
  }

  lemma FilterRecentTwice(s: seq<WakeRequest>, now: nat, later: nat)
    requires now <= later
    ensures Filter(Filter(s, Recent(now)), Recent(later)) == Filter(s, Recent(later))
  {
    assert forall r: WakeRequest :: Recent(later)(r) ==> Recent(now)(r);
    FilterTwice(s, Recent(now), Recent(later));
  }

  lemma FilterShort(s: seq<WakeRequest>, now: nat)
    ensures Filter(Truncate(NewestFirst(s)), Recent(now)) == Truncate(NewestFirst(Filter(s, Recent(now))))
  {
    NewestFirstSorts(s);
    TruncateFilter(NewestFirst(s), now);
    FilterSorted(s, now);
  }

  lemma SortShort(s: seq<WakeRequest>)
    ensures NewestFirst(Truncate(NewestFirst(s))) == Truncate(NewestFirst(s))
  {
    NewestFirstSorts(s);
    SortedIsFixed(Truncate(NewestFirst(s)));
  }

  lemma TruncateTwice(s: seq<WakeRequest>)
    ensures Truncate(Truncate(s)) == Truncate(s)
  {
  }

  /** Pruning again, later, is pruning once at the later time. */
  lemma PruneTwice(s: seq<WakeRequest>, now: nat, later: nat)
    requires now <= later
    ensures PruneRequests(PruneRequests(s, now), later) == PruneRequests(s, later)
  {
    FilterShort(Filter(s, Recent(now)), later);
    FilterRecentTwice(s, now, later);
    SortShort(Filter(s, Recent(later)));
    TruncateTwice(NewestFirst(Filter(s, Recent(later))));
  }

  // ---- Interrupting keeps ages, so it commutes with pruning ----------------------------------------

  lemma ApplyAppend(s: seq<WakeRequest>, r: WakeRequest, f: WakeRequest -> WakeRequest)
    ensures Apply(s + [r], f) == Apply(s, f) + [f(r)]
  {
  }

  lemma {:induction false} FilterInterrupted(s: seq<WakeRequest>, now: nat)
    ensures Filter(Apply(s, Interrupting()), Recent(now)) == Apply(Filter(s, Recent(now)), Interrupting())
  {
    if s != [] {
      var n := |s| - 1;
      var t, x := s[..n], s[n];
      assert s == t + [x];
      FilterInterrupted(t, now);
      ApplyAppend(t, x, Interrupting());
      FilterStep(t, x, Recent(now));
      FilterStep(Apply(t, Interrupting()), Interrupting()(x), Recent(now));
      ApplyAppend(Filter(t, Recent(now)), x, Interrupting());
    }
  }

  lemma {:induction false} InsertInterrupted(s: seq<WakeRequest>, r: WakeRequest)
    ensures InsertByAge(Apply(s, Interrupting()), Interrupting()(r)) == Apply(InsertByAge(s, r), Interrupting())
  {
    var n := |s| - 1;
    if s == [] || s[n].createdAt >= r.createdAt {
      ApplyAppend(s, r, Interrupting());
    } else {
      InsertInterrupted(s[..n], r);
      assert Apply(s, Interrupting())[..n] == Apply(s[..n], Interrupting());
      ApplyAppend(InsertByAge(s[..n], r), s[n], Interrupting());
    }
  }

  lemma {:induction false} SortInterrupted(s: seq<WakeRequest>)
    ensures NewestFirst(Apply(s, Interrupting())) == Apply(NewestFirst(s), Interrupting())
  {
    if s != [] {
      var n := |s| - 1;
      SortInterrupted(s[..n]);
      assert Apply(s, Interrupting())[..n] == Apply(s[..n], Interrupting());
      InsertInterrupted(NewestFirst(s[..n]), s[n]);
    }
  }

  lemma PruneInterrupted(s: seq<WakeRequest>, now: nat)
    ensures PruneRequests(Apply(s, Interrupting()), now) == Apply(PruneRequests(s, now), Interrupting())
  {
    FilterInterrupted(s, now);
    SortInterrupted(Filter(s, Recent(now)));
  }

  lemma InterruptTwice(s: seq<WakeRequest>)
    ensures Apply(Apply(s, Interrupting()), Interrupting()) == Apply(s, Interrupting())
  {
  }

  /** A crash before the first commit after a restart reloads what the first restart loaded. */
  lemma RestartTwice(d: Account, now: nat, later: nat)
    requires now <= later
    ensures d.RecoverAfterRestart(now).RecoverAfterRestart(later) == d.RecoverAfterRestart(later)
  {
    PruneInterrupted(PruneRequests(d.requests, now), later);
    PruneTwice(d.requests, now, later);
    InterruptTwice(PruneRequests(d.requests, later));
  }
}
