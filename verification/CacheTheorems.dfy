/** What the cache-aside read of `list_fleet_state` can and cannot promise. */
module CacheTheorems {
  import opened Fleet
  import opened Pipeline
  import opened PipelineInvariant
  import opened PipelineTheorems

  ghost predicate Stale(s: State) {
    s.cache.Some? && s.cache.value.rows != s.db.view.fleet
  }

  /** A worker committed between the reader's SELECT and its SET. */
  ghost predicate Raced(entry: CacheEntry) {
    entry.selectedAt < entry.setAt
  }

  /** Some message whose event is committed has not been acknowledged. */
  ghost predicate CommittedUnacked(s: State) {
    exists m :: m in s.bus.pending && IsProcessed(s.db, s.bus, m)
  }

  /** Cached rows are always the fleet table as it once was, never anything else. */
  lemma CacheIsPastTable(c: Config, s: State)
    requires Reachable(c, s) && s.cache.Some?
    ensures exists n: nat :: n <= |s.history| && s.cache.value.rows == Fold(c, s.history[..n]).fleet
  {
    ReachableInvariant(c, s);
    assert IsSnapshot(c, s.history, s.cache.value.rows, s.cache.value.selectedAt);
  }

  /** A commit made after the cache was set still has its message in the pending list. */
  lemma CommitSinceSetIsUnacked(c: Config, s: State)
    requires GroupOk(s.bus) && HistoryOk(s.history, s.db, s.bus) && s.cache.Some?
    requires CacheOk(c, s.cache.value, s.history, s.bus.acked, s.workers)
    ensures s.cache.value.setAt < |s.history| ==> CommittedUnacked(s)
  {
    if s.cache.value.setAt < |s.history| {
      var h := s.history[|s.history| - 1];
      assert CommitOk(s.db, s.bus, h);
      assert h.msg in s.bus.pending;
      assert IsProcessed(s.db, s.bus, h.msg);
    }
  }

  /** Rows selected after the last commit are the current rows. */
  lemma FreshSelectIsCurrent(c: Config, entry: CacheEntry, s: State)
    requires s.db.view == Fold(c, s.history) && IsSnapshot(c, s.history, entry.rows, entry.selectedAt)
    ensures entry.selectedAt == |s.history| ==> entry.rows == s.db.view.fleet
  {
    assert s.history[..|s.history|] == s.history;
  }

  /** A stale cache always has one of two reasons: a reader's race, or an invalidation still to come. */
  lemma StaleExplained(c: Config, s: State)
    requires Reachable(c, s) && Stale(s)
    ensures Raced(s.cache.value) || CommittedUnacked(s)
  {
    ReachableInvariant(c, s);
    CommitSinceSetIsUnacked(c, s);
    FreshSelectIsCurrent(c, s.cache.value, s);
  }

  // ---------- runs without the race ----------

  /** A cache SET is taken only when no worker has committed since that reader's SELECT. */
  ghost predicate SetIsUnraced(s: State, a: Step) {
    a.Read? && a.read.DoSet? && a.p in s.readers && s.readers[a.p].Snapshot? ==> s.readers[a.p].at == |s.history|
  }

  lemma CacheOnlySetByReaders(c: Config, s: State, a: Step)
    requires Enabled(s, a) && SetIsUnraced(s, a)
    ensures var t := Next(c, s, a);
            t.cache.Some? ==> t.cache == s.cache || !Raced(t.cache.value)
  {
    match a
    case Api(p, x) => ApiFrame(s, p, x);
    case Relay(p, x) => RelayFrame(s, p, x);
    case Process(p, x) => ProcessFrame(c, s, p, x);
    case _ =>
  }

  lemma {:induction false} UnracedCache(c: Config, steps: seq<Step>, s: State)
    requires RestrictedRun(c, SetIsUnraced, steps, s)
    ensures s.cache.Some? ==> !Raced(s.cache.value)
  {
    if steps != [] {
      var n := |steps| - 1;
      var u :| RestrictedRun(c, SetIsUnraced, steps[..n], u) && Enabled(u, steps[n]) && SetIsUnraced(u, steps[n])
               && s == Next(c, u, steps[n]);
      UnracedCache(c, steps[..n], u);
      CacheOnlySetByReaders(c, u, steps[n]);
    }
  }

  /**
   Invalidation is never forgotten: in a run where no worker commit falls between a reader's
   SELECT and its SET, a cached value that differs from the table means some message whose event
   is committed is still unacknowledged, whatever crashed.
   */
  lemma InvalidationNeverForgotten(c: Config, steps: seq<Step>, s: State)
    requires RestrictedRun(c, SetIsUnraced, steps, s) && Stale(s)
    ensures CommittedUnacked(s)
  {
    RestrictedIsRun(c, SetIsUnraced, steps, s);
    UnracedCache(c, steps, s);
    StaleExplained(c, s);
  }

  /**
   With nothing pending, the cache agrees with the table exactly when the table did not change
   between the SELECT and the SET that filled it.
   */
  lemma SettledCacheCoherent(c: Config, s: State)
    requires Reachable(c, s) && s.cache.Some? && s.bus.pending == map[]
    ensures var entry := s.cache.value;
            && entry.selectedAt <= entry.setAt == |s.history|
            && (!Stale(s) <==> Fold(c, s.history[..entry.selectedAt]).fleet == Fold(c, s.history[..entry.setAt]).fleet)
  {
    ReachableInvariant(c, s);
    CommitSinceSetIsUnacked(c, s);
    WholeHistory(c, s);
  }

  lemma WholeHistory(c: Config, s: State)
    requires s.db.view == Fold(c, s.history)
    ensures Fold(c, s.history[..|s.history|]).fleet == s.db.view.fleet
  {
    assert s.history[..|s.history|] == s.history;
  }
}
