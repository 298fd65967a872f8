/**
 What becomes of the batches an agent spools. The ledger lists every batch ever spooled, those whose
 request was answered, and every pass of the eviction loop; the spool's rows are what is left over.
 */
module Ledgers {
  import opened Wrappers
  import opened Telemetry
  import opened Spool

  /** A batch as it was spooled: its document, its size and its time. Nothing changes these later. */
  datatype Spooled = Spooled(batch: TelemetryBatch, bytes: nat, createdAt: real)

  /**
   One pass of the eviction loop: the rows before it, those kept and those that went, and how many
   batches had been answered by then.
   */
  datatype Eviction = Eviction(answered: nat, before: seq<Row>, kept: seq<Row>, gone: seq<Row>)

  /**
   Every batch ever spooled, the first `found` of them by an earlier process; every one answered; and
   the passes of the eviction loop, one for each batch spooled by this process.
   */
  datatype Ledger = Ledger(found: nat, all: seq<Spooled>, sent: seq<Spooled>, log: seq<Eviction>)

  function Stamp(row: Row): (r: Spooled) {
    Spooled(row.batch, row.bytes, row.createdAt)
  }

  function Stamps(rows: seq<Row>): (r: seq<Spooled>)
    ensures |r| == |rows| && forall i :: 0 <= i < |rows| ==> r[i] == Stamp(rows[i])
  {
    seq(|rows|, i requires 0 <= i < |rows| => Stamp(rows[i]))
  }

  function Docs(all: seq<Spooled>): (r: seq<TelemetryBatch>)
    ensures |r| == |all| && forall i :: 0 <= i < |all| ==> r[i] == all[i].batch
  {
    seq(|all|, i requires 0 <= i < |all| => all[i].batch)
  }

  ghost function SpooledBytes(all: seq<Spooled>): (n: nat) {
    if all == [] then 0 else SpooledBytes(all[..|all| - 1]) + all[|all| - 1].bytes
  }

  /** What was evicted so far. */
  ghost function Dropped(log: seq<Eviction>): (r: seq<Spooled>) {
    if log == [] then [] else Dropped(log[..|log| - 1]) + Stamps(log[|log| - 1].gone)
  }

  /** Nothing appears and nothing vanishes: each batch is in exactly one place, with its size and time. */
  ghost predicate Conserved(all: seq<Spooled>, rows: seq<Row>, dropped: seq<Spooled>, sent: seq<Spooled>) {
    multiset(all) == multiset(Stamps(rows)) + multiset(dropped) + multiset(sent)
  }

  ghost predicate DistinctBatches(all: seq<Spooled>) {
    forall i, j :: 0 <= i < j < |all| ==> all[i].batch.batchId != all[j].batch.batchId
  }

  /** A pass over what is left of `all` after `log` and `sent`. */
  ghost predicate PassOk(all: seq<Spooled>, log: seq<Eviction>, sent: seq<Spooled>, x: Eviction, maxBatches: nat, maxBytes: nat) {
    Conserved(all, x.before, Dropped(log), sent) && Evicts(x.before, x.kept, x.gone, maxBatches, maxBytes)
  }

  /**
   The pass after the `i`-th batch of this process started from exactly what had been spooled and
   neither dropped nor answered by then, and evicted because a bound was broken.
   */
  ghost predicate EvictionOk(l: Ledger, i: nat, maxBatches: nat, maxBytes: nat)
    requires i < |l.log|
  {
    var x := l.log[i];
    && l.found + i + 1 <= |l.all| && x.answered <= |l.sent|
    && PassOk(l.all[..l.found + i + 1], l.log[..i], l.sent[..x.answered], x, maxBatches, maxBytes)
  }

  ghost predicate InAnswerOrder(log: seq<Eviction>) {
    forall i, j :: 0 <= i < j < |log| ==> log[i].answered <= log[j].answered
  }

  ghost predicate LogOk(l: Ledger, maxBatches: nat, maxBytes: nat) {
    && |l.all| == l.found + |l.log|
    && (forall i: nat :: i < |l.log| ==> EvictionOk(l, i, maxBatches, maxBytes))
    && InAnswerOrder(l.log)
  }

  ghost predicate LedgerOk(l: Ledger, rows: seq<Row>, maxBatches: nat, maxBytes: nat) {
    && DistinctBatches(l.all)
    && Conserved(l.all, rows, Dropped(l.log), l.sent)
    && LogOk(l, maxBatches, maxBytes)
    && TotalBytes(rows) <= SpooledBytes(l.all)
    && (Dropped(l.log) != [] ==> |l.all| > maxBatches || SpooledBytes(l.all) > maxBytes)
  }

  // ---------- rows and their stamps ----------

  lemma StampsAppend(xs: seq<Row>, ys: seq<Row>)
    ensures Stamps(xs + ys) == Stamps(xs) + Stamps(ys)
  {
  }

  lemma StampsRemove(rows: seq<Row>, k: nat)
    requires k < |rows|
    ensures multiset(Stamps(rows)) == multiset(Stamps(RemoveAt(rows, k))) + multiset{Stamp(rows[k])}
  {
    var bs := Stamps(rows);
    assert Stamps(RemoveAt(rows, k)) == bs[..k] + bs[k + 1..];
    assert bs == bs[..k] + [bs[k]] + bs[k + 1..];
  }

  lemma {:induction false} StampsPermuted(xs: seq<Row>, ys: seq<Row>)
    requires multiset(xs) == multiset(ys)
    ensures multiset(Stamps(xs)) == multiset(Stamps(ys))
    decreases |xs|
  {
    assert |xs| == |multiset(xs)| == |multiset(ys)| == |ys|;
    if xs != [] {
      var n := |xs| - 1;
      assert xs[n] in multiset(ys);
      var k :| 0 <= k < |ys| && ys[k] == xs[n];
      assert RemoveAt(xs, n) == xs[..n];
      RemoveCount(xs, n);
      RemoveCount(ys, k);
      assert multiset(xs[..n]) == multiset(xs) - multiset{xs[n]};
      assert multiset(RemoveAt(ys, k)) == multiset(ys) - multiset{ys[k]};
      StampsPermuted(xs[..n], RemoveAt(ys, k));
      StampsRemove(xs, n);
      StampsRemove(ys, k);
    }
  }

  lemma StampsSplit(before: seq<Row>, kept: seq<Row>, gone: seq<Row>)
    requires multiset(before) == multiset(kept) + multiset(gone)
    ensures multiset(Stamps(before)) == multiset(Stamps(kept)) + multiset(Stamps(gone))
  {
    StampsPermuted(before, kept + gone);
    StampsAppend(kept, gone);
  }

  lemma RowIsSpooled(l: Ledger, rows: seq<Row>, k: nat)
    requires Conserved(l.all, rows, Dropped(l.log), l.sent) && k < |rows|
    ensures Stamp(rows[k]) in l.all
  {
    assert Stamps(rows)[k] in multiset(Stamps(rows));
    assert Stamp(rows[k]) in multiset(l.all);
  }

  /** Every batch is in the spool, was dropped, or was answered. */
  lemma Whereabouts(l: Ledger, rows: seq<Row>, x: Spooled)
    requires Conserved(l.all, rows, Dropped(l.log), l.sent)
    ensures x in l.all <==> x in Stamps(rows) || x in Dropped(l.log) || x in l.sent
  {
    assert x in multiset(l.all) <==> x in multiset(Stamps(rows)) || x in multiset(Dropped(l.log)) || x in multiset(l.sent);
  }

  /** Spooled is waiting plus dropped plus answered. */
  lemma CountsAddUp(l: Ledger, rows: seq<Row>)
    requires Conserved(l.all, rows, Dropped(l.log), l.sent)
    ensures |l.all| == |rows| + |Dropped(l.log)| + |l.sent|
  {
    assert |multiset(l.all)| == |multiset(Stamps(rows))| + |multiset(Dropped(l.log))| + |multiset(l.sent)|;
  }

  // ---------- each operation keeps the ledger ----------

  ghost function AfterSpooling(l: Ledger, rows: seq<Row>, b: TelemetryBatch, bytes: nat, now: real,
                               kept: seq<Row>, gone: seq<Row>): (r: Ledger) {
    Ledger(l.found, l.all + [Spooled(b, bytes, now)], l.sent,
           l.log + [Eviction(|l.sent|, Insert(rows, b, bytes, now), kept, gone)])
  }

  ghost predicate IsNewId(all: seq<Spooled>, id: BatchId) {
    forall i :: 0 <= i < |all| ==> all[i].batch.batchId != id
  }

  lemma NewIdDistinct(all: seq<Spooled>, x: Spooled)
    requires DistinctBatches(all) && IsNewId(all, x.batch.batchId)
    ensures DistinctBatches(all + [x])
  {
  }

  lemma SpooledSnoc(all: seq<Spooled>, x: Spooled)
    ensures SpooledBytes(all + [x]) == SpooledBytes(all) + x.bytes
  {
    assert (all + [x])[..|all|] == all;
  }

  lemma NewIdNotSpooled(l: Ledger, rows: seq<Row>, id: BatchId)
    requires Conserved(l.all, rows, Dropped(l.log), l.sent) && IsNewId(l.all, id)
    ensures !HasId(rows, id)
  {
    forall k | 0 <= k < |rows| ensures rows[k].batch.batchId != id {
      RowIsSpooled(l, rows, k);
    }
  }

  /** Insert adds one row for the new batch. */
  lemma {:induction false} InsertConserves(l: Ledger, rows: seq<Row>, b: TelemetryBatch, bytes: nat, now: real)
    requires Conserved(l.all, rows, Dropped(l.log), l.sent) && IsNewId(l.all, b.batchId)
    ensures Conserved(l.all + [Spooled(b, bytes, now)], Insert(rows, b, bytes, now), Dropped(l.log), l.sent)
    ensures TotalBytes(Insert(rows, b, bytes, now)) == TotalBytes(rows) + bytes
    ensures |Insert(rows, b, bytes, now)| == |rows| + 1
  {
    NewIdNotSpooled(l, rows, b.batchId);
    var x := Row(b, bytes, 0, 0.0, None, now, 0.0);
    TotalSnoc(rows, x);
    StampsAppend(rows, [x]);
    assert Stamps([x]) == [Spooled(b, bytes, now)];
  }

  /** What was dropped is gone, the rest is kept. */
  lemma {:induction false} EvictionConserves(all: seq<Spooled>, before: seq<Row>, kept: seq<Row>, gone: seq<Row>,
                          dropped: seq<Spooled>, sent: seq<Spooled>)
    requires Conserved(all, before, dropped, sent) && multiset(before) == multiset(kept) + multiset(gone)
    ensures Conserved(all, kept, dropped + Stamps(gone), sent)
    ensures TotalBytes(kept) <= TotalBytes(before)
  {
    StampsSplit(before, kept, gone);
    SubsetTotal(kept, before);
  }

  /** A pass of the loop over rows that fit both bounds evicts nothing. */
  lemma {:induction false} FittingEvictsNothing(before: seq<Row>, kept: seq<Row>, gone: seq<Row>, maxBatches: nat, maxBytes: nat)
    requires Evicts(before, kept, gone, maxBatches, maxBytes) && Fits(before, maxBatches, maxBytes)
    ensures gone == []
  {
    if gone != [] {
      var last := gone[|gone| - 1];
      assert gone == gone[..|gone| - 1] + [last];
      assert multiset(kept + [last]) <= multiset(before);
      FitsSubset(kept + [last], before, maxBatches, maxBytes);
    }
  }

  lemma DroppedAppend(log: seq<Eviction>, x: Eviction)
    ensures Dropped(log + [x]) == Dropped(log) + Stamps(x.gone)
  {
    assert (log + [x])[..|log|] == log;
  }

  lemma {:induction false} PassKept(all: seq<Spooled>, all': seq<Spooled>, log: seq<Eviction>, log': seq<Eviction>,
                                    sent: seq<Spooled>, sent': seq<Spooled>, x: Eviction, maxBatches: nat, maxBytes: nat)
    requires all' == all && log' == log && sent' == sent && PassOk(all, log, sent, x, maxBatches, maxBytes)
    ensures PassOk(all', log', sent', x, maxBatches, maxBytes)
  {
  }

  /** A longer ledger leaves earlier passes as they were. */
  lemma {:induction false} LogKept(l: Ledger, l': Ledger, maxBatches: nat, maxBytes: nat, i: nat)
    requires i < |l.log| && EvictionOk(l, i, maxBatches, maxBytes)
    requires l'.found == l.found && l.all <= l'.all && l.sent <= l'.sent && l.log <= l'.log
    ensures EvictionOk(l', i, maxBatches, maxBytes)
  {
    var x := l.log[i];
    var n := l.found + i + 1;
    PassKept(l.all[..n], l'.all[..n], l.log[..i], l'.log[..i], l.sent[..x.answered], l'.sent[..x.answered], x, maxBatches, maxBytes);
  }

  lemma {:induction false} NewEvictionOk(l: Ledger, l': Ledger, x: Eviction, maxBatches: nat, maxBytes: nat)
    requires l'.log == l.log + [x] && |l'.all| == l'.found + |l'.log| && x.answered == |l'.sent|
    requires PassOk(l'.all, l.log, l'.sent, x, maxBatches, maxBytes)
    ensures EvictionOk(l', |l.log|, maxBatches, maxBytes)
  {
    assert l'.log[..|l.log|] == l.log;
    assert l'.all[..|l'.all|] == l'.all && l'.sent[..x.answered] == l'.sent;
  }

  lemma {:induction false} AnsweredGrows(l: Ledger, x: Eviction, maxBatches: nat, maxBytes: nat)
    requires LogOk(l, maxBatches, maxBytes) && x.answered == |l.sent|
    ensures InAnswerOrder(l.log + [x])
  {
    forall i: nat | i < |l.log| ensures l.log[i].answered <= |l.sent| {
      assert EvictionOk(l, i, maxBatches, maxBytes);
    }
  }

  lemma {:induction false} SpoolKeepsLog(l: Ledger, rows: seq<Row>, b: TelemetryBatch, bytes: nat, now: real, kept: seq<Row>, gone: seq<Row>,
                      maxBatches: nat, maxBytes: nat)
    requires LogOk(l, maxBatches, maxBytes)
    requires Conserved(l.all, rows, Dropped(l.log), l.sent) && IsNewId(l.all, b.batchId)
    requires Evicts(Insert(rows, b, bytes, now), kept, gone, maxBatches, maxBytes)
    ensures LogOk(AfterSpooling(l, rows, b, bytes, now, kept, gone), maxBatches, maxBytes)
  {
    var l' := AfterSpooling(l, rows, b, bytes, now, kept, gone);
    InsertConserves(l, rows, b, bytes, now);
    AnsweredGrows(l, l'.log[|l.log|], maxBatches, maxBytes);
    forall i: nat | i < |l'.log| ensures EvictionOk(l', i, maxBatches, maxBytes) {
      if i < |l.log| {
        LogKept(l, l', maxBatches, maxBytes, i);
      } else {
        NewEvictionOk(l, l', l'.log[i], maxBatches, maxBytes);
      }
    }
  }

  /** Something goes only if what was ever spooled, together with the new batch, breaks a bound. */
  lemma {:induction false} EvictionNeedsABound(l: Ledger, rows: seq<Row>, b: TelemetryBatch, bytes: nat, now: real,
                                               kept: seq<Row>, gone: seq<Row>, maxBatches: nat, maxBytes: nat)
    requires Conserved(l.all, rows, Dropped(l.log), l.sent) && IsNewId(l.all, b.batchId) && TotalBytes(rows) <= SpooledBytes(l.all)
    requires Evicts(Insert(rows, b, bytes, now), kept, gone, maxBatches, maxBytes)
    ensures gone != [] ==> |l.all| + 1 > maxBatches || SpooledBytes(l.all) + bytes > maxBytes
  {
    InsertConserves(l, rows, b, bytes, now);
    CountsAddUp(l, rows);
    if Fits(Insert(rows, b, bytes, now), maxBatches, maxBytes) {
      FittingEvictsNothing(Insert(rows, b, bytes, now), kept, gone, maxBatches, maxBytes);
    }
  }

  lemma {:induction false} SpoolConserves(l: Ledger, rows: seq<Row>, b: TelemetryBatch, bytes: nat, now: real,
                                          kept: seq<Row>, gone: seq<Row>)
    requires Conserved(l.all, rows, Dropped(l.log), l.sent) && IsNewId(l.all, b.batchId) && TotalBytes(rows) <= SpooledBytes(l.all)
    requires multiset(Insert(rows, b, bytes, now)) == multiset(kept) + multiset(gone)
    ensures Conserved(l.all + [Spooled(b, bytes, now)], kept, Dropped(l.log) + Stamps(gone), l.sent)
    ensures TotalBytes(kept) <= SpooledBytes(l.all) + bytes
  {
    InsertConserves(l, rows, b, bytes, now);
    EvictionConserves(l.all + [Spooled(b, bytes, now)], Insert(rows, b, bytes, now), kept, gone, Dropped(l.log), l.sent);
  }

  /** The ledger of a process that starts on these rows. */
  ghost function Found(rows: seq<Row>): (l: Ledger) {
    Ledger(|rows|, Stamps(rows), [], [])
  }

  lemma {:induction false} FoundBytes(rows: seq<Row>)
    ensures SpooledBytes(Stamps(rows)) == TotalBytes(rows)
  {
    if rows != [] {
      FoundBytes(rows[..|rows| - 1]);
      assert Stamps(rows)[..|rows| - 1] == Stamps(rows[..|rows| - 1]);
    }
  }

  lemma FoundLedger(rows: seq<Row>, maxBatches: nat, maxBytes: nat)
    requires DistinctIds(rows)
    ensures LedgerOk(Found(rows), rows, maxBatches, maxBytes)
  {
    FoundBytes(rows);
  }

  /** Spooling a batch under a new id. */
  lemma {:induction false} SpoolLedger(l: Ledger, rows: seq<Row>, b: TelemetryBatch, bytes: nat, now: real,
                                       kept: seq<Row>, gone: seq<Row>, maxBatches: nat, maxBytes: nat)
    requires LedgerOk(l, rows, maxBatches, maxBytes) && IsNewId(l.all, b.batchId)
    requires Evicts(Insert(rows, b, bytes, now), kept, gone, maxBatches, maxBytes)
    ensures LedgerOk(AfterSpooling(l, rows, b, bytes, now, kept, gone), kept, maxBatches, maxBytes)
  {
    var x := Eviction(|l.sent|, Insert(rows, b, bytes, now), kept, gone);
    SpoolKeepsLog(l, rows, b, bytes, now, kept, gone, maxBatches, maxBytes);
    SpoolConserves(l, rows, b, bytes, now, kept, gone);
    EvictionNeedsABound(l, rows, b, bytes, now, kept, gone, maxBatches, maxBytes);
    DroppedAppend(l.log, x);
    NewIdDistinct(l.all, Spooled(b, bytes, now));
    SpooledSnoc(l.all, Spooled(b, bytes, now));
  }

  lemma {:induction false} SentKeepsLog(l: Ledger, x: Spooled, maxBatches: nat, maxBytes: nat)
    requires LogOk(l, maxBatches, maxBytes)
    ensures LogOk(l.(sent := l.sent + [x]), maxBatches, maxBytes)
  {
    var l' := l.(sent := l.sent + [x]);
    forall i: nat | i < |l'.log| ensures EvictionOk(l', i, maxBatches, maxBytes) {
      LogKept(l, l', maxBatches, maxBytes, i);
    }
  }

  /** Forgetting an answered batch. */
  lemma {:induction false} SentLedger(l: Ledger, rows: seq<Row>, k: nat, maxBatches: nat, maxBytes: nat)
    requires LedgerOk(l, rows, maxBatches, maxBytes) && k < |rows|
    ensures LedgerOk(l.(sent := l.sent + [Stamp(rows[k])]), RemoveAt(rows, k), maxBatches, maxBytes)
  {
    StampsRemove(rows, k);
    TotalRemove(rows, k);
    SentKeepsLog(l, Stamp(rows[k]), maxBatches, maxBytes);
  }

  lemma {:induction false} FailKeepsBytes(rows: seq<Row>, id: BatchId, error: string, at: real, nextAttemptAt: real)
    ensures TotalBytes(FailRows(rows, id, error, at, nextAttemptAt)) == TotalBytes(rows)
  {
    if rows != [] {
      var n := |rows| - 1;
      FailKeepsBytes(rows[..n], id, error, at, nextAttemptAt);
      assert FailRows(rows, id, error, at, nextAttemptAt)[..n] == FailRows(rows[..n], id, error, at, nextAttemptAt);
    }
  }

  /** Rescheduling a row. */
  lemma {:induction false} FailLedger(l: Ledger, rows: seq<Row>, id: BatchId, error: string, at: real, nextAttemptAt: real,
                   maxBatches: nat, maxBytes: nat)
    requires LedgerOk(l, rows, maxBatches, maxBytes)
    ensures LedgerOk(l, FailRows(rows, id, error, at, nextAttemptAt), maxBatches, maxBytes)
  {
    FailKeepsBytes(rows, id, error, at, nextAttemptAt);
    assert Stamps(FailRows(rows, id, error, at, nextAttemptAt)) == Stamps(rows);
  }

  /** A pass of the loop took this batch, and the rows no older than it broke a bound. */
  ghost predicate BoundBroken(log: seq<Eviction>, x: Spooled, maxBatches: nat, maxBytes: nat) {
    exists i: nat, k: nat :: i < |log| && k < |log[i].gone| && Stamp(log[i].gone[k]) == x
                             && !Fits(NoOlder(log[i].before, x.createdAt), maxBatches, maxBytes)
  }

  /** For a dropped batch the log has the pass that shows why. */
  lemma {:induction false} DroppedByABound(l: Ledger, n: nat, maxBatches: nat, maxBytes: nat, x: Spooled)
    requires LogOk(l, maxBatches, maxBytes) && n <= |l.log| && x in Dropped(l.log[..n])
    ensures BoundBroken(l.log, x, maxBatches, maxBytes)
  {
    var log := l.log[..n];
    assert log[..n - 1] == l.log[..n - 1];
    if x in Dropped(l.log[..n - 1]) {
      DroppedByABound(l, n - 1, maxBatches, maxBytes, x);
    } else {
      var e := l.log[n - 1];
      var k :| 0 <= k < |e.gone| && Stamps(e.gone)[k] == x;
      assert EvictionOk(l, n - 1, maxBatches, maxBytes);
      EvictedDoesNotFit(e.before, e.kept, e.gone, maxBatches, maxBytes, k);
    }
  }
}
