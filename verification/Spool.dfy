/**
 The agent's bounded spool (src/fleetpulse/agent/spool.py): a table of batches in insertion order,
 evicted oldest first by `created_at` until both bounds hold. Among equal times any row may go
 first, as the query leaves that open.
 */
module Spool {
  import opened Wrappers
  import opened Telemetry

  /** One row; `failedAt` only records when the last failure was noted. */
  datatype Row = Row(batch: TelemetryBatch, bytes: nat, attempts: nat, nextAttemptAt: real,
                     lastError: Option<string>, createdAt: real, failedAt: real)

  datatype PendingBatch = PendingBatch(batch: TelemetryBatch, attempts: nat)

  function TotalBytes(rows: seq<Row>): (n: nat) {
    if rows == [] then 0 else TotalBytes(rows[..|rows| - 1]) + rows[|rows| - 1].bytes
  }

  predicate Fits(rows: seq<Row>, maxBatches: nat, maxBytes: nat) {
    |rows| <= maxBatches && TotalBytes(rows) <= maxBytes
  }

  /** `batch_id` is the primary key. */
  predicate DistinctIds(rows: seq<Row>) {
    forall i, j :: 0 <= i < j < |rows| ==> rows[i].batch.batchId != rows[j].batch.batchId
  }

  predicate HasId(rows: seq<Row>, id: BatchId) {
    exists i :: 0 <= i < |rows| && rows[i].batch.batchId == id
  }

  /** INSERT OR IGNORE. */
  function Insert(rows: seq<Row>, batch: TelemetryBatch, bytes: nat, now: real): (r: seq<Row>) {
    if HasId(rows, batch.batchId) then rows
    else rows + [Row(batch, bytes, 0, 0.0, None, now, 0.0)]
  }

  /** A new row at the end, never tried and due at once, unless the id is already there. */
  ghost predicate IsInsert(before: seq<Row>, after: seq<Row>, batch: TelemetryBatch, bytes: nat, now: real) {
    if HasId(before, batch.batchId) then after == before
    else
      && |after| == |before| + 1 && before <= after
      && var x := after[|before|];
         && x.batch == batch && x.bytes == bytes && x.createdAt == now
         && x.attempts == 0 && x.nextAttemptAt == 0.0 && x.lastError.None?
  }

  predicate IsOldestAt(rows: seq<Row>, k: nat) {
    k < |rows| && forall i :: 0 <= i < |rows| ==> rows[k].createdAt <= rows[i].createdAt
  }

  function RemoveAt(rows: seq<Row>, k: nat): (r: seq<Row>)
    requires k < |rows|
  {
    rows[..k] + rows[k + 1..]
  }

  // ---------- what eviction may do ----------

  ghost predicate NoneNewer(evicted: seq<Row>, kept: seq<Row>) {
    forall i, j :: 0 <= i < |evicted| && 0 <= j < |kept| ==> evicted[i].createdAt <= kept[j].createdAt
  }

  ghost predicate Ascending(rows: seq<Row>) {
    forall i, j :: 0 <= i < j < |rows| ==> rows[i].createdAt <= rows[j].createdAt
  }

  /**
   `kept` and `evicted` split `before`; what went is no newer than what stayed, in order of age;
   both bounds hold; and with the row evicted last still there they would not.
   */
  ghost predicate Evicts(before: seq<Row>, kept: seq<Row>, evicted: seq<Row>, maxBatches: nat, maxBytes: nat) {
    && multiset(before) == multiset(kept) + multiset(evicted)
    && NoneNewer(evicted, kept)
    && Ascending(evicted)
    && Fits(kept, maxBatches, maxBytes)
    && (evicted != [] ==> !Fits(kept + [evicted[|evicted| - 1]], maxBatches, maxBytes))
  }

  // ---------- sums ----------

  lemma {:induction false} TotalAppend(xs: seq<Row>, ys: seq<Row>)
    ensures TotalBytes(xs + ys) == TotalBytes(xs) + TotalBytes(ys)
  {
    if ys == [] {
      assert xs + ys == xs;
    } else {
      var k := |ys| - 1;
      TotalAppend(xs, ys[..k]);
      var zs := xs + ys;
      assert zs[..|zs| - 1] == xs + ys[..k];
    }
  }

  lemma TotalSnoc(rows: seq<Row>, x: Row)
    ensures TotalBytes(rows + [x]) == TotalBytes(rows) + x.bytes
  {
    assert (rows + [x])[..|rows|] == rows;
  }

  lemma {:induction false} TotalRemove(rows: seq<Row>, k: nat)
    requires k < |rows|
    ensures TotalBytes(RemoveAt(rows, k)) + rows[k].bytes == TotalBytes(rows)
  {
    var head, tail := rows[..k], rows[k + 1..];
    TotalAppend(head, tail);
    TotalSnoc(head, rows[k]);
    TotalAppend(head + [rows[k]], tail);
    assert rows == head + [rows[k]] + tail;
  }

  lemma RemoveCount(rows: seq<Row>, k: nat)
    requires k < |rows|
    ensures multiset(rows) == multiset(RemoveAt(rows, k)) + multiset{rows[k]}
  {
    var head, one, tail := rows[..k], [rows[k]], rows[k + 1..];
    assert rows == head + one + tail;
    assert multiset(rows) == multiset(head) + multiset(one) + multiset(tail);
  }

  lemma Cancel(a: multiset<Row>, b: multiset<Row>, x: Row)
    requires a + multiset{x} <= b + multiset{x}
    ensures a <= b
  {
    forall e ensures a[e] <= b[e] {
      assert (a + multiset{x})[e] <= (b + multiset{x})[e];
    }
  }

  /** A smaller collection of rows has no more rows and no more bytes. */
  lemma {:induction false} SubsetTotal(xs: seq<Row>, ys: seq<Row>)
    requires multiset(xs) <= multiset(ys)
    ensures |xs| <= |ys| && TotalBytes(xs) <= TotalBytes(ys)
    decreases |xs|
  {
    if xs != [] {
      var n := |xs| - 1;
      var x := xs[n];
      assert xs == xs[..n] + [x];
      assert multiset(xs) == multiset(xs[..n]) + multiset{x};
      assert x in multiset(xs);
      assert x in multiset(ys);
      var k :| 0 <= k < |ys| && ys[k] == x;
      RemoveCount(ys, k);
      Cancel(multiset(xs[..n]), multiset(RemoveAt(ys, k)), x);
      TotalRemove(ys, k);
      SubsetTotal(xs[..n], RemoveAt(ys, k));
    }
  }

  lemma FitsSubset(xs: seq<Row>, ys: seq<Row>, maxBatches: nat, maxBytes: nat)
    requires multiset(xs) <= multiset(ys) && Fits(ys, maxBatches, maxBytes)
    ensures Fits(xs, maxBatches, maxBytes)
  {
    SubsetTotal(xs, ys);
  }

  // ---------- who survives ----------

  /** The rows created at `t` or later. */
  ghost function NoOlder(rows: seq<Row>, t: real): (r: seq<Row>) {
    if rows == [] then []
    else
      var k := |rows| - 1;
      NoOlder(rows[..k], t) + (if rows[k].createdAt >= t then [rows[k]] else [])
  }

  lemma {:induction false} NoOlderCount(rows: seq<Row>, t: real, x: Row)
    ensures multiset(NoOlder(rows, t))[x] == if x.createdAt >= t then multiset(rows)[x] else 0
  {
    if rows != [] {
      var k := |rows| - 1;
      NoOlderCount(rows[..k], t, x);
      assert rows == rows[..k] + [rows[k]];
      assert multiset(rows)[x] == multiset(rows[..k])[x] + (if rows[k] == x then 1 else 0);
    }
  }

  lemma LastEvictedIsNoOlder(before: seq<Row>, kept: seq<Row>, evicted: seq<Row>, t: real, x: Row)
    requires multiset(before) == multiset(kept) + multiset(evicted) && evicted != []
    requires evicted[|evicted| - 1].createdAt >= t
    requires forall j :: 0 <= j < |kept| ==> kept[j].createdAt >= t
    ensures multiset(kept + [evicted[|evicted| - 1]])[x] <= multiset(NoOlder(before, t))[x]
  {
    var last := evicted[|evicted| - 1];
    NoOlderCount(before, t, x);
    assert evicted == evicted[..|evicted| - 1] + [last];
    assert multiset(evicted)[last] >= 1;
    assert multiset(kept + [last])[x] == multiset(kept)[x] + (if x == last then 1 else 0);
    assert x in multiset(kept) ==> x in kept;
  }

  /** An evicted row could not have stayed: the rows no older than it break a bound. */
  lemma EvictedDoesNotFit(before: seq<Row>, kept: seq<Row>, evicted: seq<Row>, maxBatches: nat, maxBytes: nat, k: nat)
    requires Evicts(before, kept, evicted, maxBatches, maxBytes) && k < |evicted|
    ensures !Fits(NoOlder(before, evicted[k].createdAt), maxBatches, maxBytes)
  {
    var t := evicted[k].createdAt;
    var low := kept + [evicted[|evicted| - 1]];
    var newer := NoOlder(before, t);
    forall x ensures multiset(low)[x] <= multiset(newer)[x] {
      LastEvictedIsNoOlder(before, kept, evicted, t, x);
    }
    SubsetTotal(low, newer);
  }

  /** A kept row with a time of its own: every row no older than it was kept too, so they fit. */
  lemma KeptFits(before: seq<Row>, kept: seq<Row>, evicted: seq<Row>, maxBatches: nat, maxBytes: nat, k: nat)
    requires Evicts(before, kept, evicted, maxBatches, maxBytes) && k < |kept|
    requires forall i :: 0 <= i < |evicted| ==> evicted[i].createdAt != kept[k].createdAt
    ensures Fits(NoOlder(before, kept[k].createdAt), maxBatches, maxBytes)
  {
    var t := kept[k].createdAt;
    var newer := NoOlder(before, t);
    forall x ensures multiset(newer)[x] <= multiset(kept)[x] {
      NoOlderCount(before, t, x);
      if x.createdAt >= t {
        assert x !in evicted;
      }
    }
    FitsSubset(newer, kept, maxBatches, maxBytes);
  }

  /**
   Exactly who survives: a row whose time no other row shares is kept if and only if the rows at
   least as new as it satisfy both bounds by themselves.
   */
  lemma SurvivesIff(before: seq<Row>, kept: seq<Row>, evicted: seq<Row>, maxBatches: nat, maxBytes: nat, r: Row)
    requires Evicts(before, kept, evicted, maxBatches, maxBytes)
    requires multiset(before)[r] == 1 && forall x :: x in before && x != r ==> x.createdAt != r.createdAt
    ensures r in kept <==> Fits(NoOlder(before, r.createdAt), maxBatches, maxBytes)
  {
    assert multiset(before)[r] == multiset(kept)[r] + multiset(evicted)[r];
    if r in evicted {
      var k :| 0 <= k < |evicted| && evicted[k] == r;
      EvictedDoesNotFit(before, kept, evicted, maxBatches, maxBytes, k);
    } else {
      assert r in multiset(kept);
      var k :| 0 <= k < |kept| && kept[k] == r;
      forall i | 0 <= i < |evicted| ensures evicted[i].createdAt != r.createdAt {
        assert evicted[i] in multiset(before);
      }
      KeptFits(before, kept, evicted, maxBatches, maxBytes, k);
    }
  }

  lemma {:induction false} OnlyNewest(rows: seq<Row>, r: Row)
    requires forall x :: x in rows ==> x.createdAt < r.createdAt
    ensures NoOlder(rows + [r], r.createdAt) == [r]
  {
    var all := rows + [r];
    assert all[..|all| - 1] == rows;
    NoneNoOlder(rows, r.createdAt);
  }

  lemma {:induction false} NoneNoOlder(rows: seq<Row>, t: real)
    requires forall x :: x in rows ==> x.createdAt < t
    ensures NoOlder(rows, t) == []
  {
    if rows != [] {
      var k := |rows| - 1;
      assert rows[k] in rows;
      NoneNoOlder(rows[..k], t);
    }
  }

  lemma NewestOnce(rows: seq<Row>, r: Row)
    requires forall x :: x in rows ==> x.createdAt < r.createdAt
    ensures multiset(rows + [r])[r] == 1
    ensures forall x :: x in rows + [r] && x != r ==> x.createdAt != r.createdAt
  {
    assert r !in rows;
  }

  /** A batch strictly newer than everything spooled survives exactly when it fits by itself. */
  lemma {:induction false} NewestSurvivesIff(rows: seq<Row>, r: Row, kept: seq<Row>, evicted: seq<Row>, maxBatches: nat, maxBytes: nat)
    requires forall x :: x in rows ==> x.createdAt < r.createdAt
    requires Evicts(rows + [r], kept, evicted, maxBatches, maxBytes)
    ensures r in kept <==> 1 <= maxBatches && r.bytes <= maxBytes
    ensures r !in kept ==> kept == []
  {
    OnlyNewest(rows, r);
    NewestOnce(rows, r);
    SurvivesIff(rows + [r], kept, evicted, maxBatches, maxBytes, r);
    assert [r][..0] == [];
    if r !in kept {
      assert multiset(rows + [r])[r] == multiset(kept)[r] + multiset(evicted)[r];
      NewestGoesLast(rows, r, kept, evicted);
    }
  }

  /** If the newest row is evicted at all, what is kept can only be another copy of it. */
  lemma NewestGoesLast(rows: seq<Row>, r: Row, kept: seq<Row>, evicted: seq<Row>)
    requires forall x :: x in rows ==> x.createdAt < r.createdAt
    requires multiset(rows + [r]) == multiset(kept) + multiset(evicted) && NoneNewer(evicted, kept)
    requires r in evicted
    ensures kept != [] ==> r in kept
  {
    var i :| 0 <= i < |evicted| && evicted[i] == r;
    if kept != [] {
      assert kept[0] in multiset(rows + [r]);
      assert kept[0] in rows + [r] && evicted[i].createdAt <= kept[0].createdAt;
    }
  }

  /** The oldest row by itself is too much: then it is the row evicted last. */
  lemma OldestGoesLast(rows: seq<Row>, added: Row, kept: seq<Row>, evicted: seq<Row>, maxBatches: nat, maxBytes: nat)
    requires forall x :: x in rows ==> added.createdAt < x.createdAt
    requires Fits(rows, maxBatches, maxBytes) && !Fits(rows + [added], maxBatches, maxBytes)
    requires Evicts(rows + [added], kept, evicted, maxBatches, maxBytes)
    ensures evicted != [] && evicted[|evicted| - 1] == added
  {
    if evicted == [] {
      SubsetTotal(rows + [added], kept);
    }
    var n := |evicted| - 1;
    var last := evicted[n];
    assert evicted == evicted[..n] + [last];
    if last != added {
      EvictedBefore(rows, added, kept, evicted);
      forall x ensures multiset(kept + [last])[x] <= multiset(rows)[x] {
        assert multiset(evicted)[x] == multiset(evicted[..n])[x] + (if x == last then 1 else 0);
        assert multiset(rows + [added])[x] == multiset(rows)[x] + (if x == added then 1 else 0);
      }
      FitsSubset(kept + [last], rows, maxBatches, maxBytes);
    }
  }

  /** If anything newer than it went last, the oldest row went before. */
  lemma EvictedBefore(rows: seq<Row>, added: Row, kept: seq<Row>, evicted: seq<Row>)
    requires forall x :: x in rows ==> added.createdAt < x.createdAt
    requires multiset(rows + [added]) == multiset(kept) + multiset(evicted) && NoneNewer(evicted, kept)
    requires evicted != [] && evicted[|evicted| - 1] != added
    ensures added in evicted[..|evicted| - 1]
  {
    var n := |evicted| - 1;
    assert evicted[n] in multiset(rows + [added]);
    assert evicted[n] in rows;
    forall j | 0 <= j < |kept| ensures kept[j] != added {
      assert evicted[n].createdAt <= kept[j].createdAt;
    }
    assert added in multiset(rows + [added]);
    assert added in evicted;
    var i :| 0 <= i < |evicted| && evicted[i] == added;
    assert evicted[..n][i] == added;
  }

  /**
   With a clock that went back, the batch just spooled is itself the oldest: if there is no room for
   it, it is the one dropped, and everything else stays.
   */
  lemma BackdatedBatchIsDropped(rows: seq<Row>, added: Row, kept: seq<Row>, evicted: seq<Row>, maxBatches: nat, maxBytes: nat)
    requires forall x :: x in rows ==> added.createdAt < x.createdAt
    requires Fits(rows, maxBatches, maxBytes) && !Fits(rows + [added], maxBatches, maxBytes)
    requires Evicts(rows + [added], kept, evicted, maxBatches, maxBytes)
    ensures evicted == [added] && multiset(kept) == multiset(rows) && added !in kept
  {
    OldestGoesLast(rows, added, kept, evicted, maxBatches, maxBytes);
    var n := |evicted| - 1;
    forall i | 0 <= i <= n ensures evicted[i] == added {
      assert evicted[i] in multiset(rows + [added]);
      assert evicted[i] in rows + [added];
    }
    OnlyOnce(rows, added, kept, evicted);
  }

  lemma {:induction false} AllSame(xs: seq<Row>, x: Row)
    requires forall i :: 0 <= i < |xs| ==> xs[i] == x
    ensures multiset(xs)[x] == |xs|
  {
    if xs != [] {
      var n := |xs| - 1;
      AllSame(xs[..n], x);
      assert xs == xs[..n] + [x];
    }
  }

  lemma OnlyOnce(rows: seq<Row>, added: Row, kept: seq<Row>, evicted: seq<Row>)
    requires added !in rows && multiset(rows + [added]) == multiset(kept) + multiset(evicted)
    requires evicted != [] && forall i :: 0 <= i < |evicted| ==> evicted[i] == added
    ensures evicted == [added] && multiset(kept) == multiset(rows) && added !in kept
  {
    AllSame(evicted, added);
    assert multiset(rows + [added])[added] == 1;
    assert evicted == [added];
    assert multiset(rows + [added]) == multiset(rows) + multiset{added};
    forall x ensures multiset(kept)[x] == multiset(rows)[x] {
      assert multiset(rows + [added])[x] == multiset(kept)[x] + multiset([added])[x];
    }
  }

  // ---------- the eviction loop ----------

  lemma {:induction false} OldestExists(rows: seq<Row>)
    requires rows != []
    ensures exists k: nat :: IsOldestAt(rows, k)
  {
    var n := |rows| - 1;
    if n == 0 {
      assert IsOldestAt(rows, 0);
    } else {
      OldestExists(rows[..n]);
      var k: nat :| IsOldestAt(rows[..n], k);
      assert forall i :: 0 <= i < n ==> rows[..n][i] == rows[i];
      assert IsOldestAt(rows, if rows[k].createdAt <= rows[n].createdAt then k else n);
    }
  }

  /** What the loop has done so far: everything of `Evicts` but the bounds. */
  ghost predicate Evicting(before: seq<Row>, rows: seq<Row>, evicted: seq<Row>, maxBatches: nat, maxBytes: nat) {
    && multiset(before) == multiset(rows) + multiset(evicted)
    && |before| == |rows| + |evicted|
    && DistinctIds(rows)
    && NoneNewer(evicted, rows)
    && Ascending(evicted)
    && (evicted != [] ==> !Fits(rows + [evicted[|evicted| - 1]], maxBatches, maxBytes))
  }

  lemma RestOf(rows: seq<Row>, k: nat)
    requires k < |rows|
    ensures |RemoveAt(rows, k)| == |rows| - 1
    ensures forall i :: 0 <= i < |rows| - 1 ==> RemoveAt(rows, k)[i] == rows[if i < k then i else i + 1]
  {
  }

  lemma EvictionOrder(rows: seq<Row>, evicted: seq<Row>, k: nat)
    requires NoneNewer(evicted, rows) && Ascending(evicted) && DistinctIds(rows) && IsOldestAt(rows, k)
    ensures NoneNewer(evicted + [rows[k]], RemoveAt(rows, k))
    ensures Ascending(evicted + [rows[k]])
    ensures DistinctIds(RemoveAt(rows, k))
  {
    RestOf(rows, k);
  }

  lemma EvictionSize(rows: seq<Row>, k: nat, maxBatches: nat, maxBytes: nat)
    requires k < |rows| && !Fits(rows, maxBatches, maxBytes)
    ensures !Fits(RemoveAt(rows, k) + [rows[k]], maxBatches, maxBytes)
  {
    RestOf(rows, k);
    TotalRemove(rows, k);
    TotalAppend(RemoveAt(rows, k), [rows[k]]);
    assert [rows[k]][..0] == [];
  }

  lemma EvictOldest(before: seq<Row>, rows: seq<Row>, evicted: seq<Row>, maxBatches: nat, maxBytes: nat, k: nat)
    requires Evicting(before, rows, evicted, maxBatches, maxBytes)
    requires IsOldestAt(rows, k) && !Fits(rows, maxBatches, maxBytes)
    ensures Evicting(before, RemoveAt(rows, k), evicted + [rows[k]], maxBatches, maxBytes)
  {
    RestOf(rows, k);
    RemoveCount(rows, k);
    EvictionOrder(rows, evicted, k);
    EvictionSize(rows, k, maxBatches, maxBytes);
  }

  // ---------- retry scheduling ----------

  predicate IsDue(row: Row, now: real) {
    row.nextAttemptAt <= now
  }

  /** The oldest row whose delay has elapsed. */
  predicate IsNextReady(rows: seq<Row>, now: real, k: nat) {
    && k < |rows| && IsDue(rows[k], now)
    && forall i :: 0 <= i < |rows| && IsDue(rows[i], now) ==> rows[k].createdAt <= rows[i].createdAt
  }

  lemma {:induction false} NextReadyExists(rows: seq<Row>, now: real)
    requires exists i :: 0 <= i < |rows| && IsDue(rows[i], now)
    ensures exists k: nat :: IsNextReady(rows, now, k)
  {
    var n := |rows| - 1;
    var front := rows[..n];
    assert forall i :: 0 <= i < n ==> front[i] == rows[i];
    if exists i :: 0 <= i < n && IsDue(front[i], now) {
      NextReadyExists(front, now);
      var k: nat :| IsNextReady(front, now, k);
      var best := if IsDue(rows[n], now) && rows[n].createdAt < rows[k].createdAt then n else k;
      assert IsNextReady(rows, now, best);
    } else {
      assert forall i :: 0 <= i < n ==> !IsDue(rows[i], now);
      assert IsNextReady(rows, now, n);
    }
  }

  function Without(rows: seq<Row>, id: BatchId): (r: seq<Row>) {
    if rows == [] then []
    else
      var k := |rows| - 1;
      Without(rows[..k], id) + (if rows[k].batch.batchId == id then [] else [rows[k]])
  }

  function Truncate(s: string, n: nat): (r: string) {
    if |s| <= n then s else s[..n]
  }

  function FailRow(row: Row, id: BatchId, error: string, at: real, nextAttemptAt: real): (r: Row) {
    if row.batch.batchId == id then
      row.(attempts := row.attempts + 1, nextAttemptAt := nextAttemptAt, lastError := Some(Truncate(error, 1000)), failedAt := at)
    else row
  }

  function FailRows(rows: seq<Row>, id: BatchId, error: string, at: real, nextAttemptAt: real): (r: seq<Row>)
    ensures |r| == |rows|
    ensures forall i :: 0 <= i < |rows| ==> r[i] == FailRow(rows[i], id, error, at, nextAttemptAt)
  {
    seq(|rows|, i requires 0 <= i < |rows| => FailRow(rows[i], id, error, at, nextAttemptAt))
  }

  /** Deleting an id that is there takes out its row and no other, and keeps the order. */
  lemma {:induction false} WithoutIsRemoveAt(rows: seq<Row>, k: nat)
    requires k < |rows| && DistinctIds(rows)
    ensures Without(rows, rows[k].batch.batchId) == RemoveAt(rows, k)
  {
    var id := rows[k].batch.batchId;
    var n := |rows| - 1;
    if k == n {
      WithoutAbsent(rows[..n], id);
      assert RemoveAt(rows, k) == rows[..n];
    } else {
      WithoutIsRemoveAt(rows[..n], k);
      assert RemoveAt(rows, k) == RemoveAt(rows[..n], k) + [rows[n]];
    }
  }

  lemma {:induction false} WithoutAbsent(rows: seq<Row>, id: BatchId)
    requires forall i :: 0 <= i < |rows| ==> rows[i].batch.batchId != id
    ensures Without(rows, id) == rows
  {
    if rows != [] {
      WithoutAbsent(rows[..|rows| - 1], id);
    }
  }

  lemma RemoveDistinct(rows: seq<Row>, k: nat)
    requires DistinctIds(rows) && k < |rows|
    ensures DistinctIds(RemoveAt(rows, k)) && !HasId(RemoveAt(rows, k), rows[k].batch.batchId)
  {
    RestOf(rows, k);
  }

  /** The row with this id has one more attempt, an error and its next time; nothing else has changed. */
  ghost predicate Rescheduled(before: seq<Row>, after: seq<Row>, id: BatchId, error: string, nextAttemptAt: real) {
    && |after| == |before|
    && (forall i :: 0 <= i < |after| && before[i].batch.batchId != id ==> after[i] == before[i])
    && (forall i :: 0 <= i < |after| && before[i].batch.batchId == id ==>
          && after[i].batch == before[i].batch && after[i].bytes == before[i].bytes && after[i].createdAt == before[i].createdAt
          && after[i].attempts == before[i].attempts + 1 && after[i].nextAttemptAt == nextAttemptAt
          && after[i].lastError == Some(if |error| <= 1000 then error else error[..1000]))
  }

  class BatchSpool {
    const maxBatches: nat
    const maxBytes: nat
    var rows: seq<Row>

    ghost predicate Valid()
      reads this
    {
      DistinctIds(rows)
    }

    constructor (maxBatches: nat, maxBytes: nat, stored: seq<Row>)
      requires DistinctIds(stored)
      ensures Valid() && this.maxBatches == maxBatches && this.maxBytes == maxBytes && rows == stored
    {
      this.maxBatches, this.maxBytes, rows := maxBatches, maxBytes, stored;
    }

    method Enqueue(batch: TelemetryBatch, bytes: nat, now: real) returns (dropped: nat, ghost evicted: seq<Row>)
      requires Valid()
      modifies this
      ensures Valid()
      ensures Evicts(Insert(old(rows), batch, bytes, now), rows, evicted, maxBatches, maxBytes)
      ensures dropped == |evicted| && |rows| + dropped == |Insert(old(rows), batch, bytes, now)|
      ensures IsInsert(old(rows), Insert(old(rows), batch, bytes, now), batch, bytes, now)
    {
      rows := Insert(rows, batch, bytes, now);
      dropped, evicted := 0, [];
      ghost var before := rows;
      while |rows| > maxBatches || TotalBytes(rows) > maxBytes
        invariant Evicting(before, rows, evicted, maxBatches, maxBytes) && dropped == |evicted|
        decreases |rows|
      {
        OldestExists(rows);
        var k: nat :| k < |rows| && IsOldestAt(rows, k);
        EvictOldest(before, rows, evicted, maxBatches, maxBytes, k);
        evicted := evicted + [rows[k]];
        rows := RemoveAt(rows, k);
        dropped := dropped + 1;
      }
    }

    /** A row in back-off never hides a ready one, and nothing is returned exactly when nothing is ready. */
    method NextReady(now: real) returns (pending: Option<PendingBatch>)
      ensures pending.None? <==> forall i :: 0 <= i < |rows| ==> !IsDue(rows[i], now)
      ensures pending.Some? ==>
                exists k: nat :: IsNextReady(rows, now, k) && pending.value == PendingBatch(rows[k].batch, rows[k].attempts)
    {
      if exists i :: 0 <= i < |rows| && IsDue(rows[i], now) {
        NextReadyExists(rows, now);
        var k: nat :| k < |rows| && IsNextReady(rows, now, k);
        pending := Some(PendingBatch(rows[k].batch, rows[k].attempts));
      } else {
        pending := None;
      }
    }

    /** The row with that id goes, and only that one. */
    method MarkSent(id: BatchId)
      requires Valid()
      modifies this
      ensures Valid() && !HasId(rows, id)
      ensures forall k: nat :: k < |old(rows)| && old(rows)[k].batch.batchId == id ==> rows == RemoveAt(old(rows), k)
      ensures !HasId(old(rows), id) ==> rows == old(rows)
    {
      forall k: nat | k < |rows| && rows[k].batch.batchId == id
        ensures Without(rows, id) == RemoveAt(rows, k) && DistinctIds(RemoveAt(rows, k)) && !HasId(RemoveAt(rows, k), id)
      {
        WithoutIsRemoveAt(rows, k);
        RemoveDistinct(rows, k);
      }
      if !HasId(rows, id) {
        WithoutAbsent(rows, id);
      }
      rows := Without(rows, id);
    }

    /** The row with that id has one more attempt and its next time; everything else stays as it was. */
    method MarkFailed(id: BatchId, error: string, at: real, nextAttemptAt: real)
      requires Valid()
      modifies this
      ensures Valid() && rows == FailRows(old(rows), id, error, at, nextAttemptAt)
      ensures Rescheduled(old(rows), rows, id, error, nextAttemptAt)
    {
      rows := FailRows(rows, id, error, at, nextAttemptAt);
    }
  }
}
