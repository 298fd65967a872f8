/**
 The agent process (src/fleetpulse/agent/main.py): collect, batch, spool, send, retry, and the
 flush on shutdown, run against the pipeline. What the outside world decides each time round (the
 sample, the clock, the new UUID, what everybody else does, whether an answer arrives) comes in as a
 `Tick`.
 */
module Agent {
  import opened Wrappers
  import opened Telemetry
  import opened Spool
  import opened Backoff
  import opened Ledgers
  import opened Packing
  import opened Requests
  import opened Durability
  import Fleet
  import Pipeline
  import PipelineTheorems
  import Deployment

  // ---------- what holds between rounds ----------

  /** After any failure a row is due again within the cap. */
  ghost predicate RetryOk(row: Row, cap: real) {
    && row.attempts <= MAX_FLOAT_EXPONENT + 1
    && row.nextAttemptAt <= if row.attempts == 0 then 0.0 else row.failedAt + cap
  }

  ghost predicate RetriesInTime(rows: seq<Row>, cap: real) {
    forall i :: 0 <= i < |rows| ==> RetryOk(rows[i], cap)
  }

  /** The spool's rows are what the ledger leaves over, and each is due in time. */
  ghost predicate SpoolOk(l: Ledger, rows: seq<Row>, maxBatches: nat, maxBytes: nat, cap: real) {
    DistinctIds(rows) && LedgerOk(l, rows, maxBatches, maxBytes) && RetriesInTime(rows, cap)
  }

  /** The API holds nothing but the agent's own batches under the agent's ids, and every answered one. */
  ghost predicate ApiOk(l: Ledger, s: Pipeline.State, ids: set<BatchId>) {
    && (forall i :: 0 <= i < |l.all| ==> l.all[i].batch.batchId in ids)
    && Unforged(s.apis, s.db.batches, Docs(l.all), ids)
    && (forall i :: 0 <= i < |l.sent| ==> l.sent[i].batch.batchId in s.db.batches)
  }

  // ---------- each operation keeps it ----------

  lemma SpoolKeepsRetries(rows: seq<Row>, b: TelemetryBatch, bytes: nat, now: real, kept: seq<Row>, gone: seq<Row>, cap: real)
    requires RetriesInTime(rows, cap)
    requires multiset(Insert(rows, b, bytes, now)) == multiset(kept) + multiset(gone)
    ensures RetriesInTime(kept, cap)
  {
    var before := Insert(rows, b, bytes, now);
    forall i | 0 <= i < |kept| ensures RetryOk(kept[i], cap) {
      assert kept[i] in multiset(before);
      var j :| 0 <= j < |before| && before[j] == kept[i];
      assert j < |rows| ==> before[j] == rows[j];
    }
  }

  lemma SpoolKeepsApi(l: Ledger, l': Ledger, s: Pipeline.State, ids: set<BatchId>, x: Spooled)
    requires ApiOk(l, s, ids) && x.batch.batchId in ids && l'.all == l.all + [x] && l'.sent == l.sent
    ensures ApiOk(l', s, ids)
  {
    assert Docs(l'.all) == Docs(l.all) + [x.batch];
    forall p | p in s.apis ensures Respects(s.apis[p].batch, Docs(l'.all), ids) {
      assert Respects(s.apis[p].batch, Docs(l.all), ids);
    }
    forall b | b in s.db.batches ensures Respects(s.db.batches[b].payload, Docs(l'.all), ids) {
      assert Respects(s.db.batches[b].payload, Docs(l.all), ids);
    }
  }

  lemma SentKeepsRetries(rows: seq<Row>, k: nat, cap: real)
    requires RetriesInTime(rows, cap) && k < |rows|
    ensures RetriesInTime(RemoveAt(rows, k), cap)
  {
    RestOf(rows, k);
  }

  lemma {:induction false} FailedKeepsRetries(rows: seq<Row>, k: nat, error: string, at: real, next: real, cap: real)
    requires RetriesInTime(rows, cap) && DistinctIds(rows)
    requires k < |rows| && rows[k].attempts <= MAX_FLOAT_EXPONENT && next <= at + cap
    ensures RetriesInTime(FailRows(rows, rows[k].batch.batchId, error, at, next), cap)
  {
    var rows' := FailRows(rows, rows[k].batch.batchId, error, at, next);
    forall i | 0 <= i < |rows'| ensures RetryOk(rows'[i], cap) {
      assert RetryOk(rows[i], cap);
      assert i != k ==> rows[i].batch.batchId != rows[k].batch.batchId;
    }
  }

  /** The agent's side and the API's side after spooling a batch under a new id. */
  lemma {:induction false} SpoolStep(l: Ledger, rows: seq<Row>, b: TelemetryBatch, bytes: nat, now: real,
                                     kept: seq<Row>, gone: seq<Row>, maxBatches: nat, maxBytes: nat, cap: real,
                                     s: Pipeline.State, ids: set<BatchId>)
    requires SpoolOk(l, rows, maxBatches, maxBytes, cap) && ApiOk(l, s, ids)
    requires b.batchId in ids && IsNewId(l.all, b.batchId) && DistinctIds(kept)
    requires Evicts(Insert(rows, b, bytes, now), kept, gone, maxBatches, maxBytes)
    ensures SpoolOk(AfterSpooling(l, rows, b, bytes, now, kept, gone), kept, maxBatches, maxBytes, cap)
    ensures ApiOk(AfterSpooling(l, rows, b, bytes, now, kept, gone), s, ids)
  {
    SpoolLedger(l, rows, b, bytes, now, kept, gone, maxBatches, maxBytes);
    SpoolKeepsRetries(rows, b, bytes, now, kept, gone, cap);
    SpoolKeepsApi(l, AfterSpooling(l, rows, b, bytes, now, kept, gone), s, ids, Spooled(b, bytes, now));
  }

  lemma {:induction false} SentStep(l: Ledger, rows: seq<Row>, k: nat, maxBatches: nat, maxBytes: nat, cap: real,
                                    s: Pipeline.State, ids: set<BatchId>)
    requires SpoolOk(l, rows, maxBatches, maxBytes, cap) && k < |rows|
    requires ApiOk(l, s, ids) && rows[k].batch.batchId in s.db.batches
    ensures ApiOk(l.(sent := l.sent + [Stamp(rows[k])]), s, ids)
    ensures SpoolOk(l.(sent := l.sent + [Stamp(rows[k])]), RemoveAt(rows, k), maxBatches, maxBytes, cap)
  {
    SentLedger(l, rows, k, maxBatches, maxBytes);
    SentKeepsRetries(rows, k, cap);
    RemoveDistinct(rows, k);
  }

  lemma {:induction false} FailedKeepsIds(rows: seq<Row>, id: BatchId, error: string, at: real, nextAttemptAt: real)
    requires DistinctIds(rows)
    ensures DistinctIds(FailRows(rows, id, error, at, nextAttemptAt))
  {
  }

  lemma {:induction false} FailedStep(l: Ledger, rows: seq<Row>, k: nat, error: string, at: real, next: real,
                                      maxBatches: nat, maxBytes: nat, cap: real)
    requires SpoolOk(l, rows, maxBatches, maxBytes, cap)
    requires k < |rows| && rows[k].attempts <= MAX_FLOAT_EXPONENT && next <= at + cap
    ensures SpoolOk(l, FailRows(rows, rows[k].batch.batchId, error, at, next), maxBatches, maxBytes, cap)
  {
    FailLedger(l, rows, rows[k].batch.batchId, error, at, next, maxBatches, maxBytes);
    FailedKeepsRetries(rows, k, error, at, next, cap);
    FailedKeepsIds(rows, rows[k].batch.batchId, error, at, next);
  }

  /** At `failedAt + cap` and later a failed row is due; a row that never failed is due from time zero. */
  lemma DueWithinCap(rows: seq<Row>, cap: real, i: nat, now: real)
    requires RetriesInTime(rows, cap) && i < |rows|
    requires now >= if rows[i].attempts == 0 then 0.0 else rows[i].failedAt + cap
    ensures IsDue(rows[i], now)
  {
    assert RetryOk(rows[i], cap);
  }

  // ---------- a request ----------

  /** The request can start, and its transaction commits before the exchange is over. */
  ghost predicate RequestCommits(c: Fleet.Config, s: Pipeline.State, x: Exchange, b: TelemetryBatch) {
    && Pipeline.CanApiUpsertAgent(s, x.p)
    && CommitsIn(c, Pipeline.ApiUpsertAgent(s, x.p, b, x.at), x.steps, x.p, Some(b))
  }

  /** The pipeline when the exchange is over. */
  ghost function AfterExchange(c: Fleet.Config, s: Pipeline.State, x: Exchange, b: Option<TelemetryBatch>): (t: Pipeline.State) {
    if b.Some? && Pipeline.CanApiUpsertAgent(s, x.p) then Played(c, Pipeline.ApiUpsertAgent(s, x.p, b.value, x.at), x.steps)
    else Played(c, s, x.steps)
  }

  /** Post the batch, if there is one, and let everybody act. */
  method Converse(d: Deployment.Deployment, x: Exchange, b: Option<TelemetryBatch>, ghost l: Ledger, ghost ids: set<BatchId>)
    returns (committed: bool)
    requires d.Valid() && OthersOnly(x.steps, ids) && ApiOk(l, d.state, ids) && (b.Some? ==> b.value in Docs(l.all))
    modifies d
    ensures d.Valid() && Pipeline.Reaches(d.config, old(d.state), d.state)
    ensures d.state == AfterExchange(d.config, old(d.state), x, b)
    ensures committed <==> b.Some? && RequestCommits(d.config, old(d.state), x, b.value)
    ensures ApiOk(l, d.state, ids) && (committed ==> b.value.batchId in d.state.db.batches)
  {
    ghost var start := d.state;
    if b.Some? && Pipeline.CanApiUpsertAgent(d.state, x.p) {
      Pipeline.ReachesSelf(d.config, start);
      ApiUnforged(start, x.p, Pipeline.DoUpsertAgent(b.value, x.at), Docs(l.all), ids);
      d.Take(Pipeline.Api(x.p, Pipeline.DoUpsertAgent(b.value, x.at)));
      ghost var posted := d.state;
      committed := Play(d, x.steps, x.p, b, Docs(l.all), ids);
      Pipeline.ReachesTransitive(d.config, start, posted, d.state);
    } else {
      var other := Play(d, x.steps, x.p, b, Docs(l.all), ids);
      committed := false;
    }
  }

  // ---------- once round the loop ----------

  /** The pipeline's configuration, the agent's settings, and the spool's bounds. */
  datatype Env = Env(config: Fleet.Config, settings: Settings, maxBatches: nat, maxBytes: nat)

  /** What the process and the pipeline hold at one moment, and what has become of every batch. */
  datatype Moment = Moment(samples: seq<Sample>, rows: seq<Row>, pipe: Pipeline.State, ledger: Ledger)

  /** The buffer becomes a batch, and the spool evicts `gone`, as its bounds demand. */
  ghost predicate Spools(e: Env, m: Moment, t: Tick, buffer: seq<Sample>, gone: seq<Row>, m': Moment) {
    && ValidSettings(e.settings) && 1 <= |buffer| <= e.settings.batchSize && ValidSamples(buffer)
    && var x := BatchOf(e.settings, t, buffer);
       && Evicts(Insert(m.rows, x.batch, x.bytes, x.createdAt), m'.rows, gone, e.maxBatches, e.maxBytes)
       && m' == Moment([], m'.rows, m.pipe, AfterSpooling(m.ledger, m.rows, x.batch, x.bytes, x.createdAt, m'.rows, gone))
  }

  /** A sample is taken; it is buffered, or completes a batch. */
  ghost predicate Collects(e: Env, m: Moment, t: Tick, gone: seq<Row>, m': Moment) {
    var buffer := m.samples + [t.sample];
    if |buffer| < e.settings.batchSize then gone == [] && m' == m.(samples := buffer)
    else Spools(e, m, t, buffer, gone, m')
  }

  /** The oldest due row, if any is due. */
  ghost predicate Picks(rows: seq<Row>, now: real, pick: Option<nat>) {
    && (pick.None? <==> forall i :: 0 <= i < |rows| ==> !IsDue(rows[i], now))
    && (pick.Some? ==> IsNextReady(rows, now, pick.value))
  }

  /** The picked row's request committed and its answer came back. */
  ghost predicate Delivers(c: Fleet.Config, m: Moment, t: Tick, pick: Option<nat>) {
    pick.Some? && pick.value < |m.rows| && t.exchange.answered && RequestCommits(c, m.pipe, t.exchange, m.rows[pick.value].batch)
  }

  /** The request failed, and the batch had failed more often than a float can express the back-off of. */
  ghost predicate Overflows(c: Fleet.Config, m: Moment, t: Tick, pick: Option<nat>) {
    pick.Some? && pick.value < |m.rows| && !Delivers(c, m, t, pick) && m.rows[pick.value].attempts > MAX_FLOAT_EXPONENT
  }

  ghost function PickedBatch(m: Moment, pick: Option<nat>): (b: Option<TelemetryBatch>) {
    if pick.Some? && pick.value < |m.rows| then Some(m.rows[pick.value].batch) else None
  }

  /**
   The picked row is posted and everybody acts. It is removed if it was delivered, and otherwise
   rescheduled for `next`, the draw for its attempts after the failure and within the cap; on an
   overflow it stays as it is.
   */
  ghost predicate Sends(e: Env, m: Moment, t: Tick, pick: Option<nat>, next: real, m': Moment) {
    && Picks(m.rows, t.now, pick)
    && m'.samples == m.samples
    && m'.pipe == AfterExchange(e.config, m.pipe, t.exchange, PickedBatch(m, pick))
    && if pick.None? || Overflows(e.config, m, t, pick) then m'.rows == m.rows && m'.ledger == m.ledger
       else if Delivers(e.config, m, t, pick) then
         && m'.rows == RemoveAt(m.rows, pick.value)
         && m'.ledger == m.ledger.(sent := m.ledger.sent + [Stamp(m.rows[pick.value])])
       else
         && next == t.failedAt + t.draw(0.0, Ceiling(m.rows[pick.value].attempts, e.settings.retryBase, e.settings.retryCap))
         && t.failedAt <= next <= t.failedAt + e.settings.retryCap
         && m'.rows == FailRows(m.rows, m.rows[pick.value].batch.batchId, t.exchange.error, t.failedAt, next)
         && m'.ledger == m.ledger
  }

  /** What the request's outcome leads to. */
  lemma OutcomeSends(e: Env, m: Moment, t: Tick, k: nat, delivered: bool, ok: bool, next: real, m': Moment)
    requires IsNextReady(m.rows, t.now, k) && m'.samples == m.samples
    requires m'.pipe == AfterExchange(e.config, m.pipe, t.exchange, Some(m.rows[k].batch))
    requires delivered <==> RequestCommits(e.config, m.pipe, t.exchange, m.rows[k].batch) && t.exchange.answered
    requires ok <==> delivered || m.rows[k].attempts <= MAX_FLOAT_EXPONENT
    requires !ok ==> m'.rows == m.rows
    requires delivered ==> m'.rows == RemoveAt(m.rows, k)
    requires !delivered && ok ==>
               && next == t.failedAt + t.draw(0.0, Ceiling(m.rows[k].attempts, e.settings.retryBase, e.settings.retryCap))
               && t.failedAt <= next <= t.failedAt + e.settings.retryCap
               && m'.rows == FailRows(m.rows, m.rows[k].batch.batchId, t.exchange.error, t.failedAt, next)
    requires m'.ledger == if delivered then m.ledger.(sent := m.ledger.sent + [Stamp(m.rows[k])]) else m.ledger
    ensures Sends(e, m, t, Some(k), next, m')
    ensures ok <==> !Overflows(e.config, m, t, Some(k))
  {
  }

  /** What was not determined by the tick: the rows evicted, the row picked and its next time; and the moment between. */
  datatype Choice = Choice(gone: seq<Row>, mid: Moment, pick: Option<nat>, next: real)

  ghost predicate IsRound(e: Env, m: Moment, t: Tick, x: Choice, m': Moment) {
    Collects(e, m, t, x.gone, x.mid) && Sends(e, x.mid, t, x.pick, x.next, m')
  }

  /** The moments of a process, round by round; only the last round may end in an overflow. */
  ghost predicate IsTrace(e: Env, ticks: seq<Tick>, trace: seq<Moment>, choices: seq<Choice>, ok: bool) {
    && |trace| == |choices| + 1 && |choices| <= |ticks| && (choices == [] ==> ok)
    && (forall i :: 0 <= i < |choices| ==> IsRound(e, trace[i], ticks[i], choices[i], trace[i + 1]))
    && (forall i :: 0 <= i < |choices| ==> (Overflows(e.config, choices[i].mid, ticks[i], choices[i].pick) <==> i + 1 == |choices| && !ok))
  }

  /** The process survives exactly if no round overflows. */
  ghost predicate OkUnlessOverflow(e: Env, ticks: seq<Tick>, choices: seq<Choice>, ok: bool) {
    && |choices| <= |ticks|
    && (ok <==> forall i :: 0 <= i < |choices| ==> !Overflows(e.config, choices[i].mid, ticks[i], choices[i].pick))
  }

  lemma OkExactly(e: Env, ticks: seq<Tick>, trace: seq<Moment>, choices: seq<Choice>, ok: bool)
    requires IsTrace(e, ticks, trace, choices, ok)
    ensures OkUnlessOverflow(e, ticks, choices, ok)
  {
    if !ok {
      var n := |choices| - 1;
      assert Overflows(e.config, choices[n].mid, ticks[n], choices[n].pick);
    }
  }

  lemma TraceExtends(e: Env, ticks: seq<Tick>, trace: seq<Moment>, choices: seq<Choice>, x: Choice, m: Moment, ok: bool)
    requires IsTrace(e, ticks, trace, choices, true) && |choices| < |ticks|
    requires IsRound(e, trace[|choices|], ticks[|choices|], x, m)
    requires ok <==> !Overflows(e.config, x.mid, ticks[|choices|], x.pick)
    ensures IsTrace(e, ticks, trace + [m], choices + [x], ok)
  {
    var trace', choices' := trace + [m], choices + [x];
    forall i | 0 <= i < |choices'|
      ensures IsRound(e, trace'[i], ticks[i], choices'[i], trace'[i + 1])
      ensures Overflows(e.config, choices'[i].mid, ticks[i], choices'[i].pick) <==> i + 1 == |choices'| && !ok
    {
      if i < |choices| {
        assert choices'[i] == choices[i] && trace'[i] == trace[i] && trace'[i + 1] == trace[i + 1];
      }
    }
  }

  // ---------- at rest ----------

  /** What is left to do when the pipeline comes to rest after the agent's last round. */
  lemma AtRest(c: Fleet.Config, s: Pipeline.State, t: Pipeline.State, l: Ledger, rows: seq<Row>, ids: set<BatchId>,
               maxBatches: nat, maxBytes: nat, x: Spooled)
    requires Pipeline.Reachable(c, s) && Pipeline.Reaches(c, s, t) && PipelineTheorems.Quiescent(t)
    requires ApiOk(l, s, ids) && LedgerOk(l, rows, maxBatches, maxBytes) && x in l.all
    ensures x in Stamps(rows) || BoundBroken(l.log, x, maxBatches, maxBytes) || InFleet(t, x.batch)
    ensures x.batch.batchId in s.db.batches ==> InFleet(t, x.batch)
  {
    Whereabouts(l, rows, x);
    if x in Dropped(l.log) {
      assert l.log[..|l.log|] == l.log;
      DroppedByABound(l, |l.log|, maxBatches, maxBytes, x);
    }
    if x.batch.batchId in s.db.batches {
      DocOf(l.all, x);
      StoredIsOurs(c, s, Docs(l.all), ids, x.batch);
      StoredReachesFleet(c, s, t, x.batch);
    }
  }

  lemma DocOf(all: seq<Spooled>, x: Spooled)
    requires x in all
    ensures x.batch in Docs(all)
  {
    var i :| 0 <= i < |all| && all[i] == x;
    assert Docs(all)[i] == x.batch;
  }

  /**
   Wherever the pipeline comes to rest, every batch is in the spool, was dropped in a pass of the
   eviction loop in which the rows no older than it broke a bound, or was applied; and every batch
   that reached the API was applied.
   */
  ghost predicate AllSettle(c: Fleet.Config, s: Pipeline.State, l: Ledger, rows: seq<Row>, maxBatches: nat, maxBytes: nat) {
    forall t, x :: Pipeline.Reaches(c, s, t) && PipelineTheorems.Quiescent(t) && x in l.all ==>
      && (x in Stamps(rows) || BoundBroken(l.log, x, maxBatches, maxBytes) || InFleet(t, x.batch))
      && (x.batch.batchId in s.db.batches ==> InFleet(t, x.batch))
  }

  lemma AgentToFleet(c: Fleet.Config, s: Pipeline.State, l: Ledger, rows: seq<Row>, ids: set<BatchId>, maxBatches: nat, maxBytes: nat)
    requires Pipeline.Reachable(c, s) && ApiOk(l, s, ids) && LedgerOk(l, rows, maxBatches, maxBytes)
    ensures AllSettle(c, s, l, rows, maxBatches, maxBytes)
  {
    forall t, x | Pipeline.Reaches(c, s, t) && PipelineTheorems.Quiescent(t) && x in l.all
      ensures x in Stamps(rows) || BoundBroken(l.log, x, maxBatches, maxBytes) || InFleet(t, x.batch)
      ensures x.batch.batchId in s.db.batches ==> InFleet(t, x.batch)
    {
      AtRest(c, s, t, l, rows, ids, maxBatches, maxBytes, x);
    }
  }

  // ---------- the ids drawn ----------

  /** Every id to be drawn is new. */
  ghost predicate NewIds(ticks: seq<Tick>, from: nat, last: BatchId, all: seq<Spooled>) {
    IsNewId(all, last) && forall i :: from <= i < |ticks| ==> IsNewId(all, ticks[i].batchId)
  }

  /** uuid4 does not repeat. */
  ghost predicate DistinctDraws(ticks: seq<Tick>, last: BatchId) {
    && (forall i, j :: 0 <= i < j < |ticks| ==> ticks[i].batchId != ticks[j].batchId)
    && (forall i :: 0 <= i < |ticks| ==> ticks[i].batchId != last)
  }

  /** The samples are valid, the ids are the agent's, nobody else posts under them, and draws lie in their range. */
  ghost predicate TicksOk(ticks: seq<Tick>, ids: set<BatchId>) {
    && ValidSamples(Samples(ticks))
    && (forall i :: 0 <= i < |ticks| ==> ticks[i].batchId in ids && OthersOnly(ticks[i].exchange.steps, ids) && IsUniform(ticks[i].draw))
  }

  /** What has been spooled and what is buffered after `n` rounds is what packing gives. */
  ghost predicate Progress(l0: Ledger, s: Settings, ticks: seq<Tick>, n: nat, last: BatchId, all: seq<Spooled>, buffer: seq<Sample>) {
    && n <= |ticks|
    && ValidSettings(s) && ValidSamples(Samples(ticks[..n]))
    && all == l0.all + Packed(s, ticks[..n]).0
    && buffer == Packed(s, ticks[..n]).1
    && NewIds(ticks, n, last, all)
  }

  lemma PackedNext(s: Settings, ticks: seq<Tick>, n: nat)
    requires ValidSettings(s) && n < |ticks| && ValidSamples(Samples(ticks))
    ensures ValidSamples(Samples(ticks[..n])) && ValidSamples(Samples(ticks[..n + 1])) && ValidSample(ticks[n].sample)
    ensures var (done, buffer) := Packed(s, ticks[..n]);
            var full := buffer + [ticks[n].sample];
            Packed(s, ticks[..n + 1]) == if |full| < s.batchSize then (done, full) else (done + [BatchOf(s, ticks[n], full)], [])
  {
    forall k: nat | k <= |ticks| ensures ValidSamples(Samples(ticks[..k])) {
      var some := Samples(ticks[..k]);
      forall i | 0 <= i < |some| ensures ValidSample(some[i]) {
        assert Samples(ticks)[i] == some[i];
      }
    }
    assert Samples(ticks)[n] == ticks[n].sample;
    assert ticks[..n + 1][..n] == ticks[..n];
  }

  /** One more round in which nothing was spooled. */
  lemma ProgressIdle(l0: Ledger, s: Settings, ticks: seq<Tick>, n: nat, last: BatchId, all: seq<Spooled>, buffer: seq<Sample>)
    requires Progress(l0, s, ticks, n, last, all, buffer) && n < |ticks| && ValidSamples(Samples(ticks))
    requires |buffer| + 1 < s.batchSize
    ensures Progress(l0, s, ticks, n + 1, last, all, buffer + [ticks[n].sample])
  {
    PackedNext(s, ticks, n);
  }

  /** One more round in which the full buffer was spooled. */
  lemma ProgressSpooled(l0: Ledger, s: Settings, ticks: seq<Tick>, n: nat, last: BatchId, all: seq<Spooled>, buffer: seq<Sample>, x: Spooled)
    requires Progress(l0, s, ticks, n, last, all, buffer) && n < |ticks| && ValidSamples(Samples(ticks)) && DistinctDraws(ticks, last)
    requires |buffer| + 1 == s.batchSize && ValidSamples(buffer + [ticks[n].sample])
    requires x == BatchOf(s, ticks[n], buffer + [ticks[n].sample])
    ensures Progress(l0, s, ticks, n + 1, last, all + [x], [])
  {
    PackedNext(s, ticks, n);
    LaterIdsNew(ticks, n, last, all, x);
  }

  /** Spooling under the id of this round leaves the later ids new. */
  lemma LaterIdsNew(ticks: seq<Tick>, n: nat, last: BatchId, all: seq<Spooled>, x: Spooled)
    requires n < |ticks| && DistinctDraws(ticks, last) && NewIds(ticks, n, last, all) && x.batch.batchId == ticks[n].batchId
    ensures NewIds(ticks, n + 1, last, all + [x])
  {
  }

  class AgentProcess {
    const settings: Settings
    const spool: BatchSpool
    const pipeline: Deployment.Deployment
    var samples: seq<Sample>

    ghost const ids: set<BatchId>   // the ids this agent draws, past and future
    ghost var ledger: Ledger

    ghost function Now(): (m: Moment)
      reads this, spool, pipeline
    {
      Moment(samples, spool.rows, pipeline.state, ledger)
    }

    ghost function Setting(): (e: Env) {
      Env(pipeline.config, settings, spool.maxBatches, spool.maxBytes)
    }

    /** Everything but the buffer. */
    ghost predicate Stable()
      reads this, spool, pipeline
    {
      && ValidSettings(settings)
      && pipeline.Valid()
      && SpoolOk(ledger, spool.rows, spool.maxBatches, spool.maxBytes, settings.retryCap)
      && ApiOk(ledger, pipeline.state, ids)
    }

    ghost predicate Valid()
      reads this, spool, pipeline
    {
      Stable() && |samples| < settings.batchSize && ValidSamples(samples)
    }

    /** A process starting on a spool an earlier one may have left. */
    constructor (settings: Settings, spool: BatchSpool, pipeline: Deployment.Deployment, ghost ids: set<BatchId>)
      requires ValidSettings(settings) && spool.Valid() && pipeline.Valid() && RetriesInTime(spool.rows, settings.retryCap)
      requires ApiOk(Found(spool.rows), pipeline.state, ids)
      ensures Valid() && this.settings == settings && this.spool == spool && this.pipeline == pipeline && this.ids == ids
      ensures ledger == Found(spool.rows) && samples == []
    {
      this.settings, this.spool, this.pipeline, this.ids := settings, spool, pipeline, ids;
      samples := [];
      ledger := Found(spool.rows);
      new;
      FoundLedger(spool.rows, spool.maxBatches, spool.maxBytes);
    }

    /** Spool the buffered samples as one batch and start a new buffer. */
    method SpoolSamples(t: Tick, buffer: seq<Sample>) returns (dropped: nat, ghost gone: seq<Row>)
      requires Stable() && 1 <= |buffer| <= settings.batchSize && ValidSamples(buffer)
      requires t.batchId in ids && IsNewId(ledger.all, t.batchId)
      modifies this`samples, this`ledger, spool
      ensures Valid() && dropped == |gone|
      ensures Spools(Setting(), old(Now()), t, buffer, gone, Now())
    {
      var batch: TelemetryBatch := BatchDoc(t.batchId, settings.agentId, settings.hostname, buffer);
      ghost var rows, l := spool.rows, ledger;
      dropped, gone := spool.Enqueue(batch, t.bytes, t.now);
      ledger := AfterSpooling(l, rows, batch, t.bytes, t.now, spool.rows, gone);
      samples := [];
      SpoolStep(l, rows, batch, t.bytes, t.now, spool.rows, gone, spool.maxBatches, spool.maxBytes, settings.retryCap, pipeline.state, ids);
    }

    /** Take a sample; a full buffer becomes a batch, and the spool evicts what its bounds demand. */
    method CollectOnce(t: Tick) returns (ghost gone: seq<Row>)
      requires Valid() && ValidSample(t.sample) && t.batchId in ids && IsNewId(ledger.all, t.batchId)
      modifies this`samples, this`ledger, spool
      ensures Valid() && Collects(Setting(), old(Now()), t, gone, Now())
    {
      var buffer := samples + [t.sample];
      gone := [];
      if |buffer| >= settings.batchSize {
        var dropped;
        dropped, gone := SpoolSamples(t, buffer);
      } else {
        samples := buffer;
      }
    }

    /** The handler of a failed request: reschedule the row, or fail itself when no delay can be computed. */
    method NoteFailure(pending: PendingBatch, error: string, failedAt: real, draw: (real, real) -> real, ghost k: nat)
      returns (ok: bool, nextAttemptAt: real)
      requires Valid() && IsUniform(draw)
      requires k < |spool.rows| && pending == PendingBatch(spool.rows[k].batch, spool.rows[k].attempts)
      modifies spool
      ensures Valid() && (ok <==> pending.attempts <= MAX_FLOAT_EXPONENT)
      ensures !ok ==> spool.rows == old(spool.rows)
      ensures ok ==> nextAttemptAt == failedAt + draw(0.0, Ceiling(pending.attempts, settings.retryBase, settings.retryCap))
      ensures ok ==> failedAt <= nextAttemptAt <= failedAt + settings.retryCap
      ensures ok ==> spool.rows == FailRows(old(spool.rows), pending.batch.batchId, error, failedAt, nextAttemptAt)
    {
      DelayBounds(pending.attempts, settings.retryBase, settings.retryCap, draw);
      DelayExact(pending.attempts, settings.retryBase, settings.retryCap, draw);
      var delay := FullJitterDelay(pending.attempts, settings.retryBase, settings.retryCap, draw);
      if delay.Failure? {
        return false, 0.0;
      }
      nextAttemptAt := failedAt + delay.value;
      FailedStep(ledger, spool.rows, k, error, failedAt, nextAttemptAt, spool.maxBatches, spool.maxBytes, settings.retryCap);
      spool.MarkFailed(pending.batch.batchId, error, failedAt, nextAttemptAt);
      return true, nextAttemptAt;
    }

    /** The handler of an answered request. */
    method NoteSent(pending: PendingBatch, ghost k: nat)
      requires Valid() && k < |spool.rows| && pending.batch == spool.rows[k].batch
      requires pending.batch.batchId in pipeline.state.db.batches
      modifies this`ledger, spool
      ensures Valid() && spool.rows == RemoveAt(old(spool.rows), k)
      ensures ledger == old(ledger).(sent := old(ledger).sent + [Stamp(old(spool.rows)[k])])
    {
      ghost var x := Stamp(spool.rows[k]);
      SentStep(ledger, spool.rows, k, spool.maxBatches, spool.maxBytes, settings.retryCap, pipeline.state, ids);
      spool.MarkSent(pending.batch.batchId);
      ledger := ledger.(sent := ledger.sent + [x]);
    }

    /**
     Send the next row that is due, if there is one, and let everybody act. The process ends here
     (`ok` is false) exactly on an overflow.
     */
    method SendOnce(t: Tick) returns (ok: bool, nextAttemptAt: real, ghost pick: Option<nat>)
      requires Valid() && IsUniform(t.draw) && OthersOnly(t.exchange.steps, ids)
      modifies this`ledger, spool, pipeline
      ensures Valid() && Pipeline.Reaches(pipeline.config, old(pipeline.state), pipeline.state)
      ensures Sends(Setting(), old(Now()), t, pick, nextAttemptAt, Now())
      ensures ok <==> !Overflows(pipeline.config, old(Now()), t, pick)
      ensures ledger.all == old(ledger).all
    {
      var next := spool.NextReady(t.now);
      if next.None? {
        ok, nextAttemptAt, pick := true, 0.0, None;
        var other := Converse(pipeline, t.exchange, None, ledger, ids);
      } else {
        ghost var k: nat :| IsNextReady(spool.rows, t.now, k)
                            && next.value == PendingBatch(spool.rows[k].batch, spool.rows[k].attempts);
        pick := Some(k);
        ok, nextAttemptAt := SendPending(t, next.value, k);
      }
    }

    /** Send this row. */
    method SendPending(t: Tick, pending: PendingBatch, ghost k: nat) returns (ok: bool, nextAttemptAt: real)
      requires Valid() && IsUniform(t.draw) && OthersOnly(t.exchange.steps, ids)
      requires IsNextReady(spool.rows, t.now, k) && pending == PendingBatch(spool.rows[k].batch, spool.rows[k].attempts)
      modifies this`ledger, spool, pipeline
      ensures Valid() && Pipeline.Reaches(pipeline.config, old(pipeline.state), pipeline.state)
      ensures Sends(Setting(), old(Now()), t, Some(k), nextAttemptAt, Now())
      ensures ok <==> !Overflows(pipeline.config, old(Now()), t, Some(k))
      ensures ledger.all == old(ledger).all
    {
      ghost var m := Now();
      RowIsSpooled(ledger, spool.rows, k);
      DocOf(ledger.all, Stamp(spool.rows[k]));
      var committed := Converse(pipeline, t.exchange, Some(pending.batch), ledger, ids);
      ok, nextAttemptAt := NoteOutcome(pending, committed && t.exchange.answered, t.exchange.error, t.failedAt, t.draw, k);
      OutcomeSends(Setting(), m, t, k, committed && t.exchange.answered, ok, nextAttemptAt, Now());
    }

    /** Remove the row or reschedule it. */
    method NoteOutcome(pending: PendingBatch, delivered: bool, error: string, failedAt: real, draw: (real, real) -> real, ghost k: nat)
      returns (ok: bool, nextAttemptAt: real)
      requires Valid() && IsUniform(draw)
      requires k < |spool.rows| && pending == PendingBatch(spool.rows[k].batch, spool.rows[k].attempts)
      requires delivered ==> pending.batch.batchId in pipeline.state.db.batches
      modifies this`ledger, spool
      ensures Valid() && (ok <==> delivered || pending.attempts <= MAX_FLOAT_EXPONENT)
      ensures !ok ==> spool.rows == old(spool.rows)
      ensures delivered ==> spool.rows == RemoveAt(old(spool.rows), k)
      ensures !delivered && ok ==>
                && nextAttemptAt == failedAt + draw(0.0, Ceiling(pending.attempts, settings.retryBase, settings.retryCap))
                && failedAt <= nextAttemptAt <= failedAt + settings.retryCap
                && spool.rows == FailRows(old(spool.rows), pending.batch.batchId, error, failedAt, nextAttemptAt)
      ensures ledger == if delivered then old(ledger).(sent := old(ledger).sent + [Stamp(old(spool.rows)[k])]) else old(ledger)
    {
      if delivered {
        NoteSent(pending, k);
        return true, 0.0;
      }
      ok, nextAttemptAt := NoteFailure(pending, error, failedAt, draw, k);
    }

    /**
     The process from start to shutdown: once round the loop for every tick, then the flush. What it
     does is a trace, round by round, that only an overflow cuts short. The batches spooled are the
     samples in groups of `batch_size`, in order, then the rest. Every batch, of this process or an
     earlier one, is accounted for once, with its size and time: in the spool, evicted in the pass
     after some batch of this process, or answered. And once the pipeline comes to rest, however it
     goes on, every batch is in the spool, evicted by a bound, or applied.
     */
    method Run(ticks: seq<Tick>, last: Tick)
      returns (ok: bool, rounds: nat, ghost trace: seq<Moment>, ghost choices: seq<Choice>, ghost flushed: seq<Row>)
      requires Valid() && samples == [] && ledger.log == []
      requires TicksOk(ticks, ids) && last.batchId in ids
      requires DistinctDraws(ticks, last.batchId) && NewIds(ticks, 0, last.batchId, ledger.all)
      modifies this`samples, this`ledger, spool, pipeline
      ensures rounds == |choices| && IsTrace(Setting(), ticks, trace, choices, ok) && trace[0] == old(Now())
      ensures rounds < |ticks| ==> !ok
      ensures OkUnlessOverflow(Setting(), ticks, choices, ok)
      ensures if trace[rounds].samples == [] then Now() == trace[rounds] && flushed == []
              else Spools(Setting(), trace[rounds], last, trace[rounds].samples, flushed, Now())
      ensures ValidSamples(Samples(ticks[..rounds])) && ledger.all == old(ledger).all + PackedAll(settings, ticks[..rounds], last)
      ensures PackedWell(settings, ticks[..rounds], last)
      ensures SpoolOk(ledger, spool.rows, spool.maxBatches, spool.maxBytes, settings.retryCap)
      ensures |ledger.all| == |spool.rows| + |Dropped(ledger.log)| + |ledger.sent|
      ensures pipeline.Valid() && Pipeline.Reaches(pipeline.config, old(pipeline.state), pipeline.state)
      ensures ApiOk(ledger, pipeline.state, ids)
      ensures AllSettle(pipeline.config, pipeline.state, ledger, spool.rows, spool.maxBatches, spool.maxBytes)
    {
      ok, rounds, trace, choices := Loop(ticks, last.batchId);
      flushed := Flush(last, ticks[..rounds], old(ledger));
      OkExactly(Setting(), ticks, trace, choices, ok);
      AllPackedWell(settings, ticks[..rounds], last);
      CountsAddUp(ledger, spool.rows);
      AgentToFleet(pipeline.config, pipeline.state, ledger, spool.rows, ids, spool.maxBatches, spool.maxBytes);
    }

    /** Rounds until the ticks are used up or the process ends. */
    method Loop(ticks: seq<Tick>, last: BatchId)
      returns (ok: bool, rounds: nat, ghost trace: seq<Moment>, ghost choices: seq<Choice>)
      requires Valid() && TicksOk(ticks, ids) && DistinctDraws(ticks, last)
      requires Progress(ledger, settings, ticks, 0, last, ledger.all, samples)
      modifies this`samples, this`ledger, spool, pipeline
      ensures Valid() && Progress(old(ledger), settings, ticks, rounds, last, ledger.all, samples)
      ensures rounds == |choices| && IsTrace(Setting(), ticks, trace, choices, ok) && (rounds < |ticks| ==> !ok)
      ensures trace[0] == old(Now()) && trace[rounds] == Now()
      ensures Pipeline.Reaches(pipeline.config, old(pipeline.state), pipeline.state)
    {
      ghost var l0, start := ledger, pipeline.state;
      Pipeline.ReachesSelf(pipeline.config, start);
      ok, rounds, trace, choices := true, 0, [Now()], [];
      while rounds < |ticks| && ok
        invariant Valid() && Progress(l0, settings, ticks, rounds, last, ledger.all, samples)
        invariant rounds == |choices| && IsTrace(Setting(), ticks, trace, choices, ok)
        invariant trace[0] == old(Now()) && trace[rounds] == Now()
        invariant Pipeline.Reaches(pipeline.config, start, pipeline.state)
        decreases |ticks| - rounds
      {
        ghost var x;
        ok, x := Round(ticks, rounds, last, l0, start);
        TraceExtends(Setting(), ticks, trace, choices, x, Now(), ok);
        trace, choices := trace + [Now()], choices + [x];
        rounds := rounds + 1;
      }
    }

    /** Once round the loop. */
    method Round(ticks: seq<Tick>, i: nat, last: BatchId, ghost l0: Ledger, ghost start: Pipeline.State)
      returns (ok: bool, ghost x: Choice)
      requires Valid() && i < |ticks| && TicksOk(ticks, ids) && DistinctDraws(ticks, last)
      requires Progress(l0, settings, ticks, i, last, ledger.all, samples)
      requires Pipeline.Reaches(pipeline.config, start, pipeline.state)
      modifies this`samples, this`ledger, spool, pipeline
      ensures Valid() && Progress(l0, settings, ticks, i + 1, last, ledger.all, samples)
      ensures IsRound(Setting(), old(Now()), ticks[i], x, Now())
      ensures ok <==> !Overflows(pipeline.config, x.mid, ticks[i], x.pick)
      ensures Pipeline.Reaches(pipeline.config, start, pipeline.state)
    {
      ghost var before := pipeline.state;
      ghost var gone := CollectTick(ticks, i, last, l0);
      ghost var mid := Now();
      var nextAttemptAt;
      ghost var pick;
      ok, nextAttemptAt, pick := SendOnce(ticks[i]);
      x := Choice(gone, mid, pick, nextAttemptAt);
      Pipeline.ReachesTransitive(pipeline.config, start, before, pipeline.state);
    }

    method CollectTick(ticks: seq<Tick>, i: nat, last: BatchId, ghost l0: Ledger) returns (ghost gone: seq<Row>)
      requires Valid() && i < |ticks| && TicksOk(ticks, ids) && DistinctDraws(ticks, last)
      requires Progress(l0, settings, ticks, i, last, ledger.all, samples)
      modifies this`samples, this`ledger, spool
      ensures Valid() && Progress(l0, settings, ticks, i + 1, last, ledger.all, samples)
      ensures Collects(Setting(), old(Now()), ticks[i], gone, Now())
    {
      ghost var all, buffer := ledger.all, samples;
      PackedNext(settings, ticks, i);
      gone := CollectOnce(ticks[i]);
      if |buffer| + 1 < settings.batchSize {
        ProgressIdle(l0, settings, ticks, i, last, all, buffer);
      } else {
        ProgressSpooled(l0, settings, ticks, i, last, all, buffer, BatchOf(settings, ticks[i], buffer + [ticks[i].sample]));
      }
    }

    /** What is left in the buffer becomes a last batch. */
    method Flush(last: Tick, ghost done: seq<Tick>, ghost l0: Ledger) returns (ghost gone: seq<Row>)
      requires Valid() && last.batchId in ids && IsNewId(ledger.all, last.batchId) && ValidSamples(Samples(done))
      requires ledger.all == l0.all + Packed(settings, done).0 && samples == Packed(settings, done).1
      modifies this`samples, this`ledger, spool
      ensures Valid() && ledger.all == l0.all + PackedAll(settings, done, last)
      ensures if old(samples) == [] then Now() == old(Now()) && gone == []
              else Spools(Setting(), old(Now()), last, old(samples), gone, Now())
    {
      gone := [];
      if samples != [] {
        var dropped;
        dropped, gone := SpoolSamples(last, samples);
      }
    }
  }
}
