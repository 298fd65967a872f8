/**
 Runs of the program that show where a property one might expect does not hold. Each is built step by
 step on a deployment, so it is a run of the state machine by construction.
 */
module Scenarios {
  import opened Telemetry
  import opened Queueing
  import opened Fleet
  import opened Pipeline
  import opened PipelineInvariant
  import opened PipelineTheorems
  import opened CacheTheorems
  import opened Deployment
  import opened Recovery
  import opened CarefulRuns
  import opened Durability

  // ---------- a stale cache at rest ----------

  lemma AppliedIsInFleet(c: Config, s: State, b: BatchId)
    requires Reachable(c, s) && b in s.db.batches && exists e :: AppliedOnce(s, b, e)
    ensures s.db.view.fleet != map[]
  {
    var e :| AppliedOnce(s, b, e);
    var i :| 0 <= i < |s.history| && s.history[i].event == e && s.history[i].batch == s.db.batches[b].payload;
    Refinement(c, s);
    FleetExact(c, s.history, s.history[i].batch.agentId);
  }

  /**
   Coherence at rest is not a property of the code: a reader that selected before a batch was
   processed and sets afterwards leaves rows in the cache that differ from the table, with nothing
   left to publish, deliver or acknowledge and hence no invalidation to come.
   */
  method StaleAtRest(c: Config, batch: TelemetryBatch) returns (d: Deployment)
    requires ValidConfig(c)
    ensures fresh(d) && d.config == c && d.Valid()
    ensures Quiescent(d.state) && Stale(d.state)
  {
    d := new Deployment(c);
    d.Take(Read(0, DoMiss));
    d.Take(Read(0, DoSelect));
    assert d.state.readers[0] == Snapshot(map[], 0);
    var accepted := d.IngestBatch(0, batch, 0, 0, 0, "-");
    Recover(d, 0, 0, 0);
    AppliedIsInFleet(c, d.state, batch.batchId);
    d.Take(Read(0, DoSet));
  }

  // ---------- an older row at rest ----------

  /** Every message on the stream was added by a relay. */
  ghost predicate AllRelayed(stream: seq<Entry>) {
    forall m :: 0 <= m < |stream| ==> stream[m].origin.FromRelay?
  }

  lemma RelayedCarries(c: Config, s: State, m: MsgId)
    requires Reachable(c, s) && AllRelayed(s.bus.stream) && m < |s.bus.stream|
    ensures Decodes(s.bus.stream[m].fields) && EventOf(s.bus.stream[m].fields).eventId in s.db.outbox
  {
    ReachableInvariant(c, s);
    assert EntryOk(s.db.outbox, s.bus.stream[m]);
    RelayMessage(s.db.batches, s.db.outbox, s.bus.stream[m], s.bus.stream[m].origin.event);
  }

  /** A new event id stays fresh as long as only relays write to the stream. */
  lemma RelayedFresh(c: Config, s: State, e: EventId)
    requires Reachable(c, s) && AllRelayed(s.bus.stream) && e !in s.db.outbox
    ensures FreshEvent(s, e)
  {
    forall i | 0 <= i < |s.bus.stream| && Decodes(s.bus.stream[i].fields)
      ensures EventOf(s.bus.stream[i].fields).eventId != e
    {
      RelayedCarries(c, s, i);
    }
  }

  lemma RelayedCommit(c: Config, s: State, i: nat)
    requires Reachable(c, s) && AllRelayed(s.bus.stream) && i < |s.history|
    ensures s.history[i].event in s.db.outbox
    ensures s.history[i].batch.batchId in s.db.batches
    ensures s.history[i].batch == s.db.batches[s.history[i].batch.batchId].payload
    ensures s.history[i].batch.batchId == s.db.outbox[s.history[i].event].aggregateId
  {
    ReachableInvariant(c, s);
    assert CommitOk(s.db, s.bus, s.history[i]);
    RelayedCarries(c, s, s.history[i].msg);
    CommitOfOutboxEvent(s, i);
  }

  /** Then no batch is committed twice. */
  lemma RelayedOnce(c: Config, s: State, i: nat, j: nat)
    requires Reachable(c, s) && AllRelayed(s.bus.stream) && i < |s.history| && j < |s.history|
    requires s.history[i].batch.batchId == s.history[j].batch.batchId
    ensures i == j
  {
    RelayedCommit(c, s, i);
    RelayedCommit(c, s, j);
    ReachableInvariant(c, s);
  }

  lemma HistoryKept(c: Config, s: State, t: State)
    requires Reachable(c, s) && Reaches(c, s, t)
    ensures s.history <= t.history
  {
    var steps :| Run(c, s, steps, t);
    NothingUndone(c, s, steps, t);
  }

  /** Every commit is of a stored batch, and no batch is committed twice. */
  ghost predicate CommitsStored(h: seq<Commit>, batches: map<BatchId, BatchRow>) {
    && (forall i :: 0 <= i < |h| ==> h[i].batch.batchId in batches && batches[h[i].batch.batchId].payload == h[i].batch)
    && (forall i, j :: 0 <= i < j < |h| ==> h[i].batch.batchId != h[j].batch.batchId)
  }

  lemma RelayedStored(c: Config, s: State)
    requires Reachable(c, s) && AllRelayed(s.bus.stream)
    ensures CommitsStored(s.history, s.db.batches)
  {
    forall i | 0 <= i < |s.history|
      ensures s.history[i].batch.batchId in s.db.batches
      ensures s.db.batches[s.history[i].batch.batchId].payload == s.history[i].batch
    {
      RelayedCommit(c, s, i);
    }
    forall i, j | 0 <= i < j < |s.history| ensures s.history[i].batch.batchId != s.history[j].batch.batchId {
      if s.history[i].batch.batchId == s.history[j].batch.batchId {
        RelayedOnce(c, s, i, j);
      }
    }
  }

  lemma AppliedAt(s: State, b: TelemetryBatch) returns (i: nat)
    requires InFleet(s, b)
    ensures i < |s.history| && s.history[i].batch == b
  {
    var e :| AppliedOnce(s, b.batchId, e);
    i :| 0 <= i < |s.history| && s.history[i].event == e && s.history[i].batch == b;
  }

  /** Of two batches of an agent, the one committed outside the prefix `g` gives the agent's row. */
  lemma LaterCommitIsRow(c: Config, h: seq<Commit>, g: seq<Commit>, batches: map<BatchId, BatchRow>,
                         first: TelemetryBatch, second: TelemetryBatch, i: nat, j: nat)
    requires CommitsStored(h, batches) && g <= h && i < |g| && j < |h|
    requires batches.Keys == {first.batchId, second.batchId} && first.batchId != second.batchId
    requires first.agentId == second.agentId && h[i].batch == first && h[j].batch == second
    requires forall k :: 0 <= k < |g| ==> g[k].batch.batchId != second.batchId
    ensures first.agentId in Fold(c, h).fleet && Fold(c, h).fleet[first.agentId] == RowOf(second)
  {
    assert j >= |g|;
    assert forall k :: 0 <= k < |h| ==> h[k].batch.batchId in batches.Keys;
    assert IsLastOf(h, first.agentId, j);
    LastCommitRow(c, h, first.agentId, j);
  }

  /** Of two batches of an agent, the one stored after the other was applied is the agent's row in the end. */
  lemma LaterStoredIsRow(c: Config, s: State, t: State, first: TelemetryBatch, second: TelemetryBatch)
    requires Reachable(c, s) && AllRelayed(s.bus.stream) && Reaches(c, s, t)
    requires Reachable(c, t) && AllRelayed(t.bus.stream)
    requires first.agentId == second.agentId && first.batchId != second.batchId
    requires s.db.batches == map[][first.batchId := BatchRowOf(first)]
    requires t.db.batches == s.db.batches[second.batchId := BatchRowOf(second)]
    requires InFleet(s, first) && InFleet(t, second)
    ensures first.agentId in t.db.view.fleet && t.db.view.fleet[first.agentId] == RowOf(second)
    ensures RowOf(second).observedAt < RowOf(first).observedAt ==> !IsNewest(t.history, first.agentId, RowOf(second))
  {
    var i := AppliedAt(s, first);
    var j := AppliedAt(t, second);
    HistoryKept(c, s, t);
    RelayedStored(c, s);
    RelayedStored(c, t);
    assert t.history[i] == s.history[i];
    LaterCommitIsRow(c, t.history, s.history, t.db.batches, first, second, i, j);
    Refinement(c, t);
  }

  /** Without foreign messages nothing can stand in the way. */
  lemma RelayedCurable(db: Database, stream: seq<Entry>)
    requires AllRelayed(stream)
    ensures Curable(db, stream)
  {
  }

  lemma RelayedGrows(before: seq<Entry>, after: seq<Entry>)
    requires AllRelayed(before) && OnlyRelayed(before, after)
    ensures AllRelayed(after)
  {
  }

  /** Store a batch on a deployment that only relays have written to, and drain it. */
  method StoreAndDrain(d: Deployment, batch: TelemetryBatch, e: EventId)
    requires d.Valid() && d.state.apis == map[] && AllRelayed(d.state.bus.stream)
    requires batch.batchId !in d.state.db.batches && e !in d.state.db.outbox
    modifies d
    ensures d.Valid() && Reaches(d.config, old(d.state), d.state) && Quiescent(d.state)
    ensures d.state.apis == map[] && AllRelayed(d.state.bus.stream)
    ensures d.state.db.batches == old(d.state).db.batches[batch.batchId := BatchRowOf(batch)]
    ensures d.state.db.outbox.Keys == old(d.state).db.outbox.Keys + {e}
    ensures InFleet(d.state, batch)
  {
    ghost var start := d.state;
    RelayedFresh(d.config, start, e);
    var accepted := d.IngestBatch(0, batch, 0, e, 0, "-");
    ghost var ingested := d.state;
    RelayedCurable(ingested.db, ingested.bus.stream);
    Recover(d, 0, 0, 0);
    RelayedGrows(ingested.bus.stream, d.state.bus.stream);
    StoredReachesFleet(d.config, ingested, d.state, batch);
    ReachesTransitive(d.config, start, ingested, d.state);
  }

  /**
   The fleet row need not be the newest observation: of two batches of an agent, the newer sent and
   processed first, the older one is the agent's row in the end, with both applied exactly once and
   nothing left to do. Fleet.NewestIff says exactly when this cannot happen.
   */
  method OlderRowAtRest(c: Config, newer: TelemetryBatch, older: TelemetryBatch) returns (d: Deployment)
    requires ValidConfig(c) && newer.agentId == older.agentId && newer.batchId != older.batchId
    requires RowOf(older).observedAt < RowOf(newer).observedAt
    ensures fresh(d) && d.config == c && d.Valid() && Quiescent(d.state)
    ensures older.agentId in d.state.db.view.fleet && d.state.db.view.fleet[older.agentId] == RowOf(older)
    ensures !IsNewest(d.state.history, older.agentId, d.state.db.view.fleet[older.agentId])
  {
    d := new Deployment(c);
    StoreAndDrain(d, newer, 0);
    ghost var mid := d.state;
    StoreAndDrain(d, older, 1);
    LaterStoredIsRow(c, mid, d.state, newer, older);
  }

  // ---------- a dead letter past the limit ----------

  /** One step of a crash-free run. */
  method TakeCrashFree(d: Deployment, a: Step, ghost steps: seq<Step>) returns (ghost more: seq<Step>)
    requires d.Valid() && Enabled(d.state, a) && CrashFreeStep(d.state, a)
    requires RestrictedRun(d.config, CrashFreeStep, steps, d.state)
    modifies d
    ensures d.Valid() && d.state == Next(d.config, old(d.state), a)
    ensures RestrictedRun(d.config, CrashFreeStep, more, d.state)
  {
    ghost var before := d.state;
    d.Take(a);
    more := steps + [a];
    assert more[..|more| - 1] == steps;
  }

  /** The foreign message with no fields was read by worker 0 and has been claimed `n` times by others since. */
  ghost predicate Claimed(s: State, n: nat) {
    && s.bus.stream == [Entry(map[], Foreign)]
    && 0 in s.bus.pending && s.bus.pending[0].times == n + 1
    && 0 in s.workers && s.workers[0] == Worker([0], Ready)
    && (forall v :: v in s.workers ==> v <= n)
    && s.db.deadLetters == map[]
  }

  /** As many workers as the limit claim the message from one that is slow to start on it. */
  method ClaimAround(d: Deployment, n: nat, ghost steps: seq<Step>) returns (ghost more: seq<Step>)
    requires d.Valid() && Claimed(d.state, 0) && RestrictedRun(d.config, CrashFreeStep, steps, d.state)
    modifies d
    ensures d.Valid() && Claimed(d.state, n) && RestrictedRun(d.config, CrashFreeStep, more, d.state)
  {
    more := steps;
    for i := 0 to n
      invariant d.Valid() && Claimed(d.state, i) && RestrictedRun(d.config, CrashFreeStep, more, d.state)
    {
      more := TakeCrashFree(d, Deliver(i + 1, DoStart), more);
      more := TakeCrashFree(d, Deliver(i + 1, DoClaim(0)), more);
    }
  }

  method ReadPoison(c: Config) returns (d: Deployment, ghost steps: seq<Step>)
    requires ValidConfig(c)
    ensures fresh(d) && d.config == c && d.Valid() && RestrictedRun(c, CrashFreeStep, steps, d.state)
    ensures Claimed(d.state, 0)
  {
    d := new Deployment(c);
    steps := [];
    steps := TakeCrashFree(d, Environment(map[]), steps);
    steps := TakeCrashFree(d, Deliver(0, DoStart), steps);
    steps := TakeCrashFree(d, Deliver(0, DoRead), steps);
    assert [] + [0] == [0];
  }

  /** Worker 0 handles the message at last. */
  method GiveUp(d: Deployment, n: nat, ghost steps: seq<Step>) returns (ghost more: seq<Step>)
    requires d.Valid() && Claimed(d.state, n) && d.config.maxDeliveryAttempts <= n + 1
    requires RestrictedRun(d.config, CrashFreeStep, steps, d.state)
    modifies d
    ensures d.Valid() && RestrictedRun(d.config, CrashFreeStep, more, d.state)
    ensures 0 in d.state.db.deadLetters && d.state.db.deadLetters[0].attempts == n + 1
  {
    more := TakeCrashFree(d, Process(0, DoBegin), steps);
    assert d.state.workers[0].phase == Failed(0, KeyError);
    more := TakeCrashFree(d, Deliver(0, DoAttempts), more);
    assert d.state.workers[0].phase == DeadLettering(0, KeyError, n + 1);
    more := TakeCrashFree(d, Deliver(0, DoDlqAdd), more);
    more := TakeCrashFree(d, Deliver(0, DoRecordDead), more);
  }

  /**
   The recorded attempts need not be the limit: when a message is reclaimed while a worker still has
   it in hand, the count that worker reads can be past the limit, in a run without any crash.
   */
  method OvercountedRetry(c: Config) returns (d: Deployment, ghost steps: seq<Step>)
    requires ValidConfig(c)
    ensures fresh(d) && d.config == c && d.Valid() && RestrictedRun(c, CrashFreeStep, steps, d.state)
    ensures 0 in d.state.db.deadLetters && d.state.db.deadLetters[0].attempts == c.maxDeliveryAttempts + 1
  {
    d, steps := ReadPoison(c);
    steps := ClaimAround(d, c.maxDeliveryAttempts, steps);
    steps := GiveUp(d, c.maxDeliveryAttempts, steps);
  }
}
