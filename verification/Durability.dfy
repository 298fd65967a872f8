/** What is recorded stays recorded, and what was stored for a request is the batch that was sent. */
module Durability {
  import opened Telemetry
  import opened Queueing
  import opened Fleet
  import opened Pipeline
  import opened PipelineInvariant
  import opened PipelineTheorems
  import opened BatchCounts
  import opened Operations

  // ---------- what is recorded stays recorded ----------

  /** Every row of `before` is in `after`, unchanged. */
  ghost predicate KeepsRows<K(!new), V(!new)>(before: map<K, V>, after: map<K, V>) {
    forall k :: k in before ==> k in after && after[k] == before[k]
  }

  /** No agent is forgotten, nor the time it was first seen. */
  ghost predicate KeepsFirstSeen(before: map<AgentId, AgentRow>, after: map<AgentId, AgentRow>) {
    forall a :: a in before ==> a in after && after[a].firstSeenAt == before[a].firstSeenAt
  }

  /** Tables only gain rows, logs only grow at the end, and an acknowledgement is final. */
  ghost predicate Keeps(s: State, t: State) {
    && KeepsRows(s.db.batches, t.db.batches)
    && KeepsRows(s.db.processed, t.db.processed)
    && KeepsRows(s.db.deadLetters, t.db.deadLetters)
    && KeepsFirstSeen(s.db.agents, t.db.agents)
    && s.db.outbox.Keys <= t.db.outbox.Keys
    && s.bus.stream <= t.bus.stream
    && s.bus.dlq <= t.bus.dlq
    && s.bus.acked <= t.bus.acked
    && s.history <= t.history
    && s.responses <= t.responses
  }

  lemma ApiKeeps(s: State, p: Proc, a: ApiAction)
    requires ApiEnabled(s, p, a) && ApisOk(s.apis, s.db.batches)
    ensures Keeps(s, ApiNext(s, p, a))
  {
  }

  lemma RelayKeeps(s: State, p: Proc, a: RelayAction)
    requires RelayEnabled(s, p, a)
    ensures Keeps(s, RelayNext(s, p, a))
  {
    RelayFrame(s, p, a);
  }

  lemma DeliveryKeeps(c: Config, s: State, w: Proc, a: DeliveryAction)
    requires DeliveryEnabled(s, w, a)
    ensures Keeps(s, DeliveryNext(c, s, w, a))
  {
    DeliveryFrame(c, s, w, a);
  }

  lemma ProcessKeeps(c: Config, s: State, w: Proc, a: ProcessAction)
    requires ProcessEnabled(s, w, a) && WorkersOk(c, s.workers, s.db, s.bus)
    ensures Keeps(s, ProcessNext(c, s, w, a))
  {
    ProcessFrame(c, s, w, a);
    if a.DoCommit? {
      assert WorkerOk(c, s.workers[w], s.db, s.bus);
    }
  }

  lemma StepKeeps(c: Config, s: State, a: Step)
    requires ApisOk(s.apis, s.db.batches) && WorkersOk(c, s.workers, s.db, s.bus) && Enabled(s, a)
    ensures Keeps(s, Next(c, s, a))
  {
    match a
    case Api(p, x) => ApiKeeps(s, p, x);
    case Relay(p, x) => RelayKeeps(s, p, x);
    case Deliver(p, x) => DeliveryKeeps(c, s, p, x);
    case Process(p, x) => ProcessKeeps(c, s, p, x);
    case Read(p, x) => ReaderFrame(s, p, x);
    case _ =>
  }

  lemma KeepsTransitive(s: State, t: State, u: State)
    requires Keeps(s, t) && Keeps(t, u)
    ensures Keeps(s, u)
  {
  }

  /** Nothing recorded is ever undone, over any run from any reachable state. */
  lemma {:induction false} NothingUndone(c: Config, s: State, steps: seq<Step>, t: State)
    requires Reachable(c, s) && Run(c, s, steps, t)
    ensures Keeps(s, t)
    decreases |steps|
  {
    if steps != [] {
      var n := |steps| - 1;
      var u := RunUnsnoc(c, s, steps, t);
      NothingUndone(c, s, steps[..n], u);
      assert Reaches(c, s, u);
      ReachesTransitive(c, INIT, s, u);
      ReachableInvariant(c, u);
      StepKeeps(c, u, steps[n]);
      KeepsTransitive(s, u, t);
    }
  }

  // ---------- requests ----------

  /** The batch rows after a request for `b` has committed. */
  ghost function WithBatch(batches: map<BatchId, BatchRow>, b: TelemetryBatch): (r: map<BatchId, BatchRow>) {
    if b.batchId in batches then batches else batches[b.batchId := BatchRowOf(b)]
  }

  lemma CommitStores(s: State, p: Proc, e: EventId, createdAt: int, correlation: string)
    requires ApisOk(s.apis, s.db.batches) && CanApiCommit(s, p, e)
    ensures ApiCommit(s, p, e, createdAt, correlation).db.batches == WithBatch(s.db.batches, s.apis[p].batch)
  {
  }

  lemma ReachableApis(c: Config, s: State)
    requires Reachable(c, s)
    ensures ApisOk(s.apis, s.db.batches)
  {
    ReachableInvariant(c, s);
  }

  /** Every stored row says of its document what the document says: agent, samples, first and last time. */
  lemma StoredRows(c: Config, s: State, b: BatchId)
    requires Reachable(c, s) && b in s.db.batches
    ensures ValidBatch(s.db.batches[b].payload) && s.db.batches[b].payload.batchId == b
    ensures BatchRowHolds(s.db.batches[b], s.db.batches[b].payload)
  {
    ReachableInvariant(c, s);
    assert BatchOk(s.db.agents, b, s.db.batches[b]);
    BatchRowExact(s.db.batches[b].payload);
  }

  /** The batch is in `telemetry_batches`, document and all. */
  ghost predicate IsStored(batches: map<BatchId, BatchRow>, b: TelemetryBatch) {
    b.batchId in batches && batches[b.batchId].payload == b
  }

  /**
   The commit of a request, new or repeated, stores the batch that was sent and touches no other. It
   fails to exactly when another batch was stored under the same id before.
   */
  lemma RequestRecorded(c: Config, s: State, p: Proc, e: EventId, createdAt: int, correlation: string)
    requires Reachable(c, s) && CanApiCommit(s, p, e)
    ensures var b := s.apis[p].batch;
            var t := ApiCommit(s, p, e, createdAt, correlation);
            && b.batchId in t.db.batches
            && (IsStored(t.db.batches, b) <==> b.batchId !in s.db.batches || IsStored(s.db.batches, b))
            && t.db.batches == WithBatch(s.db.batches, b)
  {
    ReachableApis(c, s);
    CommitStores(s, p, e, createdAt, correlation);
  }

  /**
   The batch is stored and its outbox event was applied exactly once; the batch was applied for no
   other event but the foreign ones that name it.
   */
  ghost predicate InFleet(s: State, b: TelemetryBatch) {
    && IsStored(s.db.batches, b)
    && (exists e :: AppliedOnce(s, b.batchId, e))
    && CommitsOf(s.history, b.batchId) == 1 + |ForeignEvents(s, b.batchId)|
  }

  /** A stored batch is in the fleet view whenever the pipeline comes to rest later. */
  lemma StoredReachesFleet(c: Config, s: State, t: State, b: TelemetryBatch)
    requires Reachable(c, s) && Reaches(c, s, t) && Quiescent(t) && IsStored(s.db.batches, b)
    ensures InFleet(t, b)
  {
    var steps :| Run(c, s, steps, t);
    NothingUndone(c, s, steps, t);
    ReachesTransitive(c, INIT, s, t);
    ExactlyOnce(c, t, b.batchId);
    BatchCommitsAtRest(c, t, b.batchId);
  }
}
