/** The API and relay layers of the invariant hold in every reachable state. */
module IngestInvariant {
  import opened Telemetry
  import opened Queueing
  import opened Fleet
  import opened Pipeline
  import opened PipelineInvariant

  // ---------- ingest_batch ----------

  lemma ApisUpdate(apis: map<Proc, ApiTxn>, batches: map<BatchId, BatchRow>, p: Proc, txn: ApiTxn)
    requires ApisOk(apis, batches)
    requires txn.BatchInserted? ==> (txn.inserted <==> txn.batch.batchId !in batches)
    requires HoldsBatchRow(txn) ==> !BatchLocked(apis, txn.batch.batchId)
    ensures ApisOk(apis[p := txn], batches)
  {
    if HoldsBatchRow(txn) {
      forall q | q in apis && q != p && HoldsBatchRow(apis[q]) ensures apis[q].batch.batchId != txn.batch.batchId {
        assert apis[q].inserted;
      }
    }
  }

  lemma ApisRemove(apis: map<Proc, ApiTxn>, batches: map<BatchId, BatchRow>, p: Proc)
    requires ApisOk(apis, batches)
    ensures ApisOk(apis - {p}, batches)
  {
  }

  /** Committing one transaction's batch row leaves the other open transactions' findings true. */
  lemma ApisCommit(apis: map<Proc, ApiTxn>, batches: map<BatchId, BatchRow>, p: Proc)
    requires ApisOk(apis, batches)
    requires p in apis && HoldsBatchRow(apis[p])
    ensures ApisOk(apis - {p}, batches[apis[p].batch.batchId := BatchRowOf(apis[p].batch)])
  {
  }

  lemma CommitBatches(agents: map<AgentId, AgentRow>, batches: map<BatchId, BatchRow>, b: TelemetryBatch, now: int)
    requires BatchesOk(agents, batches)
    ensures BatchesOk(UpsertAgentRow(agents, b, now), batches)
    ensures BatchesOk(UpsertAgentRow(agents, b, now), batches[b.batchId := BatchRowOf(b)])
  {
  }

  lemma CommitOutbox(batches: map<BatchId, BatchRow>, outbox: map<EventId, OutboxRow>, b: TelemetryBatch, e: EventId, row: OutboxRow)
    requires OutboxOk(batches, outbox)
    requires b.batchId !in batches && e !in outbox
    requires row.aggregateId == b.batchId && row.eventType == ACCEPTED
    requires row.publishedAt.None? && row.publicationAttempts == 0
    ensures OutboxOk(batches[b.batchId := BatchRowOf(b)], outbox[e := row])
  {
    var batches', outbox' := batches[b.batchId := BatchRowOf(b)], outbox[e := row];
    forall x | x in batches' ensures HasEvent(outbox', x) {
      if x == b.batchId {
        assert outbox'[e].aggregateId == x;
      } else {
        assert HasEvent(outbox, x);
        var f :| f in outbox && outbox[f].aggregateId == x;
        assert outbox'[f].aggregateId == x;
      }
    }
  }

  lemma CommitResponses(responses: seq<Response>, batches: map<BatchId, BatchRow>, b: BatchId, row: BatchRow, inserted: bool)
    requires ResponsesOk(responses, batches)
    requires inserted <==> b !in batches
    ensures ResponsesOk(responses + [Response(b, inserted)], if inserted then batches[b := row] else batches)
  {
    var r := responses + [Response(b, inserted)];
    assert r[..|r| - 1] == responses;
  }

  lemma ApiCommitIngested(s: State, p: Proc, e: EventId, createdAt: int, correlation: string)
    requires Ingested(s) && CanApiCommit(s, p, e)
    ensures Ingested(ApiCommit(s, p, e, createdAt, correlation))
  {
    var txn := s.apis[p];
    CommitBatches(s.db.agents, s.db.batches, txn.batch, txn.now);
    CommitResponses(s.responses, s.db.batches, txn.batch.batchId, BatchRowOf(txn.batch), txn.inserted);
    ApisRemove(s.apis, s.db.batches, p);
    if txn.inserted {
      ApisCommit(s.apis, s.db.batches, p);
      CommitOutbox(s.db.batches, s.db.outbox, txn.batch, e, OutboxRowOf(txn.batch, createdAt, correlation));
    }
  }

  lemma MarkPublishedRow(batches: map<BatchId, BatchRow>, outbox: map<EventId, OutboxRow>, rows: seq<EventId>, at: int, e: EventId)
    requires e in outbox && OutboxRowOk(batches, outbox[e])
    requires e in rows ==> Unpublished(outbox, e)
    ensures e in MarkPublished(outbox, rows, at)
    ensures OutboxRowOk(batches, MarkPublished(outbox, rows, at)[e])
    ensures MarkPublished(outbox, rows, at)[e].aggregateId == outbox[e].aggregateId
  {
  }

  lemma MarkPublishedOutbox(batches: map<BatchId, BatchRow>, outbox: map<EventId, OutboxRow>, rows: seq<EventId>, at: int)
    requires OutboxOk(batches, outbox)
    requires forall e :: e in rows ==> Unpublished(outbox, e)
    ensures OutboxOk(batches, MarkPublished(outbox, rows, at))
  {
    var outbox' := MarkPublished(outbox, rows, at);
    forall e | e in outbox ensures OutboxRowOk(batches, outbox'[e]) && outbox'[e].aggregateId == outbox[e].aggregateId {
      MarkPublishedRow(batches, outbox, rows, at, e);
    }
    forall b | b in batches ensures HasEvent(outbox', b) {
      assert HasEvent(outbox, b);
      var e :| e in outbox && outbox[e].aggregateId == b;
      assert outbox'[e].aggregateId == b;
    }
  }

  lemma RelayCommitIngested(s: State, p: Proc, at: int)
    requires Ingested(s) && RelaysOk(s.relays, s.db.outbox) && CanRelayCommit(s, p)
    ensures Ingested(RelayCommit(s, p, at))
  {
    assert RelayOk(s.db.outbox, s.relays[p]);
    MarkPublishedOutbox(s.db.batches, s.db.outbox, s.relays[p].rows, at);
  }

  lemma ApiIngested(s: State, p: Proc, a: ApiAction)
    requires Ingested(s) && ApiEnabled(s, p, a)
    ensures Ingested(ApiNext(s, p, a))
  {
    match a
    case DoUpsertAgent(batch, now) => ApisUpdate(s.apis, s.db.batches, p, AgentUpserted(batch, now));
    case DoInsertBatch =>
      var txn := s.apis[p];
      ApisUpdate(s.apis, s.db.batches, p, BatchInserted(txn.batch, txn.now, txn.batch.batchId !in s.db.batches));
    case DoApiCommit(e, createdAt, correlation) => ApiCommitIngested(s, p, e, createdAt, correlation);
    case DoApiAbort => ApisRemove(s.apis, s.db.batches, p);
  }

  lemma RelayIngested(s: State, p: Proc, a: RelayAction)
    requires Ingested(s) && RelaysOk(s.relays, s.db.outbox) && RelayEnabled(s, p, a)
    ensures Ingested(RelayNext(s, p, a))
  {
    match a
    case DoRelayCommit(at) => RelayCommitIngested(s, p, at);
    case _ =>
  }

  /** Every step keeps the API layer. */
  lemma IngestedStep(c: Config, s: State, a: Step)
    requires Ingested(s) && Published(s) && Enabled(s, a)
    ensures Ingested(Next(c, s, a))
  {
    match a
    case Api(p, x) => ApiIngested(s, p, x);
    case Relay(p, x) => RelayIngested(s, p, x);
    case Deliver(p, x) => DeliveryFrame(c, s, p, x);
    case Process(p, x) => ProcessFrame(c, s, p, x);
    case Read(p, x) => ReaderFrame(s, p, x);
    case _ =>
  }
}
