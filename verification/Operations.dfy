/**
 The whole-call meaning of the pipeline's operations when no other process interferes: what
 `ingest_batch`, `publish_once` and `handle_message` do to the state from first statement to last.
 Deployment.dfy proves that the step-by-step programs compute exactly these.
 */
module Operations {
  import opened Wrappers
  import opened Decimals
  import opened Telemetry
  import opened Queueing
  import opened Fleet
  import opened Pipeline

  // ---------- ingest_batch ----------

  /** The tables and the answer when `ingest_batch` returns: a known batch id changes only its agent's row. */
  function IngestedBatch(s: State, b: TelemetryBatch, now: int, e: EventId, createdAt: int, correlation: string): (t: State) {
    var agents := UpsertAgentRow(s.db.agents, b, now);
    if b.batchId in s.db.batches then
      s.(db := s.db.(agents := agents), responses := s.responses + [Response(b.batchId, false)])
    else
      s.(db := s.db.(agents := agents,
                     batches := s.db.batches[b.batchId := BatchRowOf(b)],
                     outbox := s.db.outbox[e := OutboxRowOf(b, createdAt, correlation)]),
         responses := s.responses + [Response(b.batchId, true)])
  }

  // ---------- ingest_batch, field by field ----------

  /** The agent's row: the batch's host name, last seen now, first seen when it first was. No other row changes. */
  ghost predicate AgentSeen(before: map<AgentId, AgentRow>, after: map<AgentId, AgentRow>, b: TelemetryBatch, now: int) {
    && after.Keys == before.Keys + {b.agentId}
    && after[b.agentId].hostname == b.hostname && after[b.agentId].lastSeenAt == now
    && after[b.agentId].firstSeenAt == (if b.agentId in before then before[b.agentId].firstSeenAt else now)
    && (forall a :: a in before && a != b.agentId ==> after[a] == before[a])
  }

  /** The batch row: the document, its agent, the number of its samples, and the times of the first and the last of them. */
  ghost predicate BatchRowHolds(row: BatchRow, b: TelemetryBatch) {
    && row.payload == b && row.agentId == b.agentId && row.sampleCount == |b.samples|
    && (exists i :: 0 <= i < |b.samples| && b.samples[i].observedAt == row.observedStart)
    && (exists i :: 0 <= i < |b.samples| && b.samples[i].observedAt == row.observedEnd)
    && (forall i :: 0 <= i < |b.samples| ==> row.observedStart <= b.samples[i].observedAt <= row.observedEnd)
  }

  /** The outbox row: an unpublished accepted-batch event of this batch. */
  ghost predicate OutboxRowHolds(row: OutboxRow, b: TelemetryBatch, createdAt: int, correlation: string) {
    && row.eventType == Plain("telemetry.batch.accepted.v1") && row.aggregateId == b.batchId
    && row.payload.Keys == {"batch_id", "agent_id", "correlation_id"}
    && row.payload["batch_id"] == Decimal(b.batchId) && row.payload["agent_id"] == b.agentId
    && row.payload["correlation_id"] == correlation
    && row.createdAt == createdAt && row.publishedAt.None? && row.publicationAttempts == 0
  }

  ghost predicate BatchAdded(before: map<BatchId, BatchRow>, after: map<BatchId, BatchRow>, b: TelemetryBatch) {
    && after.Keys == before.Keys + {b.batchId} && BatchRowHolds(after[b.batchId], b)
    && (forall x :: x in before ==> after[x] == before[x])
  }

  ghost predicate EventAdded(before: map<EventId, OutboxRow>, after: map<EventId, OutboxRow>, e: EventId, b: TelemetryBatch,
                             createdAt: int, correlation: string) {
    && after.Keys == before.Keys + {e} && OutboxRowHolds(after[e], b, createdAt, correlation)
    && (forall x :: x in before ==> after[x] == before[x])
  }

  /** What one request does to the tables it writes. */
  ghost predicate Ingests(before: Database, after: Database, b: TelemetryBatch, now: int, e: EventId, createdAt: int, correlation: string) {
    && AgentSeen(before.agents, after.agents, b, now)
    && if b.batchId in before.batches then after.batches == before.batches && after.outbox == before.outbox
       else BatchAdded(before.batches, after.batches, b) && EventAdded(before.outbox, after.outbox, e, b, createdAt, correlation)
  }

  lemma BatchRowExact(b: TelemetryBatch)
    ensures BatchRowHolds(BatchRowOf(b), b)
  {
  }

  lemma OutboxRowExact(b: TelemetryBatch, createdAt: int, correlation: string)
    ensures OutboxRowHolds(OutboxRowOf(b, createdAt, correlation), b, createdAt, correlation)
  {
    var payload := OutboxRowOf(b, createdAt, correlation).payload;
    assert payload["batch_id"] == Decimal(b.batchId) && payload["agent_id"] == b.agentId && payload["correlation_id"] == correlation;
    assert payload.Keys == {"batch_id", "agent_id", "correlation_id"};
  }

  lemma AgentRowExact(agents: map<AgentId, AgentRow>, b: TelemetryBatch, now: int)
    ensures AgentSeen(agents, UpsertAgentRow(agents, b, now), b, now)
  {
  }

  lemma BatchRowAdded(batches: map<BatchId, BatchRow>, b: TelemetryBatch)
    requires b.batchId !in batches
    ensures BatchAdded(batches, batches[b.batchId := BatchRowOf(b)], b)
  {
    BatchRowExact(b);
  }

  lemma OutboxRowAdded(outbox: map<EventId, OutboxRow>, e: EventId, b: TelemetryBatch, createdAt: int, correlation: string)
    requires e !in outbox
    ensures EventAdded(outbox, outbox[e := OutboxRowOf(b, createdAt, correlation)], e, b, createdAt, correlation)
  {
    OutboxRowExact(b, createdAt, correlation);
  }

  lemma IngestExact(s: State, b: TelemetryBatch, now: int, e: EventId, createdAt: int, correlation: string)
    requires e !in s.db.outbox
    ensures Ingests(s.db, IngestedBatch(s, b, now, e, createdAt, correlation).db, b, now, e, createdAt, correlation)
  {
    AgentRowExact(s.db.agents, b, now);
    if b.batchId !in s.db.batches {
      BatchRowAdded(s.db.batches, b);
      OutboxRowAdded(s.db.outbox, e, b, createdAt, correlation);
    }
  }

  // ---------- publish_once ----------

  /** Unpublished rows no other relay has locked. */
  function Available(s: State): (r: set<EventId>) {
    set e | e in s.db.outbox && Unpublished(s.db.outbox, e) && !RowLocked(s.relays, e)
  }

  /** The first page of `ORDER BY created_at` over the available rows. */
  predicate IsPage(outbox: map<EventId, OutboxRow>, available: set<EventId>, rows: seq<EventId>) {
    && Distinct(rows)
    && (forall e :: e in rows ==> e in available && e in outbox)
    && |rows| == (if |available| < PAGE then |available| else PAGE)
    && InCreationOrder(outbox, rows)
    && (forall e, f :: e in rows && f in available && f !in rows && f in outbox ==> outbox[e].createdAt <= outbox[f].createdAt)
  }

  function Messages(outbox: map<EventId, OutboxRow>, rows: seq<EventId>): (r: seq<Entry>)
    requires forall e :: e in rows ==> e in outbox
    ensures |r| == |rows|
    ensures forall i :: 0 <= i < |rows| ==> r[i] == Entry(FieldsOf(rows[i], outbox[rows[i]]), FromRelay(rows[i]))
  {
    if rows == [] then []
    else
      var k := |rows| - 1;
      Messages(outbox, rows[..k]) + [Entry(FieldsOf(rows[k], outbox[rows[k]]), FromRelay(rows[k]))]
  }

  /** The rows' messages are on the stream, in that order, and the rows are marked published. */
  function PublishedRows(s: State, rows: seq<EventId>, at: int): (t: State)
    requires forall e :: e in rows ==> e in s.db.outbox
  {
    s.(bus := s.bus.(stream := s.bus.stream + Messages(s.db.outbox, rows)),
       db := s.db.(outbox := MarkPublished(s.db.outbox, rows, at)))
  }

  /** The published rows, field by field: marked with the time and one more attempt; the other rows are as they were. */
  ghost predicate Marks(before: map<EventId, OutboxRow>, after: map<EventId, OutboxRow>, rows: seq<EventId>, at: int) {
    && after.Keys == before.Keys
    && (forall e :: e in before && e !in rows ==> after[e] == before[e])
    && (forall e :: e in before && e in rows ==>
          && after[e].publishedAt == Some(at) && after[e].publicationAttempts == before[e].publicationAttempts + 1
          && after[e].eventType == before[e].eventType && after[e].aggregateId == before[e].aggregateId
          && after[e].payload == before[e].payload && after[e].createdAt == before[e].createdAt)
  }

  /** The messages added decode to the rows' events, in the rows' order. */
  ghost predicate Carried(outbox: map<EventId, OutboxRow>, rows: seq<EventId>, added: seq<Entry>) {
    && |added| == |rows|
    && (forall i :: 0 <= i < |rows| && rows[i] in outbox ==>
          DecodeEvent(added[i].fields) == Success(QueueEvent(rows[i], outbox[rows[i]].eventType, UuidText(outbox[rows[i]].aggregateId),
                                                             outbox[rows[i]].payload)))
  }

  /** The rows are marked, and their messages are the end of the stream. */
  ghost predicate Publishes(s: State, t: State, rows: seq<EventId>, at: int) {
    && Marks(s.db.outbox, t.db.outbox, rows, at)
    && s.bus.stream <= t.bus.stream && Carried(s.db.outbox, rows, t.bus.stream[|s.bus.stream|..])
  }

  lemma PublishExact(s: State, rows: seq<EventId>, at: int)
    requires forall e :: e in rows ==> e in s.db.outbox
    ensures Publishes(s, PublishedRows(s, rows, at), rows, at)
  {
    var added := Messages(s.db.outbox, rows);
    assert (s.bus.stream + added)[|s.bus.stream|..] == added;
    forall i | 0 <= i < |rows|
      ensures DecodeEvent(added[i].fields)
           == Success(QueueEvent(rows[i], s.db.outbox[rows[i]].eventType, UuidText(s.db.outbox[rows[i]].aggregateId),
                                 s.db.outbox[rows[i]].payload))
    {
      var row := s.db.outbox[rows[i]];
      DecodeInvertsEncode(QueueEvent(rows[i], row.eventType, UuidText(row.aggregateId), row.payload));
    }
  }

  // ---------- handle_message ----------

  /** No other worker is inside a transaction. */
  predicate Alone(workers: map<Proc, Worker>, w: Proc) {
    forall v :: v in workers && v != w ==> !TxnOpen(workers[v].phase)
  }

  predicate CanHandle(s: State, w: Proc) {
    && IsReady(s, w)
    && s.workers[w].queue != []
    && s.workers[w].queue[0] < |s.bus.stream|
    && Alone(s.workers, w)
  }

  /** The stored batch a message names, if there is one. */
  function NamedBatch(db: Database, event: QueueEvent): (r: Option<TelemetryBatch>) {
    if event.aggregateId.UuidText? && event.aggregateId.id in db.batches && ValidBatch(db.batches[event.aggregateId.id].payload)
    then Some(db.batches[event.aggregateId.id].payload)
    else None
  }

  datatype Outcome = Applies(event: EventId, batch: TelemetryBatch) | Duplicates | Retries | GivesUp(error: ErrorType, attempts: nat) | Crashes

  /** Which way `handle_message` goes for a message. */
  function OutcomeOf(c: Config, s: State, m: MsgId): (r: Outcome)
    requires m < |s.bus.stream|
  {
    var f := s.bus.stream[m].fields;
    if Decodes(f) && EventOf(f).eventId in s.db.processed then Duplicates
    else match PoisonError(f)
      case Some(error) =>
        var n := DeliveryAttempts(s.bus, m);
        if n >= c.maxDeliveryAttempts then GivesUp(error, n) else Retries
      case None =>
        match NamedBatch(s.db, EventOf(f))
        case Some(batch) => Applies(EventOf(f).eventId, batch)
        case None => Crashes
  }

  function AppliedDb(c: Config, db: Database, w: Proc, m: MsgId, e: EventId, batch: TelemetryBatch): (r: Database) {
    db.(processed := db.processed[e := ProcessedRow(m, w)], view := ApplyBatch(c, db.view, batch))
  }

  function DeadLetteredDb(db: Database, m: MsgId, error: ErrorType, attempts: nat, f: Fields): (r: Database) {
    if m in db.deadLetters then db
    else db.(deadLetters := db.deadLetters[m := DeadLetterOf(DlqWritten(m, error, attempts), f)])
  }

  /** What each way leaves behind. */
  function Finish(c: Config, s: State, w: Proc, outcome: Outcome): (t: State)
    requires CanHandle(s, w)
  {
    var m := s.workers[w].queue[0];
    var done := s.workers[w := Worker(s.workers[w].queue[1..], Ready)];
    match outcome
    case Applies(e, batch) =>
      s.(workers := done, cache := None, bus := Acknowledge(s.bus, m), db := AppliedDb(c, s.db, w, m, e, batch),
         history := s.history + [Commit(e, m, batch)])
    case Duplicates => s.(workers := done, cache := None, bus := Acknowledge(s.bus, m))
    case Retries => s.(workers := done)
    case GivesUp(error, attempts) =>
      var f := s.bus.stream[m].fields;
      s.(workers := done, db := DeadLetteredDb(s.db, m, error, attempts, f),
         bus := Acknowledge(s.bus.(dlq := s.bus.dlq + [DlqEntry(m, error, f)]), m))
    case Crashes => s.(workers := s.workers - {w})
  }

  /** The state when `handle_message` returns (or its exception ends the worker). */
  function Handled(c: Config, s: State, w: Proc): (t: State)
    requires CanHandle(s, w)
  {
    Finish(c, s, w, OutcomeOf(c, s, s.workers[w].queue[0]))
  }
}
