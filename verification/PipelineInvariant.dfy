/**
 The inductive invariant of the pipeline. Each clause is a predicate over just the
 components it speaks of, so a step that leaves those alone leaves the clause alone.
 */
module PipelineInvariant {
  import opened Wrappers
  import opened Telemetry
  import opened Queueing
  import opened Fleet
  import opened Pipeline

  // ---------- tables written by the API ----------

  ghost predicate BatchOk(agents: map<AgentId, AgentRow>, b: BatchId, row: BatchRow) {
    && ValidBatch(row.payload)
    && row == BatchRowOf(row.payload)
    && row.payload.batchId == b
    && row.agentId in agents
  }

  ghost predicate BatchesOk(agents: map<AgentId, AgentRow>, batches: map<BatchId, BatchRow>) {
    forall b :: b in batches ==> BatchOk(agents, b, batches[b])
  }

  /** Every outbox row is an accepted-batch event of a stored batch. */
  ghost predicate OutboxRowOk(batches: map<BatchId, BatchRow>, row: OutboxRow) {
    && row.eventType == ACCEPTED
    && row.aggregateId in batches
    && row.publicationAttempts == (if row.publishedAt.Some? then 1 else 0)
  }

  ghost predicate HasEvent(outbox: map<EventId, OutboxRow>, b: BatchId) {
    exists e :: e in outbox && outbox[e].aggregateId == b
  }

  /** Exactly one outbox event per stored batch: at least one, and no two for the same batch. */
  ghost predicate OutboxOk(batches: map<BatchId, BatchRow>, outbox: map<EventId, OutboxRow>) {
    && (forall e :: e in outbox ==> OutboxRowOk(batches, outbox[e]))
    && (forall e, f :: e in outbox && f in outbox && outbox[e].aggregateId == outbox[f].aggregateId ==> e == f)
    && (forall b :: b in batches ==> HasEvent(outbox, b))
  }

  /** The transaction holds an uncommitted batch row. */
  ghost predicate HoldsBatchRow(txn: ApiTxn) {
    txn.BatchInserted? && txn.inserted
  }

  ghost predicate ApisOk(apis: map<Proc, ApiTxn>, batches: map<BatchId, BatchRow>) {
    && (forall p :: p in apis && apis[p].BatchInserted? ==> (apis[p].inserted <==> apis[p].batch.batchId !in batches))
    && (forall p, q :: p in apis && q in apis && p != q && HoldsBatchRow(apis[p]) && HoldsBatchRow(apis[q]) ==>
          apis[p].batch.batchId != apis[q].batch.batchId)
  }

  ghost function Acceptances(responses: seq<Response>, b: BatchId): (n: nat) {
    if responses == [] then 0
    else
      var k := |responses| - 1;
      Acceptances(responses[..k], b) + (if responses[k] == Response(b, true) then 1 else 0)
  }

  ghost predicate ResponsesOk(responses: seq<Response>, batches: map<BatchId, BatchRow>) {
    && (forall b :: Acceptances(responses, b) == if b in batches then 1 else 0)
    && (forall r :: r in responses ==> r.batchId in batches)
  }

  // ---------- outbox, relays and the stream ----------

  ghost predicate RelayOk(outbox: map<EventId, OutboxRow>, txn: RelayTxn) {
    && |txn.rows| <= PAGE
    && txn.sent <= |txn.rows|
    && Distinct(txn.rows)
    && forall e :: e in txn.rows ==> Unpublished(outbox, e)
  }

  /** No row is held by two open relay transactions. */
  ghost predicate RelaysOk(relays: map<Proc, RelayTxn>, outbox: map<EventId, OutboxRow>) {
    && (forall p :: p in relays ==> RelayOk(outbox, relays[p]))
    && (forall p, q, e :: p in relays && q in relays && e in relays[p].rows && e in relays[q].rows ==> p == q)
  }

  ghost predicate EntryOk(outbox: map<EventId, OutboxRow>, entry: Entry) {
    match entry.origin
    case FromRelay(e) => e in outbox && entry.fields == FieldsOf(e, outbox[e])
    case Foreign => Decodes(entry.fields) ==> EventOf(entry.fields).eventId !in outbox
  }

  ghost predicate StreamOk(stream: seq<Entry>, outbox: map<EventId, OutboxRow>) {
    forall i :: 0 <= i < |stream| ==> EntryOk(outbox, stream[i])
  }

  /** Number of stream messages the relays added for an event. */
  ghost function Copies(stream: seq<Entry>, e: EventId): (n: nat) {
    if stream == [] then 0
    else
      var k := |stream| - 1;
      Copies(stream[..k], e) + (if stream[k].origin == FromRelay(e) then 1 else 0)
  }

  /** An open relay transaction has added the event but not yet committed. */
  ghost predicate InFlight(relays: map<Proc, RelayTxn>, e: EventId) {
    exists p, i :: p in relays && 0 <= i < relays[p].sent && i < |relays[p].rows| && relays[p].rows[i] == e
  }

  ghost predicate CopiesOk(stream: seq<Entry>, outbox: map<EventId, OutboxRow>, relays: map<Proc, RelayTxn>,
                           aborted: multiset<EventId>) {
    forall e :: e in outbox ==>
      Copies(stream, e) == outbox[e].publicationAttempts + aborted[e] + (if InFlight(relays, e) then 1 else 0)
  }

  /** Events no transaction was opened for have no aborted copies. */
  ghost predicate AbortedOk(aborted: multiset<EventId>, outbox: map<EventId, OutboxRow>) {
    forall e :: e in aborted ==> e in outbox
  }

  // ---------- the consumer group ----------

  /** Delivered messages are pending or acknowledged, never both; the rest are undelivered. */
  ghost predicate GroupOk(bus: Bus) {
    && bus.delivered <= |bus.stream|
    && (forall m: MsgId :: m < bus.delivered <==> m in bus.pending || m in bus.acked)
    && (forall m: MsgId :: m in bus.pending ==> m !in bus.acked)
    && (forall m: MsgId :: m < bus.delivered <==> m in bus.deliveries)
    && (forall m: MsgId :: m in bus.deliveries ==> bus.deliveries[m] >= 1)
    && (forall m: MsgId :: m in bus.pending && m in bus.deliveries ==> bus.pending[m].times == bus.deliveries[m])
  }

  ghost predicate InDlq(dlq: seq<DlqEntry>, m: MsgId) {
    exists i :: 0 <= i < |dlq| && dlq[i].source == m
  }

  /** The message's event is in `processed_events`. */
  ghost predicate IsProcessed(db: Database, bus: Bus, m: MsgId) {
    m < |bus.stream| && Decodes(bus.stream[m].fields) && EventOf(bus.stream[m].fields).eventId in db.processed
  }

  ghost predicate IsPoison(bus: Bus, m: MsgId) {
    m < |bus.stream| && PoisonError(bus.stream[m].fields).Some?
  }

  ghost predicate AckedOk(db: Database, bus: Bus) {
    forall m :: m in bus.acked ==> IsProcessed(db, bus, m) || (m in db.deadLetters && InDlq(bus.dlq, m))
  }

  ghost predicate DeadLetterOk(c: Config, bus: Bus, m: MsgId, row: DeadLetterRow) {
    match row
    case DeadLetterRow(event, error, attempts, payload) =>
      && IsPoisonedBy(bus, m, error)
      && payload == bus.stream[m].fields
      && ("event_id" in payload ==> event == payload["event_id"])
      && ("event_id" !in payload ==> event == Plain("unknown"))
      && AtLimit(c, bus, m, attempts)
      && InDlq(bus.dlq, m)
  }

  ghost predicate DlqEntryOk(bus: Bus, d: DlqEntry) {
    match d
    case DlqEntry(source, error, payload) => IsPoisonedBy(bus, source, error) && payload == bus.stream[source].fields
  }

  ghost predicate DeadOk(c: Config, deadLetters: map<MsgId, DeadLetterRow>, bus: Bus) {
    && (forall m :: m in deadLetters ==> DeadLetterOk(c, bus, m, deadLetters[m]))
    && (forall i :: 0 <= i < |bus.dlq| ==> DlqEntryOk(bus, bus.dlq[i]))
  }

  // ---------- commits ----------

  /** The commit is recorded, by a message that carries exactly this event for exactly this batch. */
  ghost predicate CommitOk(db: Database, bus: Bus, h: Commit) {
    match h
    case Commit(event, msg, batch) =>
      && event in db.processed
      && db.processed[event].msg == msg
      && msg < bus.delivered <= |bus.stream|
      && Carries(bus.stream[msg].fields, event, batch.batchId)
      && batch.batchId in db.batches
      && db.batches[batch.batchId].payload == batch
  }

  /** The message can be applied and names this event and this batch. */
  ghost predicate Carries(f: Fields, e: EventId, b: BatchId) {
    && PoisonError(f).None?
    && EventOf(f).eventId == e
    && EventOf(f).aggregateId == UuidText(b)
  }

  ghost predicate HistoryOk(history: seq<Commit>, db: Database, bus: Bus) {
    && (forall i :: 0 <= i < |history| ==> CommitOk(db, bus, history[i]))
    && (forall i, j :: 0 <= i < j < |history| ==> history[i].event != history[j].event)
    && (forall e :: e in db.processed ==> exists i :: 0 <= i < |history| && history[i].event == e)
  }

  // ---------- workers ----------

  /** What is known of the message a worker is handling, phase by phase. */
  ghost predicate PhaseOk(c: Config, ph: Phase, db: Database, bus: Bus) {
    match ph
    case Ready => true
    case Inserted(m, _) => IsDelivered(bus, m) && TxnOk(c, ph, bus.stream[m].fields, db)
    case Loaded(m, _, _) => IsDelivered(bus, m) && TxnOk(c, ph, bus.stream[m].fields, db)
    case Upserted(m, _, _) => IsDelivered(bus, m) && TxnOk(c, ph, bus.stream[m].fields, db)
    case CpuDone(m, _, _, _) => IsDelivered(bus, m) && TxnOk(c, ph, bus.stream[m].fields, db)
    case MemoryDone(m, _, _, _, _) => IsDelivered(bus, m) && TxnOk(c, ph, bus.stream[m].fields, db)
    case Applied(m) => IsDelivered(bus, m) && IsProcessed(db, bus, m)
    case Invalidated(m) => IsDelivered(bus, m) && IsProcessed(db, bus, m)
    case Failed(m, error) => IsPoisonedBy(bus, m, error)
    case DeadLettering(m, error, attempts) => IsPoisonedBy(bus, m, error) && AtLimit(c, bus, m, attempts)
    case DlqWritten(m, error, attempts) =>
      IsPoisonedBy(bus, m, error) && AtLimit(c, bus, m, attempts) && InDlq(bus.dlq, m)
    case DlqRecorded(m) => IsDelivered(bus, m) && InDlq(bus.dlq, m) && m in db.deadLetters
  }

  ghost predicate IsDelivered(bus: Bus, m: MsgId) {
    m < bus.delivered <= |bus.stream|
  }

  ghost predicate IsPoisonedBy(bus: Bus, m: MsgId, error: ErrorType) {
    IsDelivered(bus, m) && PoisonError(bus.stream[m].fields) == Some(error)
  }

  /** The count reached the limit and is no more than the deliveries made so far. */
  ghost predicate AtLimit(c: Config, bus: Bus, m: MsgId, attempts: nat) {
    m in bus.deliveries && c.maxDeliveryAttempts <= attempts <= bus.deliveries[m]
  }

  /** What an open transaction has read or staged still describes the committed tables. */
  ghost predicate TxnOk(c: Config, ph: Phase, f: Fields, db: Database)
    requires TxnOpen(ph)
  {
    && PoisonError(f).None?
    && EventOf(f) == ph.event
    && ph.event.eventId !in db.processed
    && (!ph.Inserted? ==>
          && ph.event.aggregateId == UuidText(ph.batch.batchId)
          && ph.batch.batchId in db.batches
          && db.batches[ph.batch.batchId].payload == ph.batch)
    && (ph.CpuDone? || ph.MemoryDone? ==> ph.newCpu == Opens(c, db.view.incidents, ph.batch, HighCpu))
    && (ph.MemoryDone? ==> ph.newMemory == Opens(c, db.view.incidents, ph.batch, HighMemory))
  }

  ghost predicate WorkerOk(c: Config, w: Worker, db: Database, bus: Bus) {
    match w
    case Worker(queue, phase) => (forall m :: m in queue ==> m < bus.delivered) && PhaseOk(c, phase, db, bus)
  }

  ghost predicate WorkersOk(c: Config, workers: map<Proc, Worker>, db: Database, bus: Bus) {
    forall w :: w in workers ==> WorkerOk(c, workers[w], db, bus)
  }

  /** No event id and no fleet row is held by two open transactions. */
  ghost predicate LocksOk(workers: map<Proc, Worker>) {
    forall v, w :: v in workers && w in workers && v != w ==>
      && (TxnOpen(workers[v].phase) && TxnOpen(workers[w].phase) ==>
            workers[v].phase.event.eventId != workers[w].phase.event.eventId)
      && (FleetRowLocked(workers[v].phase) && FleetRowLocked(workers[w].phase) ==>
            workers[v].phase.batch.agentId != workers[w].phase.batch.agentId)
  }

  // ---------- cache ----------

  /** The rows are the fleet table as it stood after the first `n` commits. */
  ghost predicate IsSnapshot(c: Config, history: seq<Commit>, rows: map<AgentId, FleetRow>, n: nat) {
    n <= |history| && rows == Fold(c, history[..n]).fleet
  }

  ghost predicate ReadersOk(c: Config, readers: map<Proc, Reader>, history: seq<Commit>) {
    forall r :: r in readers && readers[r].Snapshot? ==> IsSnapshot(c, history, readers[r].rows, readers[r].at)
  }

  /** Commits made since the cache was set are unacknowledged and not past their DEL. */
  ghost predicate CacheOk(c: Config, entry: CacheEntry, history: seq<Commit>, acked: set<MsgId>, workers: map<Proc, Worker>) {
    && entry.selectedAt <= entry.setAt <= |history|
    && IsSnapshot(c, history, entry.rows, entry.selectedAt)
    && (forall i :: entry.setAt <= i < |history| ==> history[i].msg !in acked)
    && (forall i, w :: entry.setAt <= i < |history| && w in workers ==>
          workers[w].phase != Invalidated(history[i].msg))
  }

  // ---------- the four layers; each is inductive given the ones before it ----------

  ghost predicate Ingested(s: State) {
    && BatchesOk(s.db.agents, s.db.batches)
    && OutboxOk(s.db.batches, s.db.outbox)
    && ApisOk(s.apis, s.db.batches)
    && ResponsesOk(s.responses, s.db.batches)
  }

  ghost predicate Published(s: State) {
    && RelaysOk(s.relays, s.db.outbox)
    && StreamOk(s.bus.stream, s.db.outbox)
    && CopiesOk(s.bus.stream, s.db.outbox, s.relays, s.aborted)
    && AbortedOk(s.aborted, s.db.outbox)
  }

  ghost predicate Consistent(c: Config, db: Database, bus: Bus, workers: map<Proc, Worker>, history: seq<Commit>) {
    && GroupOk(bus)
    && AckedOk(db, bus)
    && DeadOk(c, db.deadLetters, bus)
    && HistoryOk(history, db, bus)
    && db.view == Fold(c, history)
    && WorkersOk(c, workers, db, bus)
    && LocksOk(workers)
  }

  ghost predicate Consumed(c: Config, s: State) {
    Consistent(c, s.db, s.bus, s.workers, s.history)
  }

  ghost predicate Cached(c: Config, s: State) {
    && ReadersOk(c, s.readers, s.history)
    && (s.cache.Some? ==> CacheOk(c, s.cache.value, s.history, s.bus.acked, s.workers))
  }
}
