/**
 The durable telemetry pipeline as a state machine: API transactions, outbox relays,
 the Redis stream with its consumer group, workers, and cache-aside readers
 (src/fleetpulse/api/routes.py, worker/relay.py, worker/main.py).

 A step is taken at each statement that touches PostgreSQL or Redis. A transaction's
 writes become visible at its commit; row locks are the guards on the steps that take
 them, and a lost connection or a crash discards the process with its open transaction.
 XREADGROUP and XAUTOCLAIM hand over up to ten messages at once; here a worker takes
 them one step at a time, which only adds interleavings.

 `history`, `responses`, `aborted`, `deliveries`, `acked`, `Entry.origin` and the two
 positions in `CacheEntry` are bookkeeping: no guard on a program step reads them
 (the environment's choice of event ids reads `origin`).
 */
module Pipeline {
  import opened Wrappers
  import opened Decimals
  import opened Telemetry
  import opened Queueing
  import opened Fleet

  type Proc = nat
  type MsgId = nat

  // ---------- tables ----------

  datatype AgentRow = AgentRow(hostname: string, firstSeenAt: int, lastSeenAt: int)

  datatype BatchRow = BatchRow(agentId: AgentId, observedStart: int, observedEnd: int, sampleCount: nat,
                               payload: BatchDoc)

  datatype OutboxRow = OutboxRow(eventType: Text, aggregateId: BatchId, payload: map<string, string>,
                                 createdAt: int, publishedAt: Option<int>, publicationAttempts: nat)

  datatype ProcessedRow = ProcessedRow(msg: MsgId, consumer: Proc)

  datatype DeadLetterRow = DeadLetterRow(event: Text, error: ErrorType, attempts: nat, payload: Fields)

  datatype Database = Database(agents: map<AgentId, AgentRow>, batches: map<BatchId, BatchRow>,
                               outbox: map<EventId, OutboxRow>, processed: map<EventId, ProcessedRow>,
                               view: View, deadLetters: map<MsgId, DeadLetterRow>)

  // ---------- the stream and its consumer group ----------

  datatype Origin = FromRelay(event: EventId) | Foreign

  datatype Entry = Entry(fields: Fields, origin: Origin)

  datatype Pending = Pending(consumer: Proc, times: nat)

  datatype DlqEntry = DlqEntry(source: MsgId, error: ErrorType, payload: Fields)

  /** A message id is its position in the stream; `delivered` is the group's last-delivered id. */
  datatype Bus = Bus(stream: seq<Entry>, delivered: nat, pending: map<MsgId, Pending>, acked: set<MsgId>,
                     deliveries: map<MsgId, nat>, dlq: seq<DlqEntry>)

  /** A cached list, with the number of commits at the reader's SELECT and at its SET. */
  datatype CacheEntry = CacheEntry(rows: map<AgentId, FleetRow>, selectedAt: nat, setAt: nat)

  // ---------- processes ----------

  datatype ApiTxn =
    | AgentUpserted(batch: TelemetryBatch, now: int)
    | BatchInserted(batch: TelemetryBatch, now: int, inserted: bool)

  datatype Response = Response(batchId: BatchId, accepted: bool)

  /** A relay transaction: the rows it locked, and how many of them it has added to the stream. */
  datatype RelayTxn = RelayTxn(rows: seq<EventId>, sent: nat)

  /** Where a worker is in `handle_message`; each constructor names the statement just completed. */
  datatype Phase =
    | Ready
    | Inserted(msg: MsgId, event: QueueEvent)
    | Loaded(msg: MsgId, event: QueueEvent, batch: TelemetryBatch)
    | Upserted(msg: MsgId, event: QueueEvent, batch: TelemetryBatch)
    | CpuDone(msg: MsgId, event: QueueEvent, batch: TelemetryBatch, newCpu: bool)
    | MemoryDone(msg: MsgId, event: QueueEvent, batch: TelemetryBatch, newCpu: bool, newMemory: bool)
    | Applied(msg: MsgId)
    | Invalidated(msg: MsgId)
    | Failed(msg: MsgId, error: ErrorType)
    | DeadLettering(msg: MsgId, error: ErrorType, attempts: nat)
    | DlqWritten(msg: MsgId, error: ErrorType, attempts: nat)
    | DlqRecorded(msg: MsgId)

  datatype Worker = Worker(queue: seq<MsgId>, phase: Phase)

  datatype Reader = Missed | Snapshot(rows: map<AgentId, FleetRow>, at: nat)

  datatype State = State(db: Database, bus: Bus, cache: Option<CacheEntry>,
                         apis: map<Proc, ApiTxn>, relays: map<Proc, RelayTxn>,
                         workers: map<Proc, Worker>, readers: map<Proc, Reader>,
                         history: seq<Commit>, responses: seq<Response>, aborted: multiset<EventId>)

  const INIT := State(Database(map[], map[], map[], map[], EMPTY, map[]),
                      Bus([], 0, map[], {}, map[], []), None,
                      map[], map[], map[], map[], [], [], multiset{})

  // ---------- ingest_batch ----------

  predicate CanApiUpsertAgent(s: State, p: Proc) {
    p !in s.apis
  }

  function ApiUpsertAgent(s: State, p: Proc, batch: TelemetryBatch, now: int): (t: State)
    requires CanApiUpsertAgent(s, p)
  {
    s.(apis := s.apis[p := AgentUpserted(batch, now)])
  }

  /** Another transaction holds an uncommitted row with this batch id. */
  predicate BatchLocked(apis: map<Proc, ApiTxn>, b: BatchId) {
    exists q :: q in apis && apis[q].BatchInserted? && apis[q].inserted && apis[q].batch.batchId == b
  }

  predicate CanApiInsertBatch(s: State, p: Proc) {
    p in s.apis && s.apis[p].AgentUpserted? && !BatchLocked(s.apis, s.apis[p].batch.batchId)
  }

  function ApiInsertBatch(s: State, p: Proc): (t: State)
    requires CanApiInsertBatch(s, p)
  {
    var txn := s.apis[p];
    s.(apis := s.apis[p := BatchInserted(txn.batch, txn.now, txn.batch.batchId !in s.db.batches)])
  }

  /** A fresh UUID: neither an outbox id nor an id some stream message carries. */
  predicate FreshEvent(s: State, e: EventId) {
    && e !in s.db.outbox
    && forall i :: 0 <= i < |s.bus.stream| && Decodes(s.bus.stream[i].fields) ==> EventOf(s.bus.stream[i].fields).eventId != e
  }

  predicate CanApiCommit(s: State, p: Proc, e: EventId) {
    p in s.apis && s.apis[p].BatchInserted? && FreshEvent(s, e)
  }

  function UpsertAgentRow(agents: map<AgentId, AgentRow>, batch: TelemetryBatch, now: int): (r: map<AgentId, AgentRow>) {
    agents[batch.agentId := AgentRow(batch.hostname,
                                     if batch.agentId in agents then agents[batch.agentId].firstSeenAt else now,
                                     now)]
  }

  function BatchRowOf(batch: TelemetryBatch): (r: BatchRow) {
    BatchRow(batch.agentId, MinTime(batch.samples), MaxTime(batch.samples), |batch.samples|, batch)
  }

  function OutboxRowOf(batch: TelemetryBatch, createdAt: int, correlation: string): (r: OutboxRow) {
    OutboxRow(ACCEPTED, batch.batchId,
              map["batch_id" := Decimal(batch.batchId), "agent_id" := batch.agentId, "correlation_id" := correlation],
              createdAt, None, 0)
  }

  /** Commit of the agent upsert and, when the batch row was inserted, of batch row and outbox row together. */
  function ApiCommit(s: State, p: Proc, e: EventId, createdAt: int, correlation: string): (t: State)
    requires CanApiCommit(s, p, e)
  {
    var txn := s.apis[p];
    var b := txn.batch;
    var agents := UpsertAgentRow(s.db.agents, b, txn.now);
    var db := if txn.inserted then
                s.db.(agents := agents,
                      batches := s.db.batches[b.batchId := BatchRowOf(b)],
                      outbox := s.db.outbox[e := OutboxRowOf(b, createdAt, correlation)])
              else
                s.db.(agents := agents);
    s.(db := db, apis := s.apis - {p}, responses := s.responses + [Response(b.batchId, txn.inserted)])
  }

  predicate CanApiAbort(s: State, p: Proc) {
    p in s.apis
  }

  function ApiAbort(s: State, p: Proc): (t: State)
    requires CanApiAbort(s, p)
  {
    s.(apis := s.apis - {p})
  }

  // ---------- publish_once ----------

  predicate Unpublished(outbox: map<EventId, OutboxRow>, e: EventId) {
    e in outbox && outbox[e].publishedAt.None?
  }

  /** Some open relay transaction has locked this row. */
  predicate RowLocked(relays: map<Proc, RelayTxn>, e: EventId) {
    exists q :: q in relays && e in relays[q].rows
  }

  predicate InCreationOrder(outbox: map<EventId, OutboxRow>, rows: seq<EventId>)
    requires forall e :: e in rows ==> e in outbox
  {
    forall i, j :: 0 <= i < j < |rows| ==> outbox[rows[i]].createdAt <= outbox[rows[j]].createdAt
  }

  const PAGE: nat := 100

  /**
   SELECT … FOR UPDATE SKIP LOCKED: any unpublished rows nobody has locked, at most a page, in
   creation order. Which rows is left open, since rows other relays hold at that moment are skipped.
   */
  predicate CanRelayLock(s: State, p: Proc, rows: seq<EventId>) {
    && p !in s.relays
    && |rows| <= PAGE
    && Distinct(rows)
    && (forall e :: e in rows ==> Unpublished(s.db.outbox, e) && !RowLocked(s.relays, e))
    && InCreationOrder(s.db.outbox, rows)
  }

  function RelayLock(s: State, p: Proc, rows: seq<EventId>): (t: State)
    requires CanRelayLock(s, p, rows)
  {
    s.(relays := s.relays[p := RelayTxn(rows, 0)])
  }

  predicate CanRelayXadd(s: State, p: Proc) {
    p in s.relays && s.relays[p].sent < |s.relays[p].rows| && s.relays[p].rows[s.relays[p].sent] in s.db.outbox
  }

  function FieldsOf(e: EventId, row: OutboxRow): (f: Fields) {
    EncodeEvent(e, row.eventType, UuidText(row.aggregateId), row.payload)
  }

  function RelayXadd(s: State, p: Proc): (t: State)
    requires CanRelayXadd(s, p)
  {
    var txn := s.relays[p];
    var e := txn.rows[txn.sent];
    s.(bus := s.bus.(stream := s.bus.stream + [Entry(FieldsOf(e, s.db.outbox[e]), FromRelay(e))]),
       relays := s.relays[p := txn.(sent := txn.sent + 1)])
  }

  predicate CanRelayCommit(s: State, p: Proc) {
    p in s.relays && s.relays[p].sent == |s.relays[p].rows|
  }

  function MarkPublished(outbox: map<EventId, OutboxRow>, rows: seq<EventId>, at: int): (r: map<EventId, OutboxRow>) {
    map e | e in outbox ::
      if e in rows then outbox[e].(publishedAt := Some(at), publicationAttempts := outbox[e].publicationAttempts + 1)
      else outbox[e]
  }

  function RelayCommit(s: State, p: Proc, at: int): (t: State)
    requires CanRelayCommit(s, p)
  {
    s.(db := s.db.(outbox := MarkPublished(s.db.outbox, s.relays[p].rows, at)), relays := s.relays - {p})
  }

  predicate CanRelayAbort(s: State, p: Proc) {
    p in s.relays && s.relays[p].sent <= |s.relays[p].rows|
  }

  function RelayAbort(s: State, p: Proc): (t: State)
    requires CanRelayAbort(s, p)
  {
    var txn := s.relays[p];
    s.(relays := s.relays - {p}, aborted := s.aborted + multiset(txn.rows[..txn.sent]))
  }

  /** Anything else on the stream, well formed or not, as long as it does not forge an outbox event id. */
  predicate CanInject(s: State, f: Fields) {
    Decodes(f) ==> EventOf(f).eventId !in s.db.outbox
  }

  function Inject(s: State, f: Fields): (t: State)
    requires CanInject(s, f)
  {
    s.(bus := s.bus.(stream := s.bus.stream + [Entry(f, Foreign)]))
  }

  // ---------- worker: reading and claiming ----------

  predicate CanWorkerStart(s: State, w: Proc) {
    w !in s.workers
  }

  function WorkerStart(s: State, w: Proc): (t: State)
    requires CanWorkerStart(s, w)
  {
    s.(workers := s.workers[w := Worker([], Ready)])
  }

  predicate IsReady(s: State, w: Proc) {
    w in s.workers && s.workers[w].phase.Ready?
  }

  predicate CanWorkerRead(s: State, w: Proc) {
    IsReady(s, w) && s.bus.delivered < |s.bus.stream|
  }

  /** XREADGROUP hands over the next message with delivery count one. */
  function WorkerRead(s: State, w: Proc): (t: State)
    requires CanWorkerRead(s, w)
  {
    var m := s.bus.delivered;
    s.(bus := s.bus.(delivered := m + 1, pending := s.bus.pending[m := Pending(w, 1)],
                     deliveries := s.bus.deliveries[m := 1]),
       workers := s.workers[w := Worker(s.workers[w].queue + [m], Ready)])
  }

  /** Any pending message may have been idle long enough, including one a slow worker still holds. */
  predicate CanWorkerClaim(s: State, w: Proc, m: MsgId) {
    IsReady(s, w) && m in s.bus.pending
  }

  function WorkerClaim(s: State, w: Proc, m: MsgId): (t: State)
    requires CanWorkerClaim(s, w, m)
  {
    var times := s.bus.pending[m].times + 1;
    s.(bus := s.bus.(pending := s.bus.pending[m := Pending(w, times)], deliveries := s.bus.deliveries[m := times]),
       workers := s.workers[w := Worker(s.workers[w].queue + [m], Ready)])
  }

  // ---------- worker: process_event ----------

  predicate TxnOpen(ph: Phase) {
    ph.Inserted? || ph.Loaded? || ph.Upserted? || ph.CpuDone? || ph.MemoryDone?
  }

  predicate FleetRowLocked(ph: Phase) {
    ph.Upserted? || ph.CpuDone? || ph.MemoryDone?
  }

  /** Another open transaction holds an uncommitted `processed_events` row for this event. */
  predicate EventLocked(workers: map<Proc, Worker>, e: EventId) {
    exists v :: v in workers && TxnOpen(workers[v].phase) && workers[v].phase.event.eventId == e
  }

  predicate CanWorkerBegin(s: State, w: Proc) {
    && IsReady(s, w)
    && s.workers[w].queue != []
    && s.workers[w].queue[0] < |s.bus.stream|
    && var f := s.bus.stream[s.workers[w].queue[0]].fields;
       Decodes(f) ==> !EventLocked(s.workers, EventOf(f).eventId)
  }

  /** Decode, insert into `processed_events`, check the type: where that leads for one message. */
  function BeginPhase(processed: map<EventId, ProcessedRow>, m: MsgId, f: Fields): (ph: Phase) {
    match DecodeEvent(f)
    case Failure(error) => Failed(m, error)
    case Success(event) =>
      if event.eventId in processed then Applied(m)
      else if event.eventType != ACCEPTED then Failed(m, ValueError)
      else Inserted(m, event)
  }

  function SetPhase(s: State, w: Proc, ph: Phase): (t: State)
    requires w in s.workers
  {
    s.(workers := s.workers[w := s.workers[w].(phase := ph)])
  }

  function WorkerBegin(s: State, w: Proc): (t: State)
    requires CanWorkerBegin(s, w)
  {
    var queue := s.workers[w].queue;
    var m := queue[0];
    s.(workers := s.workers[w := Worker(queue[1..], BeginPhase(s.db.processed, m, s.bus.stream[m].fields))])
  }

  /** `scalar_one` finds the batch row. Without one the exception is not caught: the worker can only crash. */
  predicate CanWorkerLoad(s: State, w: Proc) {
    && w in s.workers
    && s.workers[w].phase.Inserted?
    && s.workers[w].phase.event.aggregateId.UuidText?
    && s.workers[w].phase.event.aggregateId.id in s.db.batches
  }

  function WorkerLoad(s: State, w: Proc): (t: State)
    requires CanWorkerLoad(s, w)
  {
    var ph := s.workers[w].phase;
    var doc := s.db.batches[ph.event.aggregateId.id].payload;
    SetPhase(s, w, if ValidBatch(doc) then Loaded(ph.msg, ph.event, doc) else Failed(ph.msg, ValidationError))
  }

  predicate AgentLocked(workers: map<Proc, Worker>, a: AgentId) {
    exists v :: v in workers && FleetRowLocked(workers[v].phase) && workers[v].phase.batch.agentId == a
  }

  predicate CanWorkerUpsert(s: State, w: Proc) {
    && w in s.workers
    && s.workers[w].phase.Loaded?
    && !AgentLocked(s.workers, s.workers[w].phase.batch.agentId)
  }

  function WorkerUpsert(s: State, w: Proc): (t: State)
    requires CanWorkerUpsert(s, w)
  {
    var ph := s.workers[w].phase;
    SetPhase(s, w, Upserted(ph.msg, ph.event, ph.batch))
  }

  predicate CanWorkerCpu(s: State, w: Proc) {
    w in s.workers && s.workers[w].phase.Upserted?
  }

  function WorkerCpu(c: Config, s: State, w: Proc): (t: State)
    requires CanWorkerCpu(s, w)
  {
    var ph := s.workers[w].phase;
    SetPhase(s, w, CpuDone(ph.msg, ph.event, ph.batch, Opens(c, s.db.view.incidents, ph.batch, HighCpu)))
  }

  predicate CanWorkerMemory(s: State, w: Proc) {
    w in s.workers && s.workers[w].phase.CpuDone?
  }

  function WorkerMemory(c: Config, s: State, w: Proc): (t: State)
    requires CanWorkerMemory(s, w)
  {
    var ph := s.workers[w].phase;
    SetPhase(s, w, MemoryDone(ph.msg, ph.event, ph.batch, ph.newCpu, Opens(c, s.db.view.incidents, ph.batch, HighMemory)))
  }

  predicate CanWorkerCommit(s: State, w: Proc) {
    w in s.workers && s.workers[w].phase.MemoryDone?
  }

  function AddIncident(c: Config, incidents: map<string, Incident>, b: TelemetryBatch, kind: Kind, isNew: bool)
    : (r: map<string, Incident>)
  {
    if isNew then incidents[Key(b.agentId, kind) := IncidentOf(c, b, kind)] else incidents
  }

  /** The staged rows of the transaction become the tables' rows. */
  function CommittedView(c: Config, v: View, ph: Phase): (r: View)
    requires ph.MemoryDone?
  {
    View(v.fleet[ph.batch.agentId := RowOf(ph.batch)],
         AddIncident(c, AddIncident(c, v.incidents, ph.batch, HighCpu, ph.newCpu), ph.batch, HighMemory, ph.newMemory))
  }

  function WorkerCommit(c: Config, s: State, w: Proc): (t: State)
    requires CanWorkerCommit(s, w)
  {
    var ph := s.workers[w].phase;
    var e := ph.event.eventId;
    SetPhase(s, w, Applied(ph.msg)).(
      db := s.db.(processed := s.db.processed[e := ProcessedRow(ph.msg, w)], view := CommittedView(c, s.db.view, ph)),
      history := s.history + [Commit(e, ph.msg, ph.batch)])
  }

  // ---------- worker: after process_event ----------

  predicate CanWorkerInvalidate(s: State, w: Proc) {
    w in s.workers && s.workers[w].phase.Applied?
  }

  function WorkerInvalidate(s: State, w: Proc): (t: State)
    requires CanWorkerInvalidate(s, w)
  {
    SetPhase(s, w, Invalidated(s.workers[w].phase.msg)).(cache := None)
  }

  function Acknowledge(bus: Bus, m: MsgId): (r: Bus) {
    bus.(pending := bus.pending - {m}, acked := bus.acked + {m})
  }

  predicate CanWorkerAck(s: State, w: Proc) {
    w in s.workers && (s.workers[w].phase.Invalidated? || s.workers[w].phase.DlqRecorded?)
  }

  /** XACK, which also succeeds when another consumer has claimed or acknowledged the message. */
  function WorkerAck(s: State, w: Proc): (t: State)
    requires CanWorkerAck(s, w)
  {
    SetPhase(s, w, Ready).(bus := Acknowledge(s.bus, s.workers[w].phase.msg))
  }

  // ---------- worker: the caught errors ----------

  predicate CanWorkerAttempts(s: State, w: Proc) {
    w in s.workers && s.workers[w].phase.Failed?
  }

  /** `delivery_attempts`: the group's count, or one when the message is no longer pending. */
  function DeliveryAttempts(bus: Bus, m: MsgId): (n: nat) {
    if m in bus.pending then bus.pending[m].times else 1
  }

  /** Dead-letter at the limit, otherwise leave the message pending. */
  function AttemptsNext(c: Config, s: State, ph: Phase): (r: Phase)
    requires ph.Failed?
  {
    var n := DeliveryAttempts(s.bus, ph.msg);
    if n >= c.maxDeliveryAttempts then DeadLettering(ph.msg, ph.error, n) else Ready
  }

  function WorkerAttempts(c: Config, s: State, w: Proc): (t: State)
    requires CanWorkerAttempts(s, w)
  {
    SetPhase(s, w, AttemptsNext(c, s, s.workers[w].phase))
  }

  predicate CanWorkerDlqAdd(s: State, w: Proc) {
    w in s.workers && s.workers[w].phase.DeadLettering? && s.workers[w].phase.msg < |s.bus.stream|
  }

  function WorkerDlqAdd(s: State, w: Proc): (t: State)
    requires CanWorkerDlqAdd(s, w)
  {
    var ph := s.workers[w].phase;
    SetPhase(s, w, DlqWritten(ph.msg, ph.error, ph.attempts)).(
      bus := s.bus.(dlq := s.bus.dlq + [DlqEntry(ph.msg, ph.error, s.bus.stream[ph.msg].fields)]))
  }

  predicate CanWorkerRecordDead(s: State, w: Proc) {
    w in s.workers && s.workers[w].phase.DlqWritten? && s.workers[w].phase.msg < |s.bus.stream|
  }

  function DeadLetterOf(ph: Phase, f: Fields): (r: DeadLetterRow)
    requires ph.DlqWritten?
  {
    DeadLetterRow(if "event_id" in f then f["event_id"] else Plain("unknown"), ph.error, ph.attempts, f)
  }

  function WorkerRecordDead(s: State, w: Proc): (t: State)
    requires CanWorkerRecordDead(s, w)
  {
    var ph := s.workers[w].phase;
    var dead := s.db.deadLetters;
    SetPhase(s, w, DlqRecorded(ph.msg)).(
      db := s.db.(deadLetters := if ph.msg in dead then dead
                                 else dead[ph.msg := DeadLetterOf(ph, s.bus.stream[ph.msg].fields)]))
  }

  predicate CanWorkerCrash(s: State, w: Proc) {
    w in s.workers
  }

  function WorkerCrash(s: State, w: Proc): (t: State)
    requires CanWorkerCrash(s, w)
  {
    s.(workers := s.workers - {w})
  }

  // ---------- list_fleet_state ----------

  /** A miss, or a cache error that is bypassed; a hit returns the cached rows and changes nothing. */
  predicate CanReaderMiss(s: State, r: Proc) {
    r !in s.readers
  }

  function ReaderMiss(s: State, r: Proc): (t: State)
    requires CanReaderMiss(s, r)
  {
    s.(readers := s.readers[r := Missed])
  }

  predicate CanReaderSelect(s: State, r: Proc) {
    r in s.readers && s.readers[r].Missed?
  }

  function ReaderSelect(s: State, r: Proc): (t: State)
    requires CanReaderSelect(s, r)
  {
    s.(readers := s.readers[r := Snapshot(s.db.view.fleet, |s.history|)])
  }

  predicate CanReaderSet(s: State, r: Proc) {
    r in s.readers && s.readers[r].Snapshot?
  }

  function ReaderSet(s: State, r: Proc): (t: State)
    requires CanReaderSet(s, r)
  {
    s.(cache := Some(CacheEntry(s.readers[r].rows, s.readers[r].at, |s.history|)), readers := s.readers - {r})
  }

  predicate CanReaderQuit(s: State, r: Proc) {
    r in s.readers
  }

  function ReaderQuit(s: State, r: Proc): (t: State)
    requires CanReaderQuit(s, r)
  {
    s.(readers := s.readers - {r})
  }

  /** The entry's TTL runs out. */
  function CacheExpire(s: State): (t: State) {
    s.(cache := None)
  }

  // ---------- steps and runs ----------

  datatype ApiAction =
    | DoUpsertAgent(batch: TelemetryBatch, now: int)
    | DoInsertBatch
    | DoApiCommit(event: EventId, createdAt: int, correlation: string)
    | DoApiAbort

  datatype RelayAction = DoLock(rows: seq<EventId>) | DoXadd | DoRelayCommit(at: int) | DoRelayAbort

  /** Statements outside `process_event`: fetching messages, cache, acknowledgement, dead letters. */
  datatype DeliveryAction =
    | DoStart | DoRead | DoClaim(m: MsgId) | DoInvalidate | DoAck | DoAttempts | DoDlqAdd | DoRecordDead | DoCrash

  datatype ProcessAction = DoBegin | DoLoad | DoUpsert | DoCpu | DoMemory | DoCommit

  datatype ReaderAction = DoMiss | DoSelect | DoSet | DoQuit

  datatype Step =
    | Api(p: Proc, api: ApiAction)
    | Relay(p: Proc, relay: RelayAction)
    | Deliver(p: Proc, deliver: DeliveryAction)
    | Process(p: Proc, process: ProcessAction)
    | Read(p: Proc, read: ReaderAction)
    | Environment(fields: Fields)
    | Expire

  predicate ApiEnabled(s: State, p: Proc, a: ApiAction) {
    match a
    case DoUpsertAgent(_, _) => CanApiUpsertAgent(s, p)
    case DoInsertBatch => CanApiInsertBatch(s, p)
    case DoApiCommit(e, _, _) => CanApiCommit(s, p, e)
    case DoApiAbort => CanApiAbort(s, p)
  }

  function ApiNext(s: State, p: Proc, a: ApiAction): (t: State)
    requires ApiEnabled(s, p, a)
  {
    match a
    case DoUpsertAgent(batch, now) => ApiUpsertAgent(s, p, batch, now)
    case DoInsertBatch => ApiInsertBatch(s, p)
    case DoApiCommit(e, createdAt, correlation) => ApiCommit(s, p, e, createdAt, correlation)
    case DoApiAbort => ApiAbort(s, p)
  }

  predicate RelayEnabled(s: State, p: Proc, a: RelayAction) {
    match a
    case DoLock(rows) => CanRelayLock(s, p, rows)
    case DoXadd => CanRelayXadd(s, p)
    case DoRelayCommit(_) => CanRelayCommit(s, p)
    case DoRelayAbort => CanRelayAbort(s, p)
  }

  function RelayNext(s: State, p: Proc, a: RelayAction): (t: State)
    requires RelayEnabled(s, p, a)
  {
    match a
    case DoLock(rows) => RelayLock(s, p, rows)
    case DoXadd => RelayXadd(s, p)
    case DoRelayCommit(at) => RelayCommit(s, p, at)
    case DoRelayAbort => RelayAbort(s, p)
  }

  predicate DeliveryEnabled(s: State, w: Proc, a: DeliveryAction) {
    match a
    case DoStart => CanWorkerStart(s, w)
    case DoRead => CanWorkerRead(s, w)
    case DoClaim(m) => CanWorkerClaim(s, w, m)
    case DoInvalidate => CanWorkerInvalidate(s, w)
    case DoAck => CanWorkerAck(s, w)
    case DoAttempts => CanWorkerAttempts(s, w)
    case DoDlqAdd => CanWorkerDlqAdd(s, w)
    case DoRecordDead => CanWorkerRecordDead(s, w)
    case DoCrash => CanWorkerCrash(s, w)
  }

  function DeliveryNext(c: Config, s: State, w: Proc, a: DeliveryAction): (t: State)
    requires DeliveryEnabled(s, w, a)
  {
    match a
    case DoStart => WorkerStart(s, w)
    case DoRead => WorkerRead(s, w)
    case DoClaim(m) => WorkerClaim(s, w, m)
    case DoInvalidate => WorkerInvalidate(s, w)
    case DoAck => WorkerAck(s, w)
    case DoAttempts => WorkerAttempts(c, s, w)
    case DoDlqAdd => WorkerDlqAdd(s, w)
    case DoRecordDead => WorkerRecordDead(s, w)
    case DoCrash => WorkerCrash(s, w)
  }

  predicate ProcessEnabled(s: State, w: Proc, a: ProcessAction) {
    match a
    case DoBegin => CanWorkerBegin(s, w)
    case DoLoad => CanWorkerLoad(s, w)
    case DoUpsert => CanWorkerUpsert(s, w)
    case DoCpu => CanWorkerCpu(s, w)
    case DoMemory => CanWorkerMemory(s, w)
    case DoCommit => CanWorkerCommit(s, w)
  }

  function ProcessNext(c: Config, s: State, w: Proc, a: ProcessAction): (t: State)
    requires ProcessEnabled(s, w, a)
  {
    match a
    case DoBegin => WorkerBegin(s, w)
    case DoLoad => WorkerLoad(s, w)
    case DoUpsert => WorkerUpsert(s, w)
    case DoCpu => WorkerCpu(c, s, w)
    case DoMemory => WorkerMemory(c, s, w)
    case DoCommit => WorkerCommit(c, s, w)
  }

  predicate ReaderEnabled(s: State, r: Proc, a: ReaderAction) {
    match a
    case DoMiss => CanReaderMiss(s, r)
    case DoSelect => CanReaderSelect(s, r)
    case DoSet => CanReaderSet(s, r)
    case DoQuit => CanReaderQuit(s, r)
  }

  function ReaderNext(s: State, r: Proc, a: ReaderAction): (t: State)
    requires ReaderEnabled(s, r, a)
  {
    match a
    case DoMiss => ReaderMiss(s, r)
    case DoSelect => ReaderSelect(s, r)
    case DoSet => ReaderSet(s, r)
    case DoQuit => ReaderQuit(s, r)
  }

  predicate Enabled(s: State, a: Step) {
    match a
    case Api(p, x) => ApiEnabled(s, p, x)
    case Relay(p, x) => RelayEnabled(s, p, x)
    case Deliver(p, x) => DeliveryEnabled(s, p, x)
    case Process(p, x) => ProcessEnabled(s, p, x)
    case Read(p, x) => ReaderEnabled(s, p, x)
    case Environment(f) => CanInject(s, f)
    case Expire => true
  }

  function Next(c: Config, s: State, a: Step): (t: State)
    requires Enabled(s, a)
  {
    match a
    case Api(p, x) => ApiNext(s, p, x)
    case Relay(p, x) => RelayNext(s, p, x)
    case Deliver(p, x) => DeliveryNext(c, s, p, x)
    case Process(p, x) => ProcessNext(c, s, p, x)
    case Read(p, x) => ReaderNext(s, p, x)
    case Environment(f) => Inject(s, f)
    case Expire => CacheExpire(s)
  }

  // ---------- frames: what each kind of action leaves alone ----------

  lemma ApiFrame(s: State, p: Proc, a: ApiAction)
    requires ApiEnabled(s, p, a)
    ensures var t := ApiNext(s, p, a);
            && t == s.(db := t.db, apis := t.apis, responses := t.responses)
            && t.db == s.db.(agents := t.db.agents, batches := t.db.batches, outbox := t.db.outbox)
  {
  }

  lemma RelayFrame(s: State, p: Proc, a: RelayAction)
    requires RelayEnabled(s, p, a)
    ensures var t := RelayNext(s, p, a);
            && t == s.(db := t.db, bus := t.bus, relays := t.relays, aborted := t.aborted)
            && t.db == s.db.(outbox := t.db.outbox)
            && t.bus == s.bus.(stream := t.bus.stream)
            && s.bus.stream <= t.bus.stream
  {
  }

  lemma DeliveryFrame(c: Config, s: State, w: Proc, a: DeliveryAction)
    requires DeliveryEnabled(s, w, a)
    ensures var t := DeliveryNext(c, s, w, a);
            && t == s.(db := t.db, bus := t.bus, cache := t.cache, workers := t.workers)
            && t.db == s.db.(deadLetters := t.db.deadLetters)
            && t.bus.stream == s.bus.stream
  {
  }

  lemma ProcessFrame(c: Config, s: State, w: Proc, a: ProcessAction)
    requires ProcessEnabled(s, w, a)
    ensures var t := ProcessNext(c, s, w, a);
            && t == s.(db := t.db, workers := t.workers, history := t.history)
            && t.db == s.db.(processed := t.db.processed, view := t.db.view)
  {
  }

  lemma ReaderFrame(s: State, r: Proc, a: ReaderAction)
    requires ReaderEnabled(s, r, a)
    ensures var t := ReaderNext(s, r, a); t == s.(cache := t.cache, readers := t.readers)
  {
  }

  /** The steps, taken in order from `s`, are all enabled and end in `t`. */
  ghost predicate Run(c: Config, s: State, steps: seq<Step>, t: State)
    decreases |steps|
  {
    if steps == [] then s == t
    else
      var n := |steps| - 1;
      exists u :: Run(c, s, steps[..n], u) && Enabled(u, steps[n]) && t == Next(c, u, steps[n])
  }

  /** The program can get from `s` to `t`. */
  ghost predicate Reaches(c: Config, s: State, t: State) {
    exists steps :: Run(c, s, steps, t)
  }

  ghost predicate Reachable(c: Config, s: State) {
    Reaches(c, INIT, s)
  }

  lemma ReachesSelf(c: Config, s: State)
    ensures Reaches(c, s, s)
  {
    assert Run(c, s, [], s);
  }

  lemma RunSnoc(c: Config, s: State, steps: seq<Step>, t: State, a: Step)
    requires Run(c, s, steps, t) && Enabled(t, a)
    ensures Run(c, s, steps + [a], Next(c, t, a))
  {
    var longer := steps + [a];
    assert longer[..|longer| - 1] == steps;
  }

  lemma ReachesStep(c: Config, s: State, t: State, a: Step)
    requires Reaches(c, s, t) && Enabled(t, a)
    ensures Reaches(c, s, Next(c, t, a))
  {
    var steps :| Run(c, s, steps, t);
    RunSnoc(c, s, steps, t, a);
  }

  lemma RunUnsnoc(c: Config, s: State, steps: seq<Step>, t: State) returns (u: State)
    requires Run(c, s, steps, t) && steps != []
    ensures Run(c, s, steps[..|steps| - 1], u)
    ensures Enabled(u, steps[|steps| - 1]) && t == Next(c, u, steps[|steps| - 1])
  {
    var n := |steps| - 1;
    u :| Run(c, s, steps[..n], u) && Enabled(u, steps[n]) && t == Next(c, u, steps[n]);
  }

  lemma RunExtend(c: Config, s: State, xs: seq<Step>, ys: seq<Step>, v: State)
    requires ys != [] && Run(c, s, xs + ys[..|ys| - 1], v) && Enabled(v, ys[|ys| - 1])
    ensures Run(c, s, xs + ys, Next(c, v, ys[|ys| - 1]))
  {
    RunSnoc(c, s, xs + ys[..|ys| - 1], v, ys[|ys| - 1]);
    assert xs + ys == (xs + ys[..|ys| - 1]) + [ys[|ys| - 1]];
  }

  lemma {:induction false} RunConcat(c: Config, s: State, xs: seq<Step>, t: State, ys: seq<Step>, u: State)
    requires Run(c, s, xs, t) && Run(c, t, ys, u)
    ensures Run(c, s, xs + ys, u)
    decreases |ys|
  {
    if ys == [] {
      assert xs + ys == xs;
    } else {
      var v := RunUnsnoc(c, t, ys, u);
      RunConcat(c, s, xs, t, ys[..|ys| - 1], v);
      RunExtend(c, s, xs, ys, v);
    }
  }

  lemma ReachesTransitive(c: Config, s: State, t: State, u: State)
    requires Reaches(c, s, t) && Reaches(c, t, u)
    ensures Reaches(c, s, u)
  {
    var xs :| Run(c, s, xs, t);
    var ys :| Run(c, t, ys, u);
    RunConcat(c, s, xs, t, ys, u);
  }

  /** A run from the initial state in which every step also satisfies `allowed`. */
  ghost predicate RestrictedRun(c: Config, allowed: (State, Step) -> bool, steps: seq<Step>, t: State)
    decreases |steps|
  {
    if steps == [] then t == INIT
    else
      var n := |steps| - 1;
      exists u :: RestrictedRun(c, allowed, steps[..n], u) && Enabled(u, steps[n]) && allowed(u, steps[n])
                  && t == Next(c, u, steps[n])
  }

  lemma {:induction false} RestrictedIsRun(c: Config, allowed: (State, Step) -> bool, steps: seq<Step>, t: State)
    requires RestrictedRun(c, allowed, steps, t)
    ensures Run(c, INIT, steps, t)
  {
    if steps != [] {
      var n := |steps| - 1;
      var u :| RestrictedRun(c, allowed, steps[..n], u) && Enabled(u, steps[n]) && allowed(u, steps[n])
               && t == Next(c, u, steps[n]);
      RestrictedIsRun(c, allowed, steps[..n], u);
    }
  }
}
