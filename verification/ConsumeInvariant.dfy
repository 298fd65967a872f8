/** The worker layer: deliveries, acknowledgements, dead letters, commits and their locks. */
module ConsumeInvariant {
  import opened Telemetry
  import opened Queueing
  import opened Fleet
  import opened Pipeline
  import opened PipelineInvariant

  // ---------- frames ----------

  /** Only rows a worker never rereads differently were added: batches and dead letters. */
  ghost predicate DbExtends(a: Database, b: Database) {
    && (forall x :: x in a.batches ==> x in b.batches && b.batches[x] == a.batches[x])
    && (forall m :: m in a.deadLetters ==> m in b.deadLetters && b.deadLetters[m] == a.deadLetters[m])
    && b.processed == a.processed
    && b.view == a.view
  }

  /** The stream, the dead-letter stream and the delivery counts only grew. */
  ghost predicate BusExtends(x: Bus, y: Bus) {
    && x.stream <= y.stream
    && x.delivered <= y.delivered <= |y.stream|
    && (forall m :: m in x.deliveries ==> m in y.deliveries && x.deliveries[m] <= y.deliveries[m])
    && (forall m :: InDlq(x.dlq, m) ==> InDlq(y.dlq, m))
  }

  lemma PhaseFrame(c: Config, ph: Phase, a: Database, b: Database, x: Bus, y: Bus)
    requires PhaseOk(c, ph, a, x)
    requires DbExtends(a, b) && BusExtends(x, y)
    ensures PhaseOk(c, ph, b, y)
  {
  }

  lemma WorkersFrame(c: Config, workers: map<Proc, Worker>, a: Database, b: Database, x: Bus, y: Bus)
    requires WorkersOk(c, workers, a, x)
    requires DbExtends(a, b) && BusExtends(x, y)
    ensures WorkersOk(c, workers, b, y)
  {
    forall w | w in workers ensures WorkerOk(c, workers[w], b, y) {
      assert WorkerOk(c, workers[w], a, x);
      PhaseFrame(c, workers[w].phase, a, b, x, y);
    }
  }

  lemma HistoryFrame(history: seq<Commit>, a: Database, b: Database, x: Bus, y: Bus)
    requires HistoryOk(history, a, x)
    requires DbExtends(a, b) && BusExtends(x, y)
    ensures HistoryOk(history, b, y)
  {
    forall i | 0 <= i < |history| ensures CommitOk(b, y, history[i]) {
      assert CommitOk(a, x, history[i]);
    }
  }

  ghost predicate Settled(db: Database, bus: Bus, m: MsgId) {
    IsProcessed(db, bus, m) || (m in db.deadLetters && InDlq(bus.dlq, m))
  }

  lemma AckedFrame(a: Database, b: Database, x: Bus, y: Bus)
    requires AckedOk(a, x)
    requires DbExtends(a, b) && BusExtends(x, y)
    requires forall m :: m in y.acked ==> m in x.acked || Settled(a, x, m)
    ensures AckedOk(b, y)
  {
    forall m | m in y.acked ensures Settled(b, y, m) {
      assert Settled(a, x, m);
    }
  }

  lemma DeadFrame(c: Config, dead: map<MsgId, DeadLetterRow>, x: Bus, y: Bus)
    requires DeadOk(c, dead, x)
    requires BusExtends(x, y)
    requires y.dlq == x.dlq
    ensures DeadOk(c, dead, y)
  {
    forall m | m in dead ensures DeadLetterOk(c, y, m, dead[m]) {
      assert DeadLetterOk(c, x, m, dead[m]);
    }
    forall i | 0 <= i < |y.dlq| ensures DlqEntryOk(y, y.dlq[i]) {
      assert DlqEntryOk(x, x.dlq[i]);
    }
  }

  // ---------- replacing one worker ----------

  lemma WorkersUpdate(c: Config, workers: map<Proc, Worker>, db: Database, bus: Bus, w: Proc, x: Worker)
    requires WorkersOk(c, workers, db, bus)
    requires WorkerOk(c, x, db, bus)
    ensures WorkersOk(c, workers[w := x], db, bus)
  {
  }

  ghost predicate NoClash(x: Phase, y: Phase) {
    && (TxnOpen(x) && TxnOpen(y) ==> x.event.eventId != y.event.eventId)
    && (FleetRowLocked(x) && FleetRowLocked(y) ==> x.batch.agentId != y.batch.agentId)
  }

  lemma LocksUpdate(workers: map<Proc, Worker>, w: Proc, x: Worker)
    requires LocksOk(workers)
    requires forall v :: v in workers && v != w ==> NoClash(workers[v].phase, x.phase)
    ensures LocksOk(workers[w := x])
  {
    var workers' := workers[w := x];
    forall u, v | u in workers' && v in workers' && u != v ensures NoClash(workers'[u].phase, workers'[v].phase) {
      if u == w {
        assert NoClash(workers[v].phase, x.phase);
      } else if v == w {
        assert NoClash(workers[u].phase, x.phase);
      } else {
        assert workers'[u] == workers[u] && workers'[v] == workers[v];
      }
    }
  }

  /** A phase without locks clashes with none. */
  lemma LocklessNoClash(workers: map<Proc, Worker>, ph: Phase)
    requires !TxnOpen(ph)
    ensures forall v :: v in workers ==> NoClash(workers[v].phase, ph)
  {
  }

  /** The whole layer, when tables and stream grow and one worker moves. */
  lemma Move(c: Config, s: State, db: Database, bus: Bus, w: Proc, x: Worker)
    requires Consumed(c, s)
    requires DbExtends(s.db, db) && BusExtends(s.bus, bus)
    requires GroupOk(bus)
    requires forall m :: m in bus.acked ==> m in s.bus.acked || Settled(s.db, s.bus, m)
    requires DeadOk(c, db.deadLetters, bus)
    requires WorkerOk(c, x, db, bus)
    requires forall v :: v in s.workers && v != w ==> NoClash(s.workers[v].phase, x.phase)
    ensures Consistent(c, db, bus, s.workers[w := x], s.history)
  {
    AckedFrame(s.db, db, s.bus, bus);
    HistoryFrame(s.history, s.db, db, s.bus, bus);
    WorkersFrame(c, s.workers, s.db, db, s.bus, bus);
    WorkersUpdate(c, s.workers, db, bus, w, x);
    LocksUpdate(s.workers, w, x);
  }

  /** The whole layer, when only batches and stream grow. */
  lemma Grow(c: Config, s: State, db: Database, bus: Bus)
    requires Consumed(c, s)
    requires DbExtends(s.db, db) && db.deadLetters == s.db.deadLetters
    requires s.bus.stream <= bus.stream && bus == s.bus.(stream := bus.stream)
    ensures Consistent(c, db, bus, s.workers, s.history)
  {
    AckedFrame(s.db, db, s.bus, bus);
    DeadFrame(c, s.db.deadLetters, s.bus, bus);
    HistoryFrame(s.history, s.db, db, s.bus, bus);
    WorkersFrame(c, s.workers, s.db, db, s.bus, bus);
  }

  // ---------- API, relay and environment steps ----------

  lemma ApiDbExtends(s: State, p: Proc, a: ApiAction)
    requires ApisOk(s.apis, s.db.batches) && ApiEnabled(s, p, a)
    ensures DbExtends(s.db, ApiNext(s, p, a).db)
  {
  }

  lemma ApiConsumed(c: Config, s: State, p: Proc, a: ApiAction)
    requires ApisOk(s.apis, s.db.batches) && Consumed(c, s) && ApiEnabled(s, p, a)
    ensures Consumed(c, ApiNext(s, p, a))
  {
    ApiFrame(s, p, a);
    ApiDbExtends(s, p, a);
    var t := ApiNext(s, p, a);
    Grow(c, s, t.db, t.bus);
  }

  lemma RelayConsumed(c: Config, s: State, p: Proc, a: RelayAction)
    requires Consumed(c, s) && RelayEnabled(s, p, a)
    ensures Consumed(c, RelayNext(s, p, a))
  {
    RelayFrame(s, p, a);
    var t := RelayNext(s, p, a);
    Grow(c, s, t.db, t.bus);
  }

  lemma InjectConsumed(c: Config, s: State, f: Fields)
    requires Consumed(c, s) && CanInject(s, f)
    ensures Consumed(c, Inject(s, f))
  {
    var t := Inject(s, f);
    Grow(c, s, t.db, t.bus);
  }

  // ---------- reading and claiming ----------

  lemma ReadBus(bus: Bus, w: Proc)
    requires GroupOk(bus) && bus.delivered < |bus.stream|
    ensures var m := bus.delivered;
            var y := bus.(delivered := m + 1, pending := bus.pending[m := Pending(w, 1)],
                          deliveries := bus.deliveries[m := 1]);
            GroupOk(y) && BusExtends(bus, y)
  {
  }

  lemma ReadFacts(c: Config, s: State, w: Proc)
    requires CanWorkerRead(s, w)
    requires GroupOk(s.bus) && DeadOk(c, s.db.deadLetters, s.bus) && WorkerOk(c, s.workers[w], s.db, s.bus)
    ensures var y := WorkerRead(s, w).bus;
            && GroupOk(y) && BusExtends(s.bus, y) && DeadOk(c, s.db.deadLetters, y)
            && WorkerOk(c, Worker(s.workers[w].queue + [s.bus.delivered], Ready), s.db, y)
  {
    ReadBus(s.bus, w);
    DeadFrame(c, s.db.deadLetters, s.bus, WorkerRead(s, w).bus);
  }

  lemma ReadConsumed(c: Config, s: State, w: Proc)
    requires Consumed(c, s) && CanWorkerRead(s, w)
    ensures Consumed(c, WorkerRead(s, w))
  {
    ReadFacts(c, s, w);
    LocklessNoClash(s.workers, Ready);
    Move(c, s, s.db, WorkerRead(s, w).bus, w, Worker(s.workers[w].queue + [s.bus.delivered], Ready));
  }

  lemma ClaimBus(bus: Bus, w: Proc, m: MsgId)
    requires GroupOk(bus) && m in bus.pending
    ensures var times := bus.pending[m].times + 1;
            var y := bus.(pending := bus.pending[m := Pending(w, times)], deliveries := bus.deliveries[m := times]);
            GroupOk(y) && BusExtends(bus, y)
  {
  }

  lemma ClaimFacts(c: Config, s: State, w: Proc, m: MsgId)
    requires CanWorkerClaim(s, w, m)
    requires GroupOk(s.bus) && DeadOk(c, s.db.deadLetters, s.bus) && WorkerOk(c, s.workers[w], s.db, s.bus)
    ensures var y := WorkerClaim(s, w, m).bus;
            && GroupOk(y) && BusExtends(s.bus, y) && DeadOk(c, s.db.deadLetters, y)
            && WorkerOk(c, Worker(s.workers[w].queue + [m], Ready), s.db, y)
  {
    ClaimBus(s.bus, w, m);
    DeadFrame(c, s.db.deadLetters, s.bus, WorkerClaim(s, w, m).bus);
  }

  lemma ClaimConsumed(c: Config, s: State, w: Proc, m: MsgId)
    requires Consumed(c, s) && CanWorkerClaim(s, w, m)
    ensures Consumed(c, WorkerClaim(s, w, m))
  {
    ClaimFacts(c, s, w, m);
    LocklessNoClash(s.workers, Ready);
    Move(c, s, s.db, WorkerClaim(s, w, m).bus, w, Worker(s.workers[w].queue + [m], Ready));
  }

  // ---------- acknowledgement and dead letters ----------

  lemma AckBus(bus: Bus, m: MsgId)
    requires GroupOk(bus) && m < bus.delivered
    ensures GroupOk(Acknowledge(bus, m)) && BusExtends(bus, Acknowledge(bus, m))
  {
  }

  lemma AckFacts(c: Config, s: State, w: Proc)
    requires CanWorkerAck(s, w)
    requires GroupOk(s.bus) && DeadOk(c, s.db.deadLetters, s.bus) && WorkerOk(c, s.workers[w], s.db, s.bus)
    ensures var y := WorkerAck(s, w).bus;
            && GroupOk(y) && BusExtends(s.bus, y) && DeadOk(c, s.db.deadLetters, y)
            && (forall m :: m in y.acked ==> m in s.bus.acked || Settled(s.db, s.bus, m))
            && WorkerOk(c, s.workers[w].(phase := Ready), s.db, y)
  {
    AckBus(s.bus, s.workers[w].phase.msg);
    DeadFrame(c, s.db.deadLetters, s.bus, WorkerAck(s, w).bus);
  }

  lemma AckConsumed(c: Config, s: State, w: Proc)
    requires Consumed(c, s) && CanWorkerAck(s, w)
    ensures Consumed(c, WorkerAck(s, w))
  {
    AckFacts(c, s, w);
    LocklessNoClash(s.workers, Ready);
    Move(c, s, s.db, WorkerAck(s, w).bus, w, s.workers[w].(phase := Ready));
  }

  /** A step that only moves one worker to a phase without locks. */
  lemma PhaseConsumed(c: Config, s: State, w: Proc, ph: Phase)
    requires Consumed(c, s) && w in s.workers
    requires PhaseOk(c, ph, s.db, s.bus) && !TxnOpen(ph)
    ensures Consumed(c, SetPhase(s, w, ph))
  {
    assert WorkerOk(c, s.workers[w], s.db, s.bus);
    LocklessNoClash(s.workers, ph);
    Move(c, s, s.db, s.bus, w, s.workers[w].(phase := ph));
  }

  lemma AttemptsPhase(c: Config, s: State, w: Proc)
    requires GroupOk(s.bus) && CanWorkerAttempts(s, w) && WorkerOk(c, s.workers[w], s.db, s.bus)
    ensures PhaseOk(c, AttemptsNext(c, s, s.workers[w].phase), s.db, s.bus)
  {
  }

  lemma AttemptsConsumed(c: Config, s: State, w: Proc)
    requires Consumed(c, s) && CanWorkerAttempts(s, w)
    ensures Consumed(c, WorkerAttempts(c, s, w))
  {
    AttemptsPhase(c, s, w);
    PhaseConsumed(c, s, w, AttemptsNext(c, s, s.workers[w].phase));
  }

  lemma DlqGrows(dlq: seq<DlqEntry>, d: DlqEntry)
    ensures forall m :: InDlq(dlq, m) ==> InDlq(dlq + [d], m)
    ensures InDlq(dlq + [d], d.source)
  {
    var dlq' := dlq + [d];
    assert dlq'[|dlq|] == d;
    forall m | InDlq(dlq, m) ensures InDlq(dlq', m) {
      var i :| 0 <= i < |dlq| && dlq[i].source == m;
      assert dlq'[i] == dlq[i];
    }
  }

  lemma DlqAddDead(c: Config, dead: map<MsgId, DeadLetterRow>, x: Bus, d: DlqEntry)
    requires DeadOk(c, dead, x) && DlqEntryOk(x, d)
    ensures DeadOk(c, dead, x.(dlq := x.dlq + [d]))
  {
    var y := x.(dlq := x.dlq + [d]);
    DlqGrows(x.dlq, d);
    forall m | m in dead ensures DeadLetterOk(c, y, m, dead[m]) {
      assert DeadLetterOk(c, x, m, dead[m]);
    }
    forall i | 0 <= i < |y.dlq| ensures DlqEntryOk(y, y.dlq[i]) {
      if i < |x.dlq| {
        assert y.dlq[i] == x.dlq[i];
        assert DlqEntryOk(x, x.dlq[i]);
      }
    }
  }

  lemma DlqAddFacts(c: Config, s: State, w: Proc)
    requires CanWorkerDlqAdd(s, w)
    requires GroupOk(s.bus) && DeadOk(c, s.db.deadLetters, s.bus) && WorkerOk(c, s.workers[w], s.db, s.bus)
    ensures var ph := s.workers[w].phase;
            var y := WorkerDlqAdd(s, w).bus;
            && GroupOk(y) && BusExtends(s.bus, y) && DeadOk(c, s.db.deadLetters, y)
            && WorkerOk(c, s.workers[w].(phase := DlqWritten(ph.msg, ph.error, ph.attempts)), s.db, y)
  {
    var ph := s.workers[w].phase;
    var d := DlqEntry(ph.msg, ph.error, s.bus.stream[ph.msg].fields);
    DlqGrows(s.bus.dlq, d);
    DlqAddDead(c, s.db.deadLetters, s.bus, d);
  }

  lemma DlqAddConsumed(c: Config, s: State, w: Proc)
    requires Consumed(c, s) && CanWorkerDlqAdd(s, w)
    ensures Consumed(c, WorkerDlqAdd(s, w))
  {
    var ph := s.workers[w].phase;
    var next := DlqWritten(ph.msg, ph.error, ph.attempts);
    DlqAddFacts(c, s, w);
    LocklessNoClash(s.workers, next);
    Move(c, s, s.db, WorkerDlqAdd(s, w).bus, w, s.workers[w].(phase := next));
  }

  lemma RecordDeadRow(c: Config, dead: map<MsgId, DeadLetterRow>, bus: Bus, ph: Phase)
    requires DeadOk(c, dead, bus) && ph.DlqWritten?
    requires IsPoisonedBy(bus, ph.msg, ph.error) && AtLimit(c, bus, ph.msg, ph.attempts) && InDlq(bus.dlq, ph.msg)
    ensures DeadOk(c, dead[ph.msg := DeadLetterOf(ph, bus.stream[ph.msg].fields)], bus)
  {
  }

  lemma RecordDeadFacts(c: Config, s: State, w: Proc)
    requires DeadOk(c, s.db.deadLetters, s.bus) && CanWorkerRecordDead(s, w)
    requires WorkerOk(c, s.workers[w], s.db, s.bus)
    ensures var db := WorkerRecordDead(s, w).db;
            && DbExtends(s.db, db) && DeadOk(c, db.deadLetters, s.bus)
            && WorkerOk(c, s.workers[w].(phase := DlqRecorded(s.workers[w].phase.msg)), db, s.bus)
  {
    RecordDeadRow(c, s.db.deadLetters, s.bus, s.workers[w].phase);
  }

  lemma RecordDeadConsumed(c: Config, s: State, w: Proc)
    requires Consumed(c, s) && CanWorkerRecordDead(s, w)
    ensures Consumed(c, WorkerRecordDead(s, w))
  {
    var next := DlqRecorded(s.workers[w].phase.msg);
    RecordDeadFacts(c, s, w);
    LocklessNoClash(s.workers, next);
    Move(c, s, WorkerRecordDead(s, w).db, s.bus, w, s.workers[w].(phase := next));
  }

  lemma InvalidateFacts(c: Config, x: Worker, db: Database, bus: Bus)
    requires WorkerOk(c, x, db, bus) && x.phase.Applied?
    ensures PhaseOk(c, Invalidated(x.phase.msg), db, bus)
  {
  }

  lemma InvalidateConsumed(c: Config, s: State, w: Proc)
    requires Consumed(c, s) && CanWorkerInvalidate(s, w)
    ensures Consumed(c, WorkerInvalidate(s, w))
  {
    InvalidateFacts(c, s.workers[w], s.db, s.bus);
    PhaseConsumed(c, s, w, Invalidated(s.workers[w].phase.msg));
  }

  lemma StartConsumed(c: Config, s: State, w: Proc)
    requires Consumed(c, s) && CanWorkerStart(s, w)
    ensures Consumed(c, WorkerStart(s, w))
  {
    LocklessNoClash(s.workers, Ready);
    Move(c, s, s.db, s.bus, w, Worker([], Ready));
  }

  lemma CrashConsumed(c: Config, s: State, w: Proc)
    requires Consumed(c, s) && CanWorkerCrash(s, w)
    ensures Consumed(c, WorkerCrash(s, w))
  {
    var workers := s.workers - {w};
    forall v | v in workers ensures WorkerOk(c, workers[v], s.db, s.bus) {
      assert WorkerOk(c, s.workers[v], s.db, s.bus);
    }
    forall u, v | u in workers && v in workers && u != v ensures NoClash(workers[u].phase, workers[v].phase) {
      assert NoClash(s.workers[u].phase, s.workers[v].phase);
    }
  }

  lemma DeliveryConsumed(c: Config, s: State, w: Proc, a: DeliveryAction)
    requires Consumed(c, s) && DeliveryEnabled(s, w, a)
    ensures Consumed(c, DeliveryNext(c, s, w, a))
  {
    match a
    case DoStart => StartConsumed(c, s, w);
    case DoRead => ReadConsumed(c, s, w);
    case DoClaim(m) => ClaimConsumed(c, s, w, m);
    case DoInvalidate => InvalidateConsumed(c, s, w);
    case DoAck => AckConsumed(c, s, w);
    case DoAttempts => AttemptsConsumed(c, s, w);
    case DoDlqAdd => DlqAddConsumed(c, s, w);
    case DoRecordDead => RecordDeadConsumed(c, s, w);
    case DoCrash => CrashConsumed(c, s, w);
  }

  // ---------- process_event ----------

  /** Where `BeginPhase` leads is a sound phase, and its event id was free. */
  lemma BeginPhaseOk(c: Config, s: State, w: Proc)
    requires CanWorkerBegin(s, w) && WorkerOk(c, s.workers[w], s.db, s.bus) && s.bus.delivered <= |s.bus.stream|
    ensures var m := s.workers[w].queue[0];
            var x := Worker(s.workers[w].queue[1..], BeginPhase(s.db.processed, m, s.bus.stream[m].fields));
            WorkerOk(c, x, s.db, s.bus) && forall v :: v in s.workers && v != w ==> NoClash(s.workers[v].phase, x.phase)
  {
    var queue := s.workers[w].queue;
    assert queue[0] in queue && forall m :: m in queue[1..] ==> m in queue;
  }

  lemma BeginConsumed(c: Config, s: State, w: Proc)
    requires Consumed(c, s) && CanWorkerBegin(s, w)
    ensures Consumed(c, WorkerBegin(s, w))
  {
    assert WorkerOk(c, s.workers[w], s.db, s.bus);
    BeginPhaseOk(c, s, w);
    var m := s.workers[w].queue[0];
    Move(c, s, s.db, s.bus, w, Worker(s.workers[w].queue[1..], BeginPhase(s.db.processed, m, s.bus.stream[m].fields)));
  }

  /** The phases inside the transaction that keep the worker's own locks. */
  lemma StageConsumed(c: Config, s: State, w: Proc, ph: Phase)
    requires Consumed(c, s) && w in s.workers
    requires TxnOpen(s.workers[w].phase) && TxnOpen(ph) && ph.event == s.workers[w].phase.event
    requires FleetRowLocked(ph) ==>
               if FleetRowLocked(s.workers[w].phase) then ph.batch == s.workers[w].phase.batch
               else !AgentLocked(s.workers, ph.batch.agentId)
    requires PhaseOk(c, ph, s.db, s.bus)
    ensures Consumed(c, SetPhase(s, w, ph))
  {
    assert WorkerOk(c, s.workers[w], s.db, s.bus);
    forall v | v in s.workers && v != w ensures NoClash(s.workers[v].phase, ph) {
      assert NoClash(s.workers[v].phase, s.workers[w].phase);
    }
    Move(c, s, s.db, s.bus, w, s.workers[w].(phase := ph));
  }

  lemma StoredDoc(agents: map<AgentId, AgentRow>, batches: map<BatchId, BatchRow>, b: BatchId)
    requires BatchesOk(agents, batches) && b in batches
    ensures ValidBatch(batches[b].payload) && batches[b].payload.batchId == b
  {
    assert BatchOk(agents, b, batches[b]);
  }

  lemma LoadPhaseOk(c: Config, s: State, w: Proc, doc: TelemetryBatch)
    requires CanWorkerLoad(s, w) && WorkerOk(c, s.workers[w], s.db, s.bus)
    requires var b := s.workers[w].phase.event.aggregateId.id; doc == s.db.batches[b].payload && doc.batchId == b
    ensures var ph := s.workers[w].phase; PhaseOk(c, Loaded(ph.msg, ph.event, doc), s.db, s.bus)
  {
  }

  lemma LoadIs(s: State, w: Proc, doc: TelemetryBatch)
    requires CanWorkerLoad(s, w) && doc == s.db.batches[s.workers[w].phase.event.aggregateId.id].payload
    ensures WorkerLoad(s, w) == SetPhase(s, w, Loaded(s.workers[w].phase.msg, s.workers[w].phase.event, doc))
  {
  }

  lemma LoadStage(c: Config, s: State, w: Proc, doc: TelemetryBatch)
    requires Consumed(c, s) && CanWorkerLoad(s, w)
    requires var b := s.workers[w].phase.event.aggregateId.id; doc == s.db.batches[b].payload && doc.batchId == b
    ensures Consumed(c, SetPhase(s, w, Loaded(s.workers[w].phase.msg, s.workers[w].phase.event, doc)))
  {
    LoadPhaseOk(c, s, w, doc);
    StageConsumed(c, s, w, Loaded(s.workers[w].phase.msg, s.workers[w].phase.event, doc));
  }

  lemma LoadConsumed(c: Config, s: State, w: Proc)
    requires BatchesOk(s.db.agents, s.db.batches) && Consumed(c, s) && CanWorkerLoad(s, w)
    ensures Consumed(c, WorkerLoad(s, w))
  {
    var b := s.workers[w].phase.event.aggregateId.id;
    StoredDoc(s.db.agents, s.db.batches, b);
    LoadIs(s, w, s.db.batches[b].payload);
    LoadStage(c, s, w, s.db.batches[b].payload);
  }

  ghost function StagePhase(c: Config, s: State, w: Proc, a: ProcessAction): (ph: Phase)
    requires ProcessEnabled(s, w, a) && (a.DoUpsert? || a.DoCpu? || a.DoMemory?)
  {
    var was := s.workers[w].phase;
    match a
    case DoUpsert => Upserted(was.msg, was.event, was.batch)
    case DoCpu => CpuDone(was.msg, was.event, was.batch, Opens(c, s.db.view.incidents, was.batch, HighCpu))
    case DoMemory => MemoryDone(was.msg, was.event, was.batch, was.newCpu, Opens(c, s.db.view.incidents, was.batch, HighMemory))
  }

  lemma StagePhaseOk(c: Config, s: State, w: Proc, a: ProcessAction)
    requires ProcessEnabled(s, w, a) && (a.DoUpsert? || a.DoCpu? || a.DoMemory?)
    requires WorkerOk(c, s.workers[w], s.db, s.bus)
    ensures PhaseOk(c, StagePhase(c, s, w, a), s.db, s.bus)
  {
    var f := s.bus.stream[s.workers[w].phase.msg].fields;
    match a
    case DoUpsert => assert TxnOk(c, StagePhase(c, s, w, DoUpsert), f, s.db);
    case DoCpu => assert TxnOk(c, StagePhase(c, s, w, DoCpu), f, s.db);
    case DoMemory => assert TxnOk(c, StagePhase(c, s, w, DoMemory), f, s.db);
  }

  lemma StagesConsumed(c: Config, s: State, w: Proc, a: ProcessAction)
    requires Consumed(c, s) && ProcessEnabled(s, w, a) && (a.DoUpsert? || a.DoCpu? || a.DoMemory?)
    ensures Consumed(c, ProcessNext(c, s, w, a))
  {
    StagePhaseOk(c, s, w, a);
    StageConsumed(c, s, w, StagePhase(c, s, w, a));
  }

  /** With valid decisions, the staged rows are what applying the batch would write. */
  lemma StagedIsApply(c: Config, v: View, ph: Phase)
    requires ph.MemoryDone?
    requires ph.newCpu == Opens(c, v.incidents, ph.batch, HighCpu)
    requires ph.newMemory == Opens(c, v.incidents, ph.batch, HighMemory)
    ensures CommittedView(c, v, ph) == ApplyBatch(c, v, ph.batch)
  {
    KeyInjective(ph.batch.agentId, HighCpu, ph.batch.agentId, HighMemory);
  }

  lemma FoldAppend(c: Config, h: seq<Commit>, x: Commit)
    ensures Fold(c, h + [x]) == ApplyBatch(c, Fold(c, h), x.batch)
  {
    var g := h + [x];
    assert g[..|g| - 1] == h;
  }

  /** Another agent's batch does not change whether an insert of this agent's would create a row. */
  lemma OpensStable(c: Config, v: View, b: TelemetryBatch, other: TelemetryBatch, kind: Kind)
    requires b.agentId != other.agentId
    ensures Opens(c, ApplyBatch(c, v, other).incidents, b, kind) == Opens(c, v.incidents, b, kind)
  {
    ApplyIncidents(c, v, other, b.agentId, kind);
  }

  /** A commit leaves every other worker's open transaction describing the tables. */
  lemma CommitOthers(c: Config, db: Database, bus: Bus, ph: Phase, mine: Phase, row: ProcessedRow)
    requires PhaseOk(c, ph, db, bus)
    requires mine.MemoryDone? && NoClash(ph, mine)
    ensures PhaseOk(c, ph, db.(processed := db.processed[mine.event.eventId := row],
                               view := ApplyBatch(c, db.view, mine.batch)), bus)
  {
    if ph.CpuDone? || ph.MemoryDone? {
      OpensStable(c, db.view, ph.batch, mine.batch, HighCpu);
      OpensStable(c, db.view, ph.batch, mine.batch, HighMemory);
    }
  }

  /** An earlier commit is still described by the tables, and was of another event. */
  lemma CommitKeepsRecord(db: Database, bus: Bus, view: View, h: Commit, e: EventId, row: ProcessedRow)
    requires CommitOk(db, bus, h) && e !in db.processed
    ensures h.event != e
    ensures CommitOk(db.(processed := db.processed[e := row], view := view), bus, h)
  {
  }

  ghost predicate Covered(history: seq<Commit>, processed: map<EventId, ProcessedRow>) {
    forall e :: e in processed ==> exists i :: 0 <= i < |history| && history[i].event == e
  }

  lemma CommitCovers(history: seq<Commit>, processed: map<EventId, ProcessedRow>, x: Commit, row: ProcessedRow)
    requires Covered(history, processed)
    ensures Covered(history + [x], processed[x.event := row])
  {
    var h := history + [x];
    var after := processed[x.event := row];
    forall e | e in after ensures exists i :: 0 <= i < |h| && h[i].event == e {
      if e == x.event {
        assert h[|history|].event == e;
      } else {
        var i :| 0 <= i < |history| && history[i].event == e;
        assert h[i].event == e;
      }
    }
  }

  lemma CommitHistory(history: seq<Commit>, db: Database, bus: Bus, view: View, x: Commit, w: Proc)
    requires HistoryOk(history, db, bus)
    requires x.event !in db.processed
    requires CommitOk(db.(processed := db.processed[x.event := ProcessedRow(x.msg, w)]), bus, x)
    ensures HistoryOk(history + [x], db.(processed := db.processed[x.event := ProcessedRow(x.msg, w)], view := view), bus)
  {
    var h := history + [x];
    CommitCovers(history, db.processed, x, ProcessedRow(x.msg, w));
    forall i | 0 <= i < |history|
      ensures CommitOk(db.(processed := db.processed[x.event := ProcessedRow(x.msg, w)], view := view), bus, h[i])
      ensures h[i].event != x.event
    {
      CommitKeepsRecord(db, bus, view, history[i], x.event, ProcessedRow(x.msg, w));
    }
  }

  lemma CommitWorkers(c: Config, s: State, w: Proc, db: Database)
    requires WorkersOk(c, s.workers, s.db, s.bus) && LocksOk(s.workers) && CanWorkerCommit(s, w)
    requires var ph := s.workers[w].phase;
             db == s.db.(processed := s.db.processed[ph.event.eventId := ProcessedRow(ph.msg, w)],
                         view := ApplyBatch(c, s.db.view, ph.batch))
    ensures WorkersOk(c, s.workers[w := s.workers[w].(phase := Applied(s.workers[w].phase.msg))], db, s.bus)
  {
    var ph := s.workers[w].phase;
    var workers := s.workers[w := s.workers[w].(phase := Applied(ph.msg))];
    forall v | v in workers ensures WorkerOk(c, workers[v], db, s.bus) {
      assert WorkerOk(c, s.workers[v], s.db, s.bus);
      if v != w {
        assert NoClash(s.workers[v].phase, ph);
        CommitOthers(c, s.db, s.bus, s.workers[v].phase, ph, ProcessedRow(ph.msg, w));
      }
    }
  }

  lemma CommitAcked(db: Database, bus: Bus, e: EventId, row: ProcessedRow, view: View)
    requires AckedOk(db, bus)
    ensures AckedOk(db.(processed := db.processed[e := row], view := view), bus)
  {
    var db' := db.(processed := db.processed[e := row], view := view);
    forall m | m in bus.acked ensures Settled(db', bus, m) {
      assert Settled(db, bus, m);
    }
  }

  lemma CommitRecord(c: Config, s: State, w: Proc)
    requires CanWorkerCommit(s, w) && WorkerOk(c, s.workers[w], s.db, s.bus)
    ensures var ph := s.workers[w].phase;
            var x := Commit(ph.event.eventId, ph.msg, ph.batch);
            && x.event !in s.db.processed
            && CommitOk(s.db.(processed := s.db.processed[x.event := ProcessedRow(x.msg, w)]), s.bus, x)
            && CommittedView(c, s.db.view, ph) == ApplyBatch(c, s.db.view, ph.batch)
  {
    StagedIsApply(c, s.db.view, s.workers[w].phase);
  }

  lemma CommitTables(c: Config, s: State, db: Database, x: Commit, w: Proc)
    requires AckedOk(s.db, s.bus) && HistoryOk(s.history, s.db, s.bus) && s.db.view == Fold(c, s.history)
    requires db == s.db.(processed := s.db.processed[x.event := ProcessedRow(x.msg, w)],
                         view := ApplyBatch(c, s.db.view, x.batch))
    requires x.event !in s.db.processed
    requires CommitOk(s.db.(processed := s.db.processed[x.event := ProcessedRow(x.msg, w)]), s.bus, x)
    ensures AckedOk(db, s.bus) && HistoryOk(s.history + [x], db, s.bus) && db.view == Fold(c, s.history + [x])
  {
    FoldAppend(c, s.history, x);
    CommitHistory(s.history, s.db, s.bus, db.view, x, w);
    CommitAcked(s.db, s.bus, x.event, ProcessedRow(x.msg, w), db.view);
  }

  lemma CommitLocks(workers: map<Proc, Worker>, w: Proc, m: MsgId)
    requires LocksOk(workers) && w in workers
    ensures LocksOk(workers[w := workers[w].(phase := Applied(m))])
  {
    LocklessNoClash(workers, Applied(m));
    LocksUpdate(workers, w, workers[w].(phase := Applied(m)));
  }

  lemma CommitConsistent(c: Config, s: State, w: Proc, db: Database, x: Commit)
    requires Consumed(c, s) && CanWorkerCommit(s, w)
    requires var ph := s.workers[w].phase; x == Commit(ph.event.eventId, ph.msg, ph.batch)
    requires db == s.db.(processed := s.db.processed[x.event := ProcessedRow(x.msg, w)],
                         view := ApplyBatch(c, s.db.view, x.batch))
    requires x.event !in s.db.processed
    requires CommitOk(s.db.(processed := s.db.processed[x.event := ProcessedRow(x.msg, w)]), s.bus, x)
    ensures Consistent(c, db, s.bus, s.workers[w := s.workers[w].(phase := Applied(x.msg))], s.history + [x])
  {
    CommitTables(c, s, db, x, w);
    CommitWorkers(c, s, w, db);
    CommitLocks(s.workers, w, x.msg);
  }

  lemma CommitConsumed(c: Config, s: State, w: Proc)
    requires Consumed(c, s) && CanWorkerCommit(s, w)
    ensures Consumed(c, WorkerCommit(c, s, w))
  {
    var ph := s.workers[w].phase;
    CommitRecord(c, s, w);
    CommitConsistent(c, s, w, WorkerCommit(c, s, w).db, Commit(ph.event.eventId, ph.msg, ph.batch));
  }

  lemma ProcessConsumed(c: Config, s: State, w: Proc, a: ProcessAction)
    requires BatchesOk(s.db.agents, s.db.batches) && Consumed(c, s) && ProcessEnabled(s, w, a)
    ensures Consumed(c, ProcessNext(c, s, w, a))
  {
    match a
    case DoBegin => BeginConsumed(c, s, w);
    case DoLoad => LoadConsumed(c, s, w);
    case DoCommit => CommitConsumed(c, s, w);
    case _ => StagesConsumed(c, s, w, a);
  }

  /** Every step keeps the worker layer. */
  lemma ConsumedStep(c: Config, s: State, a: Step)
    requires Ingested(s) && Consumed(c, s) && Enabled(s, a)
    ensures Consumed(c, Next(c, s, a))
  {
    match a
    case Api(p, x) => ApiConsumed(c, s, p, x);
    case Relay(p, x) => RelayConsumed(c, s, p, x);
    case Deliver(p, x) => DeliveryConsumed(c, s, p, x);
    case Process(p, x) => ProcessConsumed(c, s, p, x);
    case Read(p, x) => ReaderFrame(s, p, x);
    case Environment(f) => InjectConsumed(c, s, f);
    case Expire =>
  }
}
